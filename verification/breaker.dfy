/** The circuit breaker: a plain value, a cell that is updated in place, and a
    table of them by key. */
module Breaker {
  import opened Options

  datatype State = Closed | Open | HalfOpen

  datatype Trip = Consecutive(n: nat) | ErrorRate(percent: nat, minSamples: nat)

  /** `cooldown` is in milliseconds. */
  datatype Policy = Policy(trip: Trip, cooldown: nat, probes: nat)

  datatype Tally = Tally(total: nat, errors: nat)

  datatype Data = Data(state: State, openedAt: int, failures: nat, probeSuccesses: nat)

  const DEFAULT: Data := Data(Closed, 0, 0, 0)

  function AtLeast1(n: nat): nat {
    if n == 0 then 1 else n
  }

  function Trips(t: Trip, failures: nat, tally: Tally): bool {
    match t
    case Consecutive(n) => failures >= AtLeast1(n)
    case ErrorRate(percent, minSamples) =>
      tally.total >= AtLeast1(minSamples) && tally.errors * 100 >= percent * tally.total
  }

  predicate Cooled(b: Data, p: Policy, now: int) {
    now - b.openedAt >= p.cooldown
  }

  /** The state at `now`: an open breaker that has cooled is half open. */
  function StateAt(b: Data, p: Policy, now: int): State {
    if b.state.Open? && Cooled(b, p, now) then HalfOpen else b.state
  }

  predicate Admits(b: Data, p: Policy, now: int) {
    !StateAt(b, p, now).Open?
  }

  function Opened(b: Data, now: int): Data {
    b.(state := Open, openedAt := now, probeSuccesses := 0)
  }

  function Admitted(b: Data, p: Policy, now: int): Data {
    if b.state.Open? && Cooled(b, p, now) then b.(state := HalfOpen, probeSuccesses := 0) else b
  }

  function Recorded(b: Data, ok: bool, tally: Tally, p: Policy, now: int): Data {
    if StateAt(b, p, now).Closed? then
      if ok then b.(failures := 0)
      else
        var c := b.(failures := b.failures + 1);
        if Trips(p.trip, c.failures, tally) then Opened(c, now) else c
    else if ok then
      if b.probeSuccesses + 1 >= AtLeast1(p.probes) then DEFAULT
      else b.(state := HalfOpen, probeSuccesses := b.probeSuccesses + 1)
    else Opened(b.(failures := b.failures + 1), now)
  }

  function Changed(before: State, after: State): Option<State> {
    if before == after then None else Some(after)
  }

  /** What recording a result answers: the state it changed to, if it changed. */
  function Answer(b: Data, ok: bool, tally: Tally, p: Policy, now: int): Option<State> {
    Changed(StateAt(b, p, now), StateAt(Recorded(b, ok, tally, p, now), p, now))
  }

  // ------------------------------------------------------------- the cell

  class Cell {
    var state: State
    var openedAt: int
    var failures: nat
    var probeSuccesses: nat

    function View(): Data
      reads this
    {
      Data(state, openedAt, failures, probeSuccesses)
    }

    constructor (b: Data)
      ensures View() == b
    {
      state, openedAt, failures, probeSuccesses := b.state, b.openedAt, b.failures, b.probeSuccesses;
    }

    method Admit(p: Policy, now: int) returns (admitted: bool, change: Option<State>)
      modifies this
      ensures View() == Admitted(old(View()), p, now)
      ensures admitted == Admits(old(View()), p, now)
      ensures change == if View() == old(View()) then None else Some(HalfOpen)
    {
      if state.Open? && Cooled(View(), p, now) {
        state := HalfOpen;
        probeSuccesses := 0;
        return true, Some(HalfOpen);
      }
      return !state.Open?, None;
    }

    method OpenUp(now: int)
      modifies this
      ensures View() == Opened(old(View()), now)
    {
      state := Open;
      openedAt := now;
      probeSuccesses := 0;
    }

    method Record(ok: bool, tally: Tally, p: Policy, now: int) returns (change: Option<State>)
      modifies this
      ensures View() == Recorded(old(View()), ok, tally, p, now)
      ensures change == Answer(old(View()), ok, tally, p, now)
      ensures change.None? <==> StateAt(old(View()), p, now) == StateAt(View(), p, now)
      ensures change.Some? ==> change.value == StateAt(View(), p, now)
    {
      var before := StateAt(View(), p, now);
      match (before, ok) {
        case (Closed, true) =>
          failures := 0;
        case (Closed, false) =>
          failures := failures + 1;
          if Trips(p.trip, failures, tally) {
            OpenUp(now);
          }
        case (_, true) =>
          probeSuccesses := probeSuccesses + 1;
          if probeSuccesses >= AtLeast1(p.probes) {
            state, openedAt, failures, probeSuccesses := Closed, 0, 0, 0;
          } else {
            state := HalfOpen;
          }
        case (_, false) =>
          failures := failures + 1;
          OpenUp(now);
      }
      var after := StateAt(View(), p, now);
      change := if after != before then Some(after) else None;
    }

    /** `None` unless open; zero once the next request may probe. */
    method CooldownLeft(p: Policy, now: int) returns (left: Option<nat>)
      ensures left.None? <==> !state.Open?
      ensures now >= openedAt ==> (left == Some(0) <==> state.Open? && StateAt(View(), p, now).HalfOpen?)
      ensures left.Some? && now >= openedAt && left.value > 0 ==> now + left.value == openedAt + p.cooldown
      ensures left.Some? && now < openedAt ==> left.value == p.cooldown
    {
      if !state.Open? {
        return None;
      }
      var elapsed: nat := if now >= openedAt then now - openedAt else 0;
      return Some(if p.cooldown >= elapsed then p.cooldown - elapsed else 0);
    }
  }

  // ------------------------------------------------------------- runs

  datatype Op = Result(ok: bool, tally: Tally, at: int) | Admit(at: int)

  function Step(b: Data, p: Policy, o: Op): Data {
    match o
    case Result(ok, tally, at) => Recorded(b, ok, tally, p, at)
    case Admit(at) => Admitted(b, p, at)
  }

  function Run(p: Policy, ops: seq<Op>): Data {
    if ops == [] then DEFAULT else Step(Run(p, ops[..|ops| - 1]), p, ops[|ops| - 1])
  }

  /** The recorded results alone. */
  function Results(ops: seq<Op>): seq<bool> {
    if ops == [] then []
    else
      var o := ops[|ops| - 1];
      if o.Result? then Results(ops[..|ops| - 1]) + [o.ok] else Results(ops[..|ops| - 1])
  }

  /** `n` failures in a row, and not `k` successes in a row after them. */
  ghost predicate Broken(rs: seq<bool>, n: nat, k: nat) {
    exists i :: BrokenAt(rs, n, k, i)
  }

  ghost predicate BrokenAt(rs: seq<bool>, n: nat, k: nat, i: int) {
    && 0 <= i && i + n <= |rs|
    && (forall j :: i <= j < i + n ==> !rs[j])
    && (forall j :: i + n <= j && j + k <= |rs| ==> !Successes(rs, j, k))
  }

  ghost predicate Successes(rs: seq<bool>, from: int, k: nat)
    requires 0 <= from && from + k <= |rs|
  {
    forall j :: from <= j < from + k ==> rs[j]
  }

  /** The length of the run of `v` at the end. */
  function Trailing(rs: seq<bool>, v: bool): (r: nat)
    ensures r <= |rs| && forall j :: |rs| - r <= j < |rs| ==> rs[j] == v
    ensures r < |rs| ==> rs[|rs| - r - 1] != v
  {
    if rs == [] || rs[|rs| - 1] != v then 0 else Trailing(rs[..|rs| - 1], v) + 1
  }

  lemma BrokenByFailure(rs: seq<bool>, n: nat, k: nat)
    requires n >= 1 && k >= 1
    ensures Broken(rs + [false], n, k) <==> Broken(rs, n, k) || Trailing(rs + [false], false) >= n
  {
    var t := rs + [false];
    if Broken(rs, n, k) {
      var i :| BrokenAt(rs, n, k, i);
      assert forall j :: i + n <= j && j + k <= |t| ==> !Successes(t, j, k) by {
        forall j | i + n <= j && j + k <= |t| ensures !Successes(t, j, k) {
          if j + k == |t| {
            assert !t[|t| - 1];
          } else {
            assert !Successes(rs, j, k);
          }
        }
      }
      assert BrokenAt(t, n, k, i);
    }
    if Trailing(t, false) >= n {
      assert BrokenAt(t, n, k, |t| - n);
    }
    if Broken(t, n, k) && Trailing(t, false) < n {
      var i :| BrokenAt(t, n, k, i);
      assert i + n <= |rs|;
      forall j | i + n <= j && j + k <= |rs| ensures !Successes(rs, j, k) {
        assert !Successes(t, j, k);
      }
      assert BrokenAt(rs, n, k, i);
    }
  }

  lemma BrokenBySuccess(rs: seq<bool>, n: nat, k: nat)
    requires n >= 1 && k >= 1
    ensures Broken(rs + [true], n, k) <==> Broken(rs, n, k) && Trailing(rs + [true], true) < k
  {
    var t := rs + [true];
    if Broken(t, n, k) {
      var i :| BrokenAt(t, n, k, i);
      assert i + n <= |rs| by {
        assert !t[i + n - 1];
      }
      forall j | i + n <= j && j + k <= |rs| ensures !Successes(rs, j, k) {
        assert !Successes(t, j, k);
      }
      assert BrokenAt(rs, n, k, i);
      var r := Trailing(t, true);
      assert i + n <= |t| - r by {
        assert !t[i + n - 1];
      }
      assert r >= k ==> Successes(t, |t| - k, k);
    }
    if Broken(rs, n, k) && Trailing(t, true) < k {
      var i :| BrokenAt(rs, n, k, i);
      forall j | i + n <= j && j + k <= |t| ensures !Successes(t, j, k) {
        if j + k < |t| {
          assert !Successes(rs, j, k);
        }
      }
      assert BrokenAt(t, n, k, i);
    }
  }

  /** The stored state and both counters, as functions of the results alone. */
  ghost predicate Reflects(b: Data, rs: seq<bool>, n: nat, k: nat) {
    if b.state.Closed? then
      !Broken(rs, n, k) && b.failures == Trailing(rs, false) < n
    else
      && Broken(rs, n, k) && b.probeSuccesses == Trailing(rs, true) < k
      && (b.state.Open? ==> rs != [] && !rs[|rs| - 1])
      && (b.state.HalfOpen? ==> rs != [])
  }

  lemma ResultKeeps(b: Data, rs: seq<bool>, p: Policy, ok: bool, tally: Tally, now: int)
    requires p.trip.Consecutive?
    requires Reflects(b, rs, AtLeast1(p.trip.n), AtLeast1(p.probes))
    ensures Reflects(Recorded(b, ok, tally, p, now), rs + [ok], AtLeast1(p.trip.n), AtLeast1(p.probes))
  {
    var n, k := AtLeast1(p.trip.n), AtLeast1(p.probes);
    assert (rs + [ok])[..|rs|] == rs;
    if ok {
      BrokenBySuccess(rs, n, k);
    } else {
      BrokenByFailure(rs, n, k);
    }
  }

  lemma {:induction false} RunReflects(p: Policy, ops: seq<Op>)
    requires p.trip.Consecutive?
    ensures Reflects(Run(p, ops), Results(ops), AtLeast1(p.trip.n), AtLeast1(p.probes))
    decreases |ops|
  {
    if ops == [] {
      assert !Broken([], AtLeast1(p.trip.n), AtLeast1(p.probes));
    } else {
      var init, o := ops[..|ops| - 1], ops[|ops| - 1];
      RunReflects(p, init);
      if o.Result? {
        ResultKeeps(Run(p, init), Results(init), p, o.ok, o.tally, o.at);
      }
    }
  }

  /** A breaker that trips on consecutive failures is tripped exactly when the
      results say so, whatever their times and whoever asked in between. */
  lemma TrippedExactlyWhen(p: Policy, ops: seq<Op>)
    requires p.trip.Consecutive?
    ensures !Run(p, ops).state.Closed? <==> Broken(Results(ops), AtLeast1(p.trip.n), AtLeast1(p.probes))
  {
    RunReflects(p, ops);
  }

  // ------------------------------------------- tripped by a rate

  /** Enough samples, and this share of them failed. */
  predicate High(t: Trip, tally: Tally)
    requires t.ErrorRate?
  {
    && tally.total > 0 && tally.total >= t.minSamples
    && (tally.errors as real) / (tally.total as real) >= (t.percent as real) / 100.0
  }

  /** Which results came with a rate that high. */
  function Highs(t: Trip, ops: seq<Op>): (hs: seq<bool>)
    requires t.ErrorRate?
    ensures |hs| == |Results(ops)|
  {
    if ops == [] then []
    else
      var o := ops[|ops| - 1];
      if o.Result? then Highs(t, ops[..|ops| - 1]) + [High(t, o.tally)] else Highs(t, ops[..|ops| - 1])
  }

  /** A failure at such a rate, and not `k` successes in a row after it. */
  ghost predicate Rated(rs: seq<bool>, hs: seq<bool>, k: nat)
    requires |hs| == |rs|
  {
    exists i :: RatedAt(rs, hs, k, i)
  }

  ghost predicate RatedAt(rs: seq<bool>, hs: seq<bool>, k: nat, i: int)
    requires |hs| == |rs|
  {
    && 0 <= i < |rs| && !rs[i] && hs[i]
    && forall j :: i < j && j + k <= |rs| ==> !Successes(rs, j, k)
  }

  lemma RatedByFailure(rs: seq<bool>, hs: seq<bool>, k: nat, h: bool)
    requires k >= 1 && |hs| == |rs|
    ensures Rated(rs + [false], hs + [h], k) <==> Rated(rs, hs, k) || h
  {
    var t, g := rs + [false], hs + [h];
    if Rated(rs, hs, k) {
      var i :| RatedAt(rs, hs, k, i);
      forall j | i < j && j + k <= |t| ensures !Successes(t, j, k) {
        if j + k == |t| {
          assert j <= |t| - 1 < j + k && !t[|t| - 1];
        } else {
          assert !Successes(rs, j, k);
          assert forall m :: j <= m < j + k ==> rs[m] == t[m];
        }
      }
      assert RatedAt(t, g, k, i);
    }
    if h {
      assert RatedAt(t, g, k, |rs|);
    }
    if Rated(t, g, k) && !h {
      var i :| RatedAt(t, g, k, i);
      assert i < |rs|;
      forall j | i < j && j + k <= |rs| ensures !Successes(rs, j, k) {
        assert !Successes(t, j, k);
      }
      assert RatedAt(rs, hs, k, i);
    }
  }

  lemma RatedBySuccess(rs: seq<bool>, hs: seq<bool>, k: nat, h: bool)
    requires k >= 1 && |hs| == |rs|
    ensures Rated(rs + [true], hs + [h], k) <==> Rated(rs, hs, k) && Trailing(rs + [true], true) < k
  {
    var t, g := rs + [true], hs + [h];
    var n := Trailing(t, true);
    if Rated(t, g, k) {
      var i :| RatedAt(t, g, k, i);
      forall j | i < j && j + k <= |rs| ensures !Successes(rs, j, k) {
        assert !Successes(t, j, k);
      }
      assert RatedAt(rs, hs, k, i);
      assert i < |t| - n;
      assert n >= k ==> Successes(t, |t| - k, k);
    }
    if Rated(rs, hs, k) && n < k {
      var i :| RatedAt(rs, hs, k, i);
      forall j | i < j && j + k <= |t| ensures !Successes(t, j, k) {
        if j + k < |t| {
          assert !Successes(rs, j, k);
        }
      }
      assert RatedAt(t, g, k, i);
    }
  }

  lemma TripsAtHigh(t: Trip, failures: nat, tally: Tally)
    requires t.ErrorRate?
    ensures Trips(t, failures, tally) <==> High(t, tally)
  {
    if tally.total > 0 {
      var e, n, q := tally.errors as real, tally.total as real, t.percent as real;
      assert e / n >= q / 100.0 <==> e * 100.0 >= q * n by {
        assert e == e / n * n && q == q / 100.0 * 100.0;
        if e / n >= q / 100.0 {
          assert e / n * n >= q / 100.0 * n;
        } else {
          assert e / n * n < q / 100.0 * n;
        }
      }
      assert (tally.errors * 100) as real == e * 100.0;
      assert (t.percent * tally.total) as real == q * n;
    }
  }

  ghost predicate ReflectsRate(b: Data, rs: seq<bool>, hs: seq<bool>, k: nat)
    requires |hs| == |rs|
  {
    if b.state.Closed? then !Rated(rs, hs, k)
    else
      && Rated(rs, hs, k) && b.probeSuccesses == Trailing(rs, true) < k
      && rs != [] && (b.state.Open? ==> !rs[|rs| - 1])
  }

  lemma RateKeeps(b: Data, rs: seq<bool>, hs: seq<bool>, p: Policy, ok: bool, tally: Tally, now: int)
    requires p.trip.ErrorRate? && |hs| == |rs|
    requires ReflectsRate(b, rs, hs, AtLeast1(p.probes))
    ensures ReflectsRate(Recorded(b, ok, tally, p, now), rs + [ok], hs + [High(p.trip, tally)], AtLeast1(p.probes))
  {
    var k, h := AtLeast1(p.probes), High(p.trip, tally);
    assert (rs + [ok])[..|rs|] == rs;
    if ok {
      RatedBySuccess(rs, hs, k, h);
    } else {
      RatedByFailure(rs, hs, k, h);
      TripsAtHigh(p.trip, b.failures + 1, tally);
    }
  }

  lemma {:induction false} RunReflectsRate(p: Policy, ops: seq<Op>)
    requires p.trip.ErrorRate?
    ensures ReflectsRate(Run(p, ops), Results(ops), Highs(p.trip, ops), AtLeast1(p.probes))
    decreases |ops|
  {
    if ops != [] {
      var init, o := ops[..|ops| - 1], ops[|ops| - 1];
      RunReflectsRate(p, init);
      if o.Result? {
        RateKeeps(Run(p, init), Results(init), Highs(p.trip, init), p, o.ok, o.tally, o.at);
      }
    }
  }

  /** A breaker that trips on an error rate is tripped exactly when some failure
      came at a rate that high, with enough samples, and the successes in a row
      that close it have not followed. */
  lemma RatedExactlyWhen(p: Policy, ops: seq<Op>)
    requires p.trip.ErrorRate?
    ensures !Run(p, ops).state.Closed? <==> Rated(Results(ops), Highs(p.trip, ops), AtLeast1(p.probes))
  {
    RunReflectsRate(p, ops);
  }

  // ------------------------------------------- asking is not changing

  ghost predicate Ordered(ops: seq<Op>, until: int) {
    && (forall i :: 0 <= i < |ops| ==> ops[i].at <= until)
    && (forall i, j :: 0 <= i < j < |ops| ==> ops[i].at <= ops[j].at)
  }

  /** The same run without the requests let through. */
  function Recordings(ops: seq<Op>): seq<Op> {
    if ops == [] then []
    else
      var o := ops[|ops| - 1];
      if o.Result? then Recordings(ops[..|ops| - 1]) + [o] else Recordings(ops[..|ops| - 1])
  }

  /** What each recorded result was answered with. */
  function Answers(p: Policy, ops: seq<Op>): seq<Option<State>> {
    if ops == [] then []
    else
      var init, o := ops[..|ops| - 1], ops[|ops| - 1];
      if o.Result? then Answers(p, init) + [Answer(Run(p, init), o.ok, o.tally, p, o.at)]
      else Answers(p, init)
  }

  /** `landed` is `plain`, or `plain` with a finished cooldown written down. */
  ghost predicate Alike(plain: Data, landed: Data, p: Policy, now: int) {
    && (plain.state.Open? ==> plain.probeSuccesses == 0)
    && (landed == plain ||
        (plain.state.Open? && Cooled(plain, p, now) && landed == plain.(state := HalfOpen)))
  }

  lemma {:induction false} RunsAlike(p: Policy, ops: seq<Op>, now: int)
    requires Ordered(ops, now)
    ensures Alike(Run(p, Recordings(ops)), Run(p, ops), p, now)
    ensures Answers(p, Recordings(ops)) == Answers(p, ops)
    decreases |ops|
  {
    if ops != [] {
      var init, o := ops[..|ops| - 1], ops[|ops| - 1];
      RunsAlike(p, init, o.at);
      if o.Result? {
        assert (Recordings(init) + [o])[..|Recordings(init)|] == Recordings(init);
      }
    }
  }

  /** Lazy half-open is eager half-open: with a clock that never runs back, no
      state, no admission and no answer depends on who asked to be let through. */
  lemma AskingChangesNothing(p: Policy, one: seq<Op>, two: seq<Op>, now: int)
    requires Ordered(one, now) && Ordered(two, now)
    requires Recordings(one) == Recordings(two)
    ensures StateAt(Run(p, one), p, now) == StateAt(Run(p, two), p, now)
    ensures Admits(Run(p, one), p, now) <==> Admits(Run(p, two), p, now)
    ensures Answers(p, one) == Answers(p, two)
  {
    RunsAlike(p, one, now);
    RunsAlike(p, two, now);
  }

  /** The last recorded result, if there is one. */
  function Last(ops: seq<Op>): (r: Option<Op>)
    ensures r.Some? ==> r.value.Result?
  {
    if ops == [] then None
    else if ops[|ops| - 1].Result? then Some(ops[|ops| - 1])
    else Last(ops[..|ops| - 1])
  }

  ghost predicate FailedLast(ops: seq<Op>) {
    Last(ops).Some? && !Last(ops).value.ok
  }

  /** How the stored state and its opening time follow from the last result. */
  ghost predicate Dated(b: Data, ops: seq<Op>, p: Policy, now: int) {
    && (!b.state.Closed? && FailedLast(ops) ==> b.openedAt == Last(ops).value.at)
    && (b.state.Open? ==> FailedLast(ops))
    && (b.state.HalfOpen? && FailedLast(ops) ==> Cooled(b, p, now))
  }

  lemma {:induction false} RunDated(p: Policy, ops: seq<Op>, now: int)
    requires Ordered(ops, now)
    ensures Dated(Run(p, ops), ops, p, now)
    decreases |ops|
  {
    if ops != [] {
      RunDated(p, ops[..|ops| - 1], ops[|ops| - 1].at);
    }
  }

  /** Whatever trips it: requests are refused exactly while the breaker is not
      closed, its last result was a failure, and the cooldown since that failure
      is not over. */
  lemma OpenWhen(p: Policy, ops: seq<Op>, now: int)
    requires Ordered(ops, now)
    ensures StateAt(Run(p, ops), p, now).Open? <==>
      && !Run(p, ops).state.Closed?
      && FailedLast(ops)
      && now < Last(ops).value.at + p.cooldown
  {
    RunDated(p, ops, now);
  }

  /** With consecutive failures that is said by the results and times alone. */
  lemma OpenExactlyWhen(p: Policy, ops: seq<Op>, now: int)
    requires p.trip.Consecutive?
    requires Ordered(ops, now)
    ensures StateAt(Run(p, ops), p, now).Open? <==>
      && Broken(Results(ops), AtLeast1(p.trip.n), AtLeast1(p.probes))
      && FailedLast(ops)
      && now < Last(ops).value.at + p.cooldown
  {
    TrippedExactlyWhen(p, ops);
    OpenWhen(p, ops, now);
  }

  // ------------------------------------------------------- many breakers

  /** What happened to one key of a table. */
  function Of<K(==)>(log: seq<(K, Op)>, key: K): seq<Op> {
    if log == [] then []
    else
      var rest, last := Of(log[..|log| - 1], key), log[|log| - 1];
      if last.0 == key then rest + [last.1] else rest
  }

  class Breakers<K(==, !new)> {
    const policy: Policy
    var table: map<K, Data>
    ghost var log: seq<(K, Op)>

    /** Each key stands where its own history alone puts it. */
    ghost predicate Valid()
      reads this
    {
      forall k :: Entry(k) == Run(policy, Of(log, k))
    }

    function Entry(key: K): Data
      reads this
    {
      if key in table then table[key] else DEFAULT
    }

    constructor (policy: Policy)
      ensures Valid() && log == [] && this.policy == policy
    {
      this.policy := policy;
      table := map[];
      log := [];
    }

    ghost method Note(key: K, o: Op)
      requires forall k ::
        Entry(k) == if k == key then Step(Run(policy, Of(log, k)), policy, o) else Run(policy, Of(log, k))
      modifies this`log
      ensures Valid() && log == old(log) + [(key, o)]
    {
      var before := log;
      log := log + [(key, o)];
      assert log[..|log| - 1] == before;
      assert (Of(before, key) + [o])[..|Of(before, key)|] == Of(before, key);
    }

    method Admit(key: K, now: int) returns (admitted: bool, change: Option<State>)
      requires Valid()
      modifies this
      ensures Valid() && log == old(log) + [(key, Op.Admit(now))]
      ensures admitted == Admits(Run(policy, Of(old(log), key)), policy, now)
      ensures change == Changed(Run(policy, Of(old(log), key)).state, Run(policy, Of(log, key)).state)
    {
      var b := new Cell(Entry(key));
      admitted, change := b.Admit(policy, now);
      table := table[key := b.View()];
      Note(key, Op.Admit(now));
    }

    method Record(key: K, ok: bool, now: int) returns (change: Option<State>)
      requires Valid()
      modifies this
      ensures Valid() && log == old(log) + [(key, Result(ok, Tally(0, 0), now))]
      ensures change == Answer(Run(policy, Of(old(log), key)), ok, Tally(0, 0), policy, now)
    {
      var b := new Cell(Entry(key));
      change := b.Record(ok, Tally(0, 0), policy, now);
      table := table[key := b.View()];
      Note(key, Result(ok, Tally(0, 0), now));
    }

    method StateOf(key: K, now: int) returns (s: State)
      requires Valid()
      ensures s == StateAt(Run(policy, Of(log, key)), policy, now)
    {
      s := if key in table then StateAt(table[key], policy, now) else Closed;
      assert Entry(key) == Run(policy, Of(log, key));
    }

    method Lets(key: K, now: int) returns (admitted: bool)
      requires Valid()
      ensures admitted == Admits(Run(policy, Of(log, key)), policy, now)
    {
      var s := StateOf(key, now);
      return !s.Open?;
    }
  }

  /** What one key's breaker did does not depend on what happened to others. */
  lemma KeysAreApart<K>(log: seq<(K, Op)>, key: K, other: K, o: Op)
    requires key != other
    ensures Of(log + [(other, o)], key) == Of(log, key)
    ensures Of(log + [(key, o)], key) == Of(log, key) + [o]
  {
    assert (log + [(other, o)])[..|log|] == log;
    assert (log + [(key, o)])[..|log|] == log;
  }
}
