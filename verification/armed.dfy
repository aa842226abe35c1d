/** Waiting for a successor: the arm clock, the `armed` loop over any number of
    attempts, and the drain that follows a commit. */
module ArmedLoop {
  import opened Options
  import opened Seqs
  import opened Protocol
  import opened OldCore
  import opened Lockfile

  // ------------------------------------------------------------- the arm clock

  datatype Expiry = Relaunch | GiveUp

  datatype Clock = Clock(deadline: nat, wait: nat, canRelaunch: bool, relaunched: bool)

  function Wound(now: nat, wait: nat, canRelaunch: bool): Clock {
    Clock(now + wait, wait, canRelaunch, false)
  }

  class ArmClock {
    var deadline: nat
    var wait: nat
    var canRelaunch: bool
    var relaunched: bool

    function View(): Clock
      reads this
    {
      Clock(deadline, wait, canRelaunch, relaunched)
    }

    constructor (now: nat, wait: nat, canRelaunch: bool)
      ensures View() == Wound(now, wait, canRelaunch)
    {
      deadline, this.wait, this.canRelaunch, relaunched := now + wait, wait, canRelaunch, false;
    }

    method Expired(now: nat) returns (e: Expiry)
      modifies this`deadline, this`relaunched
      ensures e.Relaunch? <==> canRelaunch && !old(relaunched)
      ensures View() == if e.Relaunch? then old(View()).(deadline := now + wait, relaunched := true) else old(View())
    {
      if canRelaunch && !relaunched {
        relaunched := true;
        deadline := now + wait;
        e := Relaunch;
      } else {
        e := GiveUp;
      }
    }

    method Restart(now: nat)
      modifies this`deadline
      ensures View() == old(View()).(deadline := now + wait)
    {
      deadline := now + wait;
    }
  }

  // ------------------------------------------------------------- the armed loop

  /** What can wake a core that waits.  A peer brings the script of its link. */
  datatype Wake =
    | Peer(at: nat, script: seq<Timed>, exports: Exports)
    | EndpointFailed
    | DeadlinePassed(at: nat, parentAlive: bool)
    | Rearmed(at: nat, wait: nat, relaunch: bool)

  datatype Ending = HandedOver | Retired | CalledOff

  /** Where the loop stands.  `relaunches` and `rearms` count what happened. */
  datatype Standing = Standing(
    core: Old, nextId: nat, clock: Clock, relaunches: nat, rearms: nat, ended: Option<Ending>)

  /** Where the attempt of a peer starts, and what comes of it. */
  function StartOf(s: Standing, w: Wake): Spot
    requires w.Peer?
  {
    Spot(OldNext(s.core, Accepted, w.at), s.nextId, w.script, w.at)
  }

  function AttemptOf(s: Standing, w: Wake): Played
    requires w.Peer?
  {
    Drive(StartOf(s, w), w.exports)
  }

  function Woken(s: Standing, w: Wake): Standing {
    if s.ended.Some? then s
    else
      match w
      case Peer(at, script, exports) =>
        var end := AttemptOf(s, w).end;
        var t := s.(core := end.core, nextId := end.nextId);
        if end.core.phase.Acked? then t.(ended := Some(HandedOver))
        else if end.core.phase.Retiring? then t.(ended := Some(Retired))
        else if NoGreeting(script, at) then t
        else t.(clock := s.clock.(deadline := end.now + s.clock.wait))
      case EndpointFailed => s
      case DeadlinePassed(at, parentAlive) =>
        if at < s.clock.deadline then s
        else if parentAlive then s.(ended := Some(CalledOff))
        else if s.clock.canRelaunch && !s.clock.relaunched then
          s.(clock := s.clock.(deadline := at + s.clock.wait, relaunched := true), relaunches := s.relaunches + 1)
        else s.(ended := Some(Retired))
      case Rearmed(at, wait, relaunch) =>
        s.(clock := Wound(at, wait, relaunch), rearms := s.rearms + 1)
  }

  /** Where the loop stands after these wakes. */
  function Stand(s: Standing, wakes: seq<Wake>): Standing
    decreases |wakes|
  {
    if wakes == [] then s else Stand(Woken(s, wakes[0]), wakes[1..])
  }

  lemma {:induction false} EndedStays(s: Standing, wakes: seq<Wake>)
    requires s.ended.Some?
    ensures Stand(s, wakes) == s
    decreases |wakes|
  {
    if wakes != [] {
      EndedStays(s, wakes[1..]);
    }
  }

  /** What the loop keeps: while it goes on the core serves on; it ends handed
      over exactly when acknowledged; and it relaunches once per arming at most. */
  predicate Fine(s: Standing) {
    && OldOk(s.core)
    && (s.ended.None? ==> ServingOn(s.core))
    && (s.ended == Some(HandedOver) <==> s.core.phase.Acked?)
    && (s.ended == Some(CalledOff) ==> ServingOn(s.core))
    && (s.ended == Some(Retired) ==> s.core.accepting && !s.core.held)
    && s.relaunches <= s.rearms + (if s.clock.relaunched then 1 else 0)
  }

  lemma WakeKeeps(s: Standing, w: Wake)
    requires Fine(s)
    ensures Fine(Woken(s, w))
  {
    if w.Peer? && s.ended.None? {
      var start := StartOf(s, w);
      OldStepKeepsOk(s.core, Accepted, w.at);
      DriveKeepsOk(start, w.exports);
      AttemptEnds(start, w.exports);
    }
  }

  /** Over any run of the loop. */
  lemma {:induction false} StandKeeps(s: Standing, wakes: seq<Wake>)
    requires Fine(s)
    ensures Fine(Stand(s, wakes))
    decreases |wakes|
  {
    if wakes != [] {
      WakeKeeps(s, wakes[0]);
      StandKeeps(Woken(s, wakes[0]), wakes[1..]);
    }
  }

  /** Each wake moves the strikes by one at most, and each ending has its own
      wake: a commit that was received and acknowledged, a request to fall back
      or the last deadline, or the deadline with the parent still there. */
  lemma EndsOnItsWake(s: Standing, w: Wake)
    requires Fine(s) && s.ended.None?
    ensures s.core.strikes <= Woken(s, w).core.strikes <= s.core.strikes + 1
    ensures Woken(s, w).core.strikes > s.core.strikes ==> w.Peer? && Woken(s, w).ended.None?
    ensures Woken(s, w).ended == Some(HandedOver) ==>
              w.Peer? && s.core.strikes < MAX_STRIKES && AttemptOf(s, w).sent == ToSend(1, s.nextId) &&
              HeardInFull(1, Inputs(StartOf(s, w), w.exports))
    ensures Woken(s, w).ended == Some(CalledOff) <==>
              w.DeadlinePassed? && w.parentAlive && s.clock.deadline <= w.at
    ensures Woken(s, w).ended == Some(Retired) && !w.Peer? <==>
              w.DeadlinePassed? && !w.parentAlive && s.clock.deadline <= w.at &&
              !(s.clock.canRelaunch && !s.clock.relaunched)
  {
    if w.Peer? {
      var start := StartOf(s, w);
      AttemptEnds(start, w.exports);
      if Woken(s, w).ended == Some(HandedOver) {
        CommittedSends(start, w.exports);
        CommittedHears(start, w.exports);
        if s.core.strikes >= MAX_STRIKES {
          RefusedOnceWornOut(start, w.exports);
        }
      }
    }
  }

  /** After as many late failures as are allowed no peer is handed anything any
      more, whoever comes. */
  lemma {:induction false} WornOutStays(s: Standing, wakes: seq<Wake>)
    requires Fine(s) && s.core.strikes == MAX_STRIKES && s.ended != Some(HandedOver)
    ensures Stand(s, wakes).core.strikes == MAX_STRIKES && Stand(s, wakes).ended != Some(HandedOver)
    decreases |wakes|
  {
    if s.ended.Some? {
      EndedStays(s, wakes);
    } else if wakes != [] {
      var w := wakes[0];
      WakeKeeps(s, w);
      if w.Peer? {
        RefusedOnceWornOut(StartOf(s, w), w.exports);
      }
      WornOutStays(Woken(s, w), wakes[1..]);
    }
  }

  // ------------------------------------------------------------- how long it waits

  lemma {:induction false} StandConcat(s: Standing, a: seq<Wake>, b: seq<Wake>)
    ensures Stand(s, a + b) == Stand(Stand(s, a), b)
    decreases |a|
  {
    if a == [] {
      assert a + b == b;
    } else {
      assert (a + b)[1..] == a[1..] + b;
      StandConcat(Woken(s, a[0]), a[1..], b);
    }
  }

  lemma StandNext(s: Standing, wakes: seq<Wake>, k: nat)
    requires k < |wakes|
    ensures Stand(s, wakes[..k + 1]) == Woken(Stand(s, wakes[..k]), wakes[k])
  {
    assert wakes[..k + 1] == wakes[..k] + [wakes[k]];
    StandConcat(s, wakes[..k], [wakes[k]]);
    assert [wakes[k]][1..] == [];
  }

  /** A wake after which a full period is waited again, when the loop goes on: an
      attempt that was abandoned, a deadline that has passed, a rearming. */
  predicate Restarts(s: Standing, w: Wake) {
    match w
    case Peer(at, script, _) => !NoGreeting(script, at) && AttemptOf(s, w).end.core.phase.Armed?
    case EndpointFailed => false
    case DeadlinePassed(at, _) => s.clock.deadline <= at
    case Rearmed(_, _, _) => true
  }

  /** When that period begins: the attempt's end, or the wake itself. */
  function Begins(s: Standing, w: Wake): nat
    requires Restarts(s, w)
  {
    match w
    case Peer(_, _, _) => AttemptOf(s, w).end.now
    case DeadlinePassed(at, _) => at
    case Rearmed(at, _, _) => at
  }

  /** The period in force, as last armed. */
  function Period(wait: nat, wakes: seq<Wake>): nat {
    if wakes == [] then wait
    else
      var last := wakes[|wakes| - 1];
      if last.Rearmed? then last.wait else Period(wait, wakes[..|wakes| - 1])
  }

  /** Whether the app may be relaunched, as last armed. */
  function Relaunchable(may: bool, wakes: seq<Wake>): bool {
    if wakes == [] then may
    else
      var last := wakes[|wakes| - 1];
      if last.Rearmed? then last.relaunch else Relaunchable(may, wakes[..|wakes| - 1])
  }

  /** One wake the loop survives. */
  lemma OneWake(s: Standing, w: Wake)
    requires Fine(s) && Woken(s, w).ended.None?
    ensures s.ended.None?
    ensures var c := Woken(s, w).clock;
      && c.wait == (if w.Rearmed? then w.wait else s.clock.wait)
      && c.canRelaunch == (if w.Rearmed? then w.relaunch else s.clock.canRelaunch)
      && c.deadline == if Restarts(s, w) then Begins(s, w) + c.wait else s.clock.deadline
  {
    if w.Peer? {
      AttemptEnds(StartOf(s, w), w.exports);
      if NoGreeting(w.script, w.at) {
        LastStep(StartOf(s, w), w.exports);
      }
    }
  }

  lemma {:induction false} GoesOn(s: Standing, wakes: seq<Wake>, k: nat)
    requires Fine(s) && Stand(s, wakes).ended.None? && k <= |wakes|
    ensures Stand(s, wakes[..k]).ended.None? && Fine(Stand(s, wakes[..k]))
  {
    assert wakes == wakes[..k] + wakes[k..];
    StandConcat(s, wakes[..k], wakes[k..]);
    EndedOr(Stand(s, wakes[..k]), wakes[k..]);
    StandKeeps(s, wakes[..k]);
  }

  /** Nothing restarts the wait from `k` on. */
  ghost predicate Undisturbed(s: Standing, wakes: seq<Wake>, k: nat) {
    forall m :: k <= m < |wakes| ==> !Restarts(Stand(s, wakes[..m]), wakes[m])
  }

  /** What was armed last is in force. */
  lemma {:induction false} InForce(s: Standing, wakes: seq<Wake>, n: nat)
    requires Fine(s) && Stand(s, wakes).ended.None? && n <= |wakes|
    ensures var c := Stand(s, wakes[..n]).clock;
      && c.wait == Period(s.clock.wait, wakes[..n])
      && c.canRelaunch == Relaunchable(s.clock.canRelaunch, wakes[..n])
    decreases n
  {
    if n > 0 {
      InForce(s, wakes, n - 1);
      StandNext(s, wakes, n - 1);
      GoesOn(s, wakes, n);
      GoesOn(s, wakes, n - 1);
      OneWake(Stand(s, wakes[..n - 1]), wakes[n - 1]);
      assert wakes[..n][..n - 1] == wakes[..n - 1];
    }
  }

  lemma {:induction false} Untouched(s: Standing, wakes: seq<Wake>, k: nat, n: nat)
    requires Fine(s) && Stand(s, wakes).ended.None? && k <= n <= |wakes| && Undisturbed(s, wakes, k)
    ensures var c, d := Stand(s, wakes[..n]).clock, Stand(s, wakes[..k]).clock;
      c.deadline == d.deadline && c.wait == d.wait
    decreases n
  {
    if k < n {
      Untouched(s, wakes, k, n - 1);
      StandNext(s, wakes, n - 1);
      GoesOn(s, wakes, n);
      GoesOn(s, wakes, n - 1);
      OneWake(Stand(s, wakes[..n - 1]), wakes[n - 1]);
    }
  }

  /** Over any run: while the loop goes on, the deadline is exactly one period, the
      one armed last, after the latest of the rearmings, the relaunches and the ends
      of the abandoned attempts. */
  lemma DueExactly(s: Standing, wakes: seq<Wake>, k: nat)
    requires Fine(s) && Stand(s, wakes).ended.None?
    requires k < |wakes| && Restarts(Stand(s, wakes[..k]), wakes[k]) && Undisturbed(s, wakes, k + 1)
    ensures Stand(s, wakes).clock.deadline ==
      Begins(Stand(s, wakes[..k]), wakes[k]) + Period(s.clock.wait, wakes)
  {
    StandNext(s, wakes, k);
    GoesOn(s, wakes, k);
    GoesOn(s, wakes, k + 1);
    OneWake(Stand(s, wakes[..k]), wakes[k]);
    Untouched(s, wakes, k + 1, |wakes|);
    InForce(s, wakes, |wakes|);
    assert wakes[..|wakes|] == wakes;
  }

  /** ...and with none of these, after the arming. */
  lemma DueAtFirst(s: Standing, wakes: seq<Wake>)
    requires Fine(s) && Stand(s, wakes).ended.None? && Undisturbed(s, wakes, 0)
    ensures Stand(s, wakes).clock.deadline == s.clock.deadline
  {
    Untouched(s, wakes, 0, |wakes|);
    assert wakes[..|wakes|] == wakes && wakes[..0] == [];
  }

  /** So it is called off, and given up, only after a full period with none of
      these, and at the first look after it. */
  lemma EndsAfterAFullWait(s: Standing, wakes: seq<Wake>, k: nat, w: Wake)
    requires Fine(s) && Stand(s, wakes).ended.None? && w.DeadlinePassed?
    requires k < |wakes| && Restarts(Stand(s, wakes[..k]), wakes[k]) && Undisturbed(s, wakes, k + 1)
    ensures var over := Begins(Stand(s, wakes[..k]), wakes[k]) + Period(s.clock.wait, wakes) <= w.at;
      && (Stand(s, wakes + [w]).ended == Some(CalledOff) <==> w.parentAlive && over)
      && (Stand(s, wakes + [w]).ended == Some(Retired) ==> !w.parentAlive && over)
  {
    DueExactly(s, wakes, k);
    StandKeeps(s, wakes);
    StandConcat(s, wakes, [w]);
    assert Stand(Stand(s, wakes), [w]) == Woken(Stand(s, wakes), w) by {
      assert [w][1..] == [];
    }
    EndsOnItsWake(Stand(s, wakes), w);
  }

  /** A relaunch since the last rearming. */
  ghost predicate Spent(s: Standing, wakes: seq<Wake>) {
    exists k :: SpentAt(s, wakes, k)
  }

  ghost predicate SpentAt(s: Standing, wakes: seq<Wake>, k: int) {
    && 0 <= k < |wakes| && wakes[k].DeadlinePassed? && Restarts(Stand(s, wakes[..k]), wakes[k])
    && forall m :: k < m < |wakes| ==> !wakes[m].Rearmed?
  }

  /** The app is relaunched once for each arming at most, and never again before the
      next. */
  lemma {:induction false} SpentExactly(s: Standing, wakes: seq<Wake>)
    requires Fine(s) && Stand(s, wakes).ended.None? && !s.clock.relaunched
    ensures Stand(s, wakes).clock.relaunched <==> Spent(s, wakes)
    decreases |wakes|
  {
    if wakes != [] {
      var n := |wakes| - 1;
      var init := wakes[..n];
      GoesOn(s, wakes, n);
      StandNext(s, wakes, n);
      assert wakes[..n + 1] == wakes;
      SpentExactly(s, init);
      assert forall k :: 0 <= k <= n ==> init[..k] == wakes[..k];
      if wakes[n].DeadlinePassed? && Restarts(Stand(s, init), wakes[n]) {
        assert SpentAt(s, wakes, n);
      } else if !wakes[n].Rearmed? {
        assert forall k :: SpentAt(s, wakes, k) <==> SpentAt(s, init, k);
      } else {
        assert forall k :: !SpentAt(s, wakes, k) by {
          assert wakes[n].Rearmed?;
        }
      }
    }
  }

  /** How many deadlines passed, and how many rearmings came. */
  function Passed(s: Standing, wakes: seq<Wake>): nat {
    if wakes == [] then 0
    else
      var init, w := wakes[..|wakes| - 1], wakes[|wakes| - 1];
      Passed(s, init) + if w.DeadlinePassed? && Restarts(Stand(s, init), w) then 1 else 0
  }

  function Rearmings(wakes: seq<Wake>): nat {
    if wakes == [] then 0 else Rearmings(wakes[..|wakes| - 1]) + if wakes[|wakes| - 1].Rearmed? then 1 else 0
  }

  /** While the loop goes on, every deadline that passed was a relaunch. */
  lemma {:induction false} RelaunchesCounted(s: Standing, wakes: seq<Wake>)
    requires Fine(s) && Stand(s, wakes).ended.None?
    ensures Stand(s, wakes).relaunches == s.relaunches + Passed(s, wakes)
    ensures Stand(s, wakes).rearms == s.rearms + Rearmings(wakes)
    decreases |wakes|
  {
    if wakes != [] {
      var n := |wakes| - 1;
      GoesOn(s, wakes, n);
      StandNext(s, wakes, n);
      assert wakes[..n + 1] == wakes;
      RelaunchesCounted(s, wakes[..n]);
    }
  }

  /** One accepted peer, cleaned up after as `armed` does. */
  method Attempt(core: Core, at: nat, script: seq<Timed>, exports: Exports, strikes: nat)
    returns (g: Given, strikes': nat, now: nat)
    requires ServingOn(core.View(OldPhase.Armed, strikes))
    modifies core
    ensures var p := Drive(Spot(old(core.View(Greeting, strikes)), old(core.nextId), script, at), exports).end;
      && p.core == core.View(p.core.phase, strikes') && p.nextId == core.nextId && p.now == now
      && (g.Committed? <==> p.core.phase.Acked?) && (g.Fallback? <==> p.core.phase.Retiring?)
      && (g.NotASuccessor? <==> NoGreeting(script, at))
      && (g.Abandoned? || g.NotASuccessor? <==> p.core.phase.Armed?)
    ensures strikes' == if g == Abandoned(true) then strikes + 1 else strikes
  {
    var link := new Link(script, at);
    g := core.Give(link, strikes, exports);
    strikes', now := strikes, link.now;
    match g {
      case Committed =>
      case Fallback =>
        core.renewalsHeld := false;
      case Abandoned(strike) =>
        if strike {
          strikes' := strikes + 1;
        }
        core.renewalsHeld := false;
        core.controlPaused := false;
      case NotASuccessor =>
    }
  }

  const FIRST: Old := Old(OldPhase.Armed, 0, false, false, true)

  /** Waits for successors until one has taken over, nobody came, or the desktop
      app turned out not to have restarted: exactly as the wakes say. */
  method Armed(core: Core, wakes: seq<Wake>, t0: nat, wait: nat, relaunch: bool)
    returns (e: Option<Ending>, strikes: nat, relaunches: nat, rearms: nat)
    requires core.View(OldPhase.Armed, 0) == FIRST
    modifies core
    ensures var s := Stand(Standing(FIRST, old(core.nextId), Wound(t0, wait, relaunch), 0, 0, None), wakes);
      && s.ended == e && s.core == core.View(s.core.phase, strikes) && s.nextId == core.nextId
      && s.relaunches == relaunches && s.rearms == rearms
  {
    var clock := new ArmClock(t0, wait, relaunch);
    strikes, relaunches, rearms := 0, 0, 0;
    ghost var s := Standing(FIRST, core.nextId, Wound(t0, wait, relaunch), 0, 0, None);
    ghost var all := Stand(s, wakes);
    var k := 0;
    assert wakes[0..] == wakes;
    while k < |wakes|
      invariant k <= |wakes| && fresh(clock) && Stand(s, wakes[k..]) == all && Fine(s)
      invariant s == Standing(core.View(OldPhase.Armed, strikes), core.nextId, clock.View(), relaunches, rearms, None)
    {
      var w := wakes[k];
      assert wakes[k..][0] == w && wakes[k..][1..] == wakes[k + 1..];
      WakeKeeps(s, w);
      ghost var next := Woken(s, w);
      EndedOr(next, wakes[k + 1..]);
      match w {
        case Peer(at, script, exports) =>
          var g, n, now := Attempt(core, at, script, exports, strikes);
          strikes := n;
          if g.Committed? {
            return Some(HandedOver), strikes, relaunches, rearms;
          } else if g.Fallback? {
            return Some(Retired), strikes, relaunches, rearms;
          } else if g.Abandoned? {
            clock.Restart(now);
          }
        case EndpointFailed =>
        case DeadlinePassed(now, parentAlive) =>
          if clock.deadline <= now {
            if parentAlive {
              return Some(CalledOff), strikes, relaunches, rearms;
            }
            var x := clock.Expired(now);
            if x.GiveUp? {
              return Some(Retired), strikes, relaunches, rearms;
            }
            relaunches := relaunches + 1;
          }
        case Rearmed(now, wait, r) =>
          clock := new ArmClock(now, wait, r);
          rearms := rearms + 1;
      }
      s := next;
      k := k + 1;
    }
    e := None;
  }

  lemma EndedOr(s: Standing, wakes: seq<Wake>)
    ensures s.ended.Some? ==> Stand(s, wakes) == s
  {
    if s.ended.Some? {
      EndedStays(s, wakes);
    }
  }

  // ------------------------------------------------------------- the drain

  const CALM_TICKS: nat := 3

  /** A tick with no request in flight and no connection being served. */
  datatype TickSeen = TickSeen(inFlight: nat, serving: nat)

  predicate Calm(t: TickSeen) {
    t.inFlight == 0 && t.serving == 0
  }

  /** The last `CALM_TICKS` ticks were all calm. */
  predicate Quiet(ticks: seq<TickSeen>) {
    |ticks| >= CALM_TICKS && forall k :: |ticks| - CALM_TICKS <= k < |ticks| ==> Calm(ticks[k])
  }

  datatype Report = Nothing | Now(n: nat)

  class Drained {
    var calm: nat
    var last: Report
    ghost var seen: seq<TickSeen>

    /** `calm` is the length of the run of calm ticks seen last. */
    ghost predicate Valid()
      reads this
    {
      && calm <= |seen|
      && (forall k :: |seen| - calm <= k < |seen| ==> Calm(seen[k]))
      && (calm < |seen| ==> !Calm(seen[|seen| - calm - 1]))
      && last == if seen == [] then Nothing else Now(seen[|seen| - 1].inFlight)
    }

    constructor ()
      ensures Valid() && seen == []
    {
      calm, last, seen := 0, Nothing, [];
    }

    /** Reports a count exactly when it changed, and is done exactly when it has
        been quiet for `CALM_TICKS` ticks in a row. */
    method Tick(inFlight: nat, serving: nat) returns (report: Report, done: bool)
      requires Valid()
      modifies this
      ensures Valid() && seen == old(seen) + [TickSeen(inFlight, serving)]
      ensures done <==> Quiet(seen)
      ensures report == if old(seen) != [] && old(seen[|seen| - 1].inFlight) == inFlight then Nothing else Now(inFlight)
    {
      report := if last != Now(inFlight) then Now(inFlight) else Nothing;
      last := Now(inFlight);
      if inFlight == 0 && serving == 0 {
        calm := calm + 1;
      } else {
        calm := 0;
      }
      seen := seen + [TickSeen(inFlight, serving)];
      done := calm >= CALM_TICKS;
    }
  }

  datatype Happening = Settles(request: nat) | Ticks(t: TickSeen) | LimitPassed

  function TicksOf(hs: seq<Happening>): seq<TickSeen> {
    if hs == [] then []
    else
      var p, h := hs[..|hs| - 1], hs[|hs| - 1];
      if h.Ticks? then TicksOf(p) + [h.t] else TicksOf(p)
  }

  /** The drain is over: its limit has passed, or it has just been quiet. */
  predicate Over(hs: seq<Happening>) {
    hs != [] && (hs[|hs| - 1].LimitPassed? || (hs[|hs| - 1].Ticks? && Quiet(TicksOf(hs))))
  }

  function Count(hs: seq<Happening>): Report {
    var ts := TicksOf(hs);
    if ts == [] then Nothing else Now(ts[|ts| - 1].inFlight)
  }

  /** What is told to the successor meanwhile: every settlement, and the number
      of requests in flight whenever it changed. */
  function Said(hs: seq<Happening>): seq<Message> {
    if hs == [] then []
    else
      var p, h := hs[..|hs| - 1], hs[|hs| - 1];
      match h
      case Settles(r) => Said(p) + [Message.Settled(r)]
      case Ticks(t) => if Count(p) == Now(t.inFlight) then Said(p) else Said(p) + [Message.InFlight(t.inFlight)]
      case LimitPassed => Said(p)
  }

  function Late(late: seq<nat>): seq<Message> {
    if late == [] then [] else Late(late[..|late| - 1]) + [Message.Settled(late[|late| - 1])]
  }

  /** The settlements among `hs`, in order. */
  function Settlements(hs: seq<Happening>): seq<Message> {
    if hs == [] then []
    else
      var p, h := hs[..|hs| - 1], hs[|hs| - 1];
      if h.Settles? then Settlements(p) + [Message.Settled(h.request)] else Settlements(p)
  }

  function OnlySettled(ms: seq<Message>): seq<Message> {
    if ms == [] then []
    else
      var p, m := ms[..|ms| - 1], ms[|ms| - 1];
      if m.Settled? then OnlySettled(p) + [m] else OnlySettled(p)
  }

  lemma Append(ms: seq<Message>, m: Message)
    ensures OnlySettled(ms + [m]) == OnlySettled(ms) + (if m.Settled? then [m] else [])
  {
    assert (ms + [m])[..|ms|] == ms;
  }

  /** Every settlement is among what is said, once and in order. */
  lemma {:induction false} SaidSettles(hs: seq<Happening>)
    ensures OnlySettled(Said(hs)) == Settlements(hs)
    ensures forall m :: m in Said(hs) ==> m != Bye
    decreases |hs|
  {
    if hs != [] {
      var p, h := hs[..|hs| - 1], hs[|hs| - 1];
      SaidSettles(p);
      if h.Settles? {
        Append(Said(p), Message.Settled(h.request));
      } else if h.Ticks? {
        Append(Said(p), Message.InFlight(h.t.inFlight));
      }
    }
  }

  /** The counts among what is said. */
  function CountsIn(ms: seq<Message>): seq<nat> {
    if ms == [] then []
    else
      var p, m := ms[..|ms| - 1], ms[|ms| - 1];
      if m.InFlight? then CountsIn(p) + [m.n] else CountsIn(p)
  }

  /** The counts that differ from the one before, the first one included. */
  function Changes(ts: seq<TickSeen>): seq<nat> {
    if ts == [] then []
    else
      var n := |ts| - 1;
      if n > 0 && ts[n - 1].inFlight == ts[n].inFlight then Changes(ts[..n]) else Changes(ts[..n]) + [ts[n].inFlight]
  }

  /** Every change of the number of requests in flight is said, once and in order. */
  lemma {:induction false} SaidCounts(hs: seq<Happening>)
    ensures CountsIn(Said(hs)) == Changes(TicksOf(hs))
    decreases |hs|
  {
    if hs != [] {
      var p, h := hs[..|hs| - 1], hs[|hs| - 1];
      SaidCounts(p);
      var said := Said(p);
      if h.Settles? {
        assert (said + [Message.Settled(h.request)])[..|said|] == said;
      } else if h.Ticks? {
        var ts := TicksOf(p);
        assert (ts + [h.t])[..|ts|] == ts;
        assert (said + [Message.InFlight(h.t.inFlight)])[..|said|] == said;
      }
    }
  }

  lemma {:induction false} LateSettles(ms: seq<Message>, late: seq<nat>)
    ensures OnlySettled(ms + Late(late)) == OnlySettled(ms) + Late(late)
    decreases |late|
  {
    if late == [] {
      assert ms + Late(late) == ms;
    } else {
      var p, last := Late(late[..|late| - 1]), Message.Settled(late[|late| - 1]);
      LateSettles(ms, late[..|late| - 1]);
      Append(ms + p, last);
      Regroup(ms, p, [last]);
      Regroup(OnlySettled(ms), p, [last]);
    }
  }

  lemma {:induction false} LateIsNoBye(late: seq<nat>)
    ensures Bye !in Late(late)
    decreases |late|
  {
    if late != [] {
      LateIsNoBye(late[..|late| - 1]);
    }
  }

  /** What a drain does towards its successor: it tells it something, or looks
      whether its own history is open. */
  datatype Deed = Tells(m: Message) | Looks(isOpen: bool)

  function Telling(ms: seq<Message>): (ds: seq<Deed>)
    ensures |ds| == |ms| && forall k :: 0 <= k < |ds| ==> ds[k] == Tells(ms[k])
  {
    seq(|ms|, k requires 0 <= k < |ms| => Tells(ms[k]))
  }

  /** It looks until the history is open, or the limit has passed. */
  function Looking(history: seq<bool>): seq<Deed> {
    if history == [] then [] else [Looks(history[0])] + if history[0] then [] else Looking(history[1..])
  }

  function Told(hs: seq<Happening>, late: seq<nat>, history: seq<bool>): seq<Deed> {
    Telling(Said(hs) + Late(late) + [Message.InFlight(0)]) + Looking(history) + [Tells(Bye)]
  }

  function Messages(ds: seq<Deed>): seq<Message> {
    if ds == [] then [] else (if ds[0].Tells? then [ds[0].m] else []) + Messages(ds[1..])
  }

  lemma {:induction false} MessagesConcat(a: seq<Deed>, b: seq<Deed>)
    ensures Messages(a + b) == Messages(a) + Messages(b)
    decreases |a|
  {
    if a == [] {
      assert a + b == b;
    } else {
      assert (a + b)[1..] == a[1..] + b;
      MessagesConcat(a[1..], b);
      Regroup(if a[0].Tells? then [a[0].m] else [], Messages(a[1..]), Messages(b));
    }
  }

  lemma {:induction false} MessagesTelling(ms: seq<Message>)
    ensures Messages(Telling(ms)) == ms
    decreases |ms|
  {
    if ms != [] {
      assert Telling(ms)[1..] == Telling(ms[1..]);
      MessagesTelling(ms[1..]);
      assert [ms[0]] + ms[1..] == ms;
    }
  }

  lemma {:induction false} MessagesLooking(history: seq<bool>)
    ensures Messages(Looking(history)) == []
    decreases |history|
  {
    if history != [] && !history[0] {
      assert Looking(history)[1..] == Looking(history[1..]);
      MessagesLooking(history[1..]);
    }
  }

  lemma MessagesTold(ms: seq<Message>, history: seq<bool>)
    ensures Messages(Telling(ms) + Looking(history) + [Tells(Bye)]) == ms + [Bye]
  {
    MessagesConcat(Telling(ms) + Looking(history), [Tells(Bye)]);
    MessagesConcat(Telling(ms), Looking(history));
    MessagesTelling(ms);
    MessagesLooking(history);
    assert Messages([Tells(Bye)][1..]) == [];
    assert Messages([Tells(Bye)]) == [Bye];
  }

  /** The settlements of the drain and the late ones, once and in order. */
  lemma ToldSettles(hs: seq<Happening>, late: seq<nat>, history: seq<bool>)
    ensures OnlySettled(Messages(Told(hs, late, history))) == Settlements(hs) + Late(late)
  {
    var some := Said(hs) + Late(late);
    MessagesTold(some + [Message.InFlight(0)], history);
    SaidSettles(hs);
    LateSettles(Said(hs), late);
    Append(some, Message.InFlight(0));
    Append(some + [Message.InFlight(0)], Bye);
  }

  /** Looks alone, the last of which found the history open unless all were in
      vain. */
  lemma {:induction false} LooksUntilOpen(history: seq<bool>)
    ensures var ls := Looking(history);
      && (forall k :: 0 <= k < |ls| ==> ls[k].Looks? && (ls[k].isOpen ==> k == |ls| - 1))
      && (true in history ==> |ls| > 0 && ls[|ls| - 1] == Looks(true))
      && (true !in history ==> |ls| == |history|)
    decreases |history|
  {
    if history != [] && !history[0] {
      LooksUntilOpen(history[1..]);
      assert true in history ==> true in history[1..];
    }
  }

  /** A count of zero, then the wait for the history, then `Bye`, which comes
      nowhere else. */
  lemma ToldEndsInBye(hs: seq<Happening>, late: seq<nat>, history: seq<bool>)
    ensures var all, wait := Told(hs, late, history), |Looking(history)|;
      && |all| >= wait + 2 && all[|all| - 2 - wait] == Tells(Message.InFlight(0))
      && (forall k :: |all| - 1 - wait <= k < |all| - 1 ==> all[k].Looks?)
      && (if true in history then all[|all| - 2] == Looks(true) else wait == |history|)
      && forall k :: 0 <= k < |all| ==> (all[k] == Tells(Bye) <==> k == |all| - 1)
  {
    SaidSettles(hs);
    LateIsNoBye(late);
    LooksUntilOpen(history);
    assert Bye !in Said(hs) + Late(late) + [Message.InFlight(0)];
  }

  lemma TellOn(a: seq<Message>, b: seq<Message>)
    ensures Telling(a + b) == Telling(a) + Telling(b)
  {
  }

  /** The loop of the drain: until it has been quiet, or the limit passes. */
  method Finish(hs: seq<Happening>) returns (deeds: seq<Deed>, used: nat, quiet: bool)
    ensures used <= |hs| && (used < |hs| ==> Over(hs[..used])) && forall k :: 0 <= k < used ==> !Over(hs[..k])
    ensures quiet <==> used > 0 && hs[used - 1].Ticks? && Quiet(TicksOf(hs[..used]))
    ensures deeds == Telling(Said(hs[..used]))
  {
    deeds, used, quiet := [], 0, false;
    var drained := new Drained();
    var done := false;
    while used < |hs| && !done
      invariant used <= |hs| && drained.Valid() && fresh(drained) && drained.seen == TicksOf(hs[..used])
      invariant drained.last == Count(hs[..used]) && deeds == Telling(Said(hs[..used]))
      invariant done <==> Over(hs[..used])
      invariant quiet <==> used > 0 && hs[used - 1].Ticks? && Quiet(TicksOf(hs[..used]))
      invariant forall k :: 0 <= k < used ==> !Over(hs[..k])
    {
      assert hs[..used + 1][..used] == hs[..used];
      match hs[used] {
        case Settles(r) =>
          TellOn(Said(hs[..used]), [Message.Settled(r)]);
          deeds := deeds + [Tells(Message.Settled(r))];
          quiet := false;
        case Ticks(t) =>
          var report, d := drained.Tick(t.inFlight, t.serving);
          if report.Now? {
            TellOn(Said(hs[..used]), [Message.InFlight(report.n)]);
            deeds := deeds + [Tells(Message.InFlight(report.n))];
          }
          done, quiet := d, d;
        case LimitPassed =>
          done, quiet := true, false;
      }
      used := used + 1;
    }
  }

  /** The wait for the core's own history. */
  method AwaitHistory(history: seq<bool>) returns (deeds: seq<Deed>)
    ensures deeds == Looking(history)
  {
    deeds := [];
    var k, isOpen := 0, false;
    assert history[0..] == history;
    while k < |history| && !isOpen
      invariant k <= |history|
      invariant deeds + (if isOpen then [] else Looking(history[k..])) == Looking(history)
    {
      assert history[k..][1..] == history[k + 1..];
      isOpen := history[k];
      deeds := deeds + [Looks(isOpen)];
      k := k + 1;
    }
  }

  /** The end of it: what is still queued, a count of zero, that wait, and `Bye`. */
  method Leave(late: seq<nat>, history: seq<bool>) returns (deeds: seq<Deed>)
    ensures deeds == Telling(Late(late) + [Message.InFlight(0)]) + Looking(history) + [Tells(Bye)]
  {
    deeds := [];
    for j := 0 to |late|
      invariant deeds == Telling(Late(late[..j]))
    {
      assert late[..j + 1][..j] == late[..j];
      TellOn(Late(late[..j]), [Message.Settled(late[j])]);
      deeds := deeds + [Tells(Message.Settled(late[j]))];
    }
    assert late[..|late|] == late;
    TellOn(Late(late), [Message.InFlight(0)]);
    deeds := deeds + [Tells(Message.InFlight(0))];
    var waited := AwaitHistory(history);
    deeds := deeds + waited;
    deeds := deeds + [Tells(Bye)];
  }

  lemma ToldInTwo(hs: seq<Happening>, late: seq<nat>, history: seq<bool>)
    ensures Told(hs, late, history) ==
      Telling(Said(hs)) + (Telling(Late(late) + [Message.InFlight(0)]) + Looking(history) + [Tells(Bye)])
  {
    Regroup(Said(hs), Late(late), [Message.InFlight(0)]);
    TellOn(Said(hs), Late(late) + [Message.InFlight(0)]);
  }

  /** After the commit: stop accepting, disown the lock, then finish what is in
      hand.  `hs` is what happens in the order it does; when it runs out, the
      drain's limit passes.  `late`: settlements still queued at the end.
      `history`: what each look finds that is taken at the core's own history
      before it leaves; when they run out, that limit passes.  A successor that is
      gone does not stop the drain. */
  method Drain(core: Core, lock: LockFile?, hs: seq<Happening>, late: seq<nat>, history: seq<bool>)
    returns (deeds: seq<Deed>, used: nat, quiet: bool)
    modifies core, lock
    ensures !core.accepting && core.renewalsHeld == old(core.renewalsHeld)
    ensures lock != null ==> !lock.owned
    ensures used <= |hs| && (used < |hs| ==> Over(hs[..used])) && forall k :: 0 <= k < used ==> !Over(hs[..k])
    ensures quiet <==> used > 0 && hs[used - 1].Ticks? && Quiet(TicksOf(hs[..used]))
    ensures deeds == Told(hs[..used], late, history)
  {
    core.accepting := false;
    if lock != null {
      lock.Disown();
    }
    deeds, used, quiet := Finish(hs);
    var last := Leave(late, history);
    ToldInTwo(hs[..used], late, history);
    deeds := deeds + last;
  }
}
