/** One old core and any number of takeover attempts, with an explicit clock.

    Every accepted link brings a new candidate, the latest one last; candidates
    of abandoned attempts linger until they leave.  The link is a pair of FIFO
    queues of stamped messages.  Any process may crash at any step. */
module Takeover {
  import opened Protocol
  import opened Runs

  datatype Stamped = Stamped(m: Message, at: nat)

  datatype Cand = Cand(n: New, toOld: seq<Stamped>, toNew: seq<Stamped>)

  /** `since`: when the work of the old core's current phase fell due. */
  datatype World = World(now: nat, core: Old, alive: bool, since: nat, cands: seq<Cand>)

  /** The surroundings: `delay` bounds delivery plus local work, `racing` lets an
      unrelated process start while a successor holds the dead core's listeners. */
  datatype Env = Env(delay: nat, racing: bool)

  /** When the protocol is safe, as a caller can check it (see `SafeExactlyWhen`). */
  predicate Kind(e: Env) {
    e.delay < 5_000 && !e.racing
  }

  datatype Action =
    | Tick(dt: nat)
    | CrashOld
    | CrashNew(i: nat)       // a crash, or being told to stop
    | Connect(version: nat)
    | OldReceives
    | OldBroken
    | OldTimesOut
    | OldSend(ok: bool, nextId: nat)
    | OldProceeds
    | OldGivesUp
    | NewReceive(i: nat)
    | NewBroken(i: nat)
    | NewTimesOut(i: nat)
    | NewSend(i: nat)
    | NewLeaves(i: nat)
    | NewSeesGone(i: nat)
    | NewStartsFresh(i: nat)
    | Start                  // an unrelated process finds the lock stale

  // ------------------------------------------------------------- the model

  function Init(): World {
    World(0, Old(Armed, 0, false, false, true), true, 0, [])
  }

  function Newcomer(version: nat, now: nat): Cand {
    Cand(New(AwaitControl(now), true, false, 0), [Stamped(Hello(version), now)], [])
  }

  function Last(w: World): Cand
    requires w.cands != []
  {
    w.cands[|w.cands| - 1]
  }

  predicate Attempting(w: World) {
    w.alive && HoldsLink(w.core.phase) && w.cands != []
  }

  predicate LinkUp(w: World, i: nat) {
    Attempting(w) && i == |w.cands| - 1
  }

  predicate Live(w: World, i: nat) {
    i < |w.cands| && !w.cands[i].n.phase.Gone?
  }

  /** How long the work of a giving phase may take once it is due. */
  predicate WorkOnTime(d: Env, p: OldPhase, since: nat, now: nat) {
    match p
    case GiveSecond => now <= since + SETTLE_WITHIN + d.delay
    case GiveListeners => now <= since + d.delay
    case GiveAck => now <= since + d.delay
    case _ => true
  }

  predicate Timely(d: Env, q: seq<Stamped>, now: nat) {
    forall k :: 0 <= k < |q| ==> q[k].at <= now <= q[k].at + d.delay
  }

  /** Nothing on a link between two live ends is overdue. */
  predicate LinkOnTime(d: Env, o: OldPhase, since: nat, now: nat, c: Cand) {
    && (NewReceives(c.n.phase) ==> Timely(d, c.toNew, now))
    && (Protocol.OldReceives(o) ==> Timely(d, c.toOld, now))
    && WorkOnTime(d, o, since, now)
    && (c.n.phase.Serving? ==> now <= c.n.phase.since + COMMIT_WITHIN)
  }

  predicate OnTime(d: Env, w: World) {
    Attempting(w) && !Last(w).n.phase.Gone? ==> LinkOnTime(d, w.core.phase, w.since, w.now, Last(w))
  }

  /** May still become the primary without starting afresh. */
  predicate Threat(c: Cand) {
    || c.n.phase.Serving? || c.n.phase.Committing? || c.n.phase.WaitGone?
    || ((c.n.phase.AwaitSecond? || c.n.phase.AwaitListeners?)
        && exists k :: 0 <= k < |c.toNew| && c.toNew[k].m == Listeners)
  }

  predicate Claims(c: Cand) {
    Threat(c) || c.n.phase.Primary?
  }

  predicate ClaimsAt(w: World, i: int) {
    0 <= i < |w.cands| && Claims(w.cands[i])
  }

  /** The wait the old core is in is over. */
  predicate OldExpired(p: OldPhase, since: nat, now: nat) {
    match p
    case Greeting => since + HELLO_WITHIN <= now
    case AwaitFallback => since + HELLO_WITHIN <= now
    case AwaitCommit(sent) => sent + TAKEOVER_LIMIT <= now
    case _ => false
  }

  predicate Enabled(d: Env, w: World, a: Action) {
    match a
    case Tick(dt) => OnTime(d, w.(now := w.now + dt))
    case CrashOld => w.alive
    case CrashNew(i) => Live(w, i)
    case Connect(_) => w.alive && w.core.phase.Armed?
    case OldReceives => Attempting(w) && Protocol.OldReceives(w.core.phase) && Last(w).toOld != []
    case OldBroken => Attempting(w) && Protocol.OldReceives(w.core.phase) && Last(w).n.phase.Gone?
    case OldTimesOut => Attempting(w) && OldExpired(w.core.phase, w.since, w.now)
    case OldSend(ok, _) =>
      && Attempting(w) && Gives(w.core.phase)
      && (ok ==> !Last(w).n.phase.Gone?)
      && (!ok && w.core.phase.GiveAck? ==> Last(w).n.phase.Gone?)
    case OldProceeds => Attempting(w) && w.core.phase.Acked?
    case OldGivesUp => w.alive && w.core.phase.Armed?
    case NewReceive(i) => Live(w, i) && NewReceives(w.cands[i].n.phase) && w.cands[i].toNew != []
    case NewBroken(i) => Live(w, i) && NewReceives(w.cands[i].n.phase) && !LinkUp(w, i)
    case NewTimesOut(i) =>
      Live(w, i) && NewExpired(w.cands[i].n.phase, w.now) && (w.cands[i].n.phase.WaitGone? ==> w.alive)
    case NewSend(i) => Live(w, i) && (w.cands[i].n.phase.Preparing? || w.cands[i].n.phase.Serving?)
    case NewLeaves(i) => Live(w, i) && (w.cands[i].n.phase.Preparing? || w.cands[i].n.phase.Fresh?)
    case NewSeesGone(i) => Live(w, i) && (w.cands[i].n.phase.Waiting? || w.cands[i].n.phase.WaitGone?) && !w.alive
    // `LockFile::acquire` finds no live holder
    case NewStartsFresh(i) =>
      && Live(w, i) && w.cands[i].n.phase.Fresh? && !w.alive
      && forall j :: 0 <= j < |w.cands| ==> !w.cands[j].n.phase.Primary? && (!d.racing ==> !Claims(w.cands[j]))
    case Start => !w.alive
  }

  function Put(w: World, i: nat, c: Cand): World
    requires i < |w.cands|
  {
    w.(cands := w.cands[i := c])
  }

  function OldMoves(w: World, o: Old, since: nat): World {
    w.(core := o, since := since)
  }

  function Answer(c: Cand, up: bool, now: nat): seq<Stamped>
    requires c.toNew != []
  {
    if up && AsksFallback(c.n.phase, c.toNew[0].m) then [Stamped(Fallback, now)] else []
  }

  function Outbox(w: World, i: nat): seq<Stamped>
    requires i < |w.cands|
  {
    if !LinkUp(w, i) then []
    else if w.cands[i].n.phase.Preparing? then [Stamped(WantListeners, w.now)]
    else [Stamped(Commit, w.now)]
  }

  function Apply(d: Env, w: World, a: Action): World
    requires Enabled(d, w, a)
  {
    match a
    case Tick(dt) => w.(now := w.now + dt)
    case CrashOld => w.(alive := false)
    case CrashNew(i) => Put(w, i, w.cands[i].(n := w.cands[i].n.(phase := Gone(Crashed))))
    case Connect(v) =>
      OldMoves(w, OldNext(w.core, Accepted, w.now), w.now).(cands := w.cands + [Newcomer(v, w.now)])
    case OldReceives =>
      var c := Last(w);
      var w' := OldMoves(w, OldNext(w.core, Got(c.toOld[0].m), w.now), c.toOld[0].at);
      Put(w', |w.cands| - 1, c.(toOld := c.toOld[1..]))
    case OldBroken => OldMoves(w, OldNext(w.core, Broken, w.now), w.now)
    case OldTimesOut => OldMoves(w, OldNext(w.core, TimedOut, w.now), w.now)
    case OldSend(ok, k) =>
      var c := Last(w);
      var w' := OldMoves(w, OldNext(w.core, Sent(ok), w.now), w.now);
      if ok then Put(w', |w.cands| - 1, c.(toNew := c.toNew + [Stamped(OldSends(w.core.phase, k), w.now)])) else w'
    case OldProceeds => OldMoves(w, OldNext(w.core, Proceed, w.now), w.now)
    case OldGivesUp => OldMoves(w, Retire(w.core), w.now)
    case NewReceive(i) =>
      var c := w.cands[i];
      Put(w, i, Cand(NewNext(c.n, Got(c.toNew[0].m), w.now), c.toOld + Answer(c, LinkUp(w, i), w.now), c.toNew[1..]))
    case NewBroken(i) => Put(w, i, w.cands[i].(n := NewNext(w.cands[i].n, Broken, w.now)))
    case NewTimesOut(i) => Put(w, i, w.cands[i].(n := NewNext(w.cands[i].n, TimedOut, w.now)))
    case NewSend(i) =>
      var c := w.cands[i];
      Put(w, i, c.(n := NewNext(c.n, Sent(LinkUp(w, i)), w.now), toOld := c.toOld + Outbox(w, i)))
    case NewLeaves(i) => Put(w, i, w.cands[i].(n := w.cands[i].n.(phase := Gone(Left))))
    case NewSeesGone(i) => Put(w, i, w.cands[i].(n := NewNext(w.cands[i].n, HolderGone, w.now)))
    case NewStartsFresh(i) => Put(w, i, w.cands[i].(n := NewNext(w.cands[i].n, Proceed, w.now)))
    case Start => w.(cands := w.cands + [Cand(New(NewPhase.Fresh, true, false, 0), [], [])])
  }

  // ------------------------------------------------------------- the invariant

  /** What is on the link for every pair of phases its two live ends can be in. */
  predicate InSync(d: Env, o: OldPhase, since: nat, c: Cand) {
    var p, toOld, toNew := c.n.phase, c.toOld, c.toNew;
    match o
    case Greeting => p.AwaitControl? && |toOld| == 1 && toOld[0].m.Hello? && toNew == []
    case GiveRefusal => (p.AwaitControl? || p.Waiting?) && toOld == [] && toNew == []
    case AwaitFallback =>
      || (p.AwaitControl? && toOld == [] && (toNew == [] || (|toNew| == 1 && toNew[0].m == Refused)))
      || (p.Waiting? && |toOld| <= 1 && (forall k :: 0 <= k < |toOld| ==> toOld[k].m == Fallback))
    case GiveControl => p.AwaitControl? && toOld == [] && toNew == []
    case GiveFirst =>
      && toOld == []
      && (|| (p.AwaitControl? && |toNew| == 1 && toNew[0].m == Control)
          || (p.AwaitFirst? && toNew == [])
          || p.Waiting?)
    case AwaitWant(_) =>
      || (p.AwaitControl? && toOld == [] && |toNew| == 2 && toNew[0].m == Control && toNew[1].m.Snapshot?)
      || (p.AwaitFirst? && toOld == [] && |toNew| == 1 && toNew[0].m.Snapshot?)
      || (p.Waiting? && toOld == [])
      || (p.Preparing? && toOld == [] && toNew == [])
      || (p.AwaitSecond? && toOld == [Stamped(WantListeners, p.since)] && toNew == [])
    case GiveSecond => p.AwaitSecond? && toOld == [] && toNew == [] && since == p.since
    case GiveListeners =>
      && toOld == []
      && (|| (p.AwaitSecond? && |toNew| == 1 && toNew[0].m.Snapshot? && toNew[0].at == since
              && since <= p.since + SETTLE_WITHIN + d.delay)
          || (p.AwaitListeners? && toNew == [] && since <= p.since))
    case AwaitCommit(sent) =>
      || (p.AwaitSecond? && toOld == [] && |toNew| == 2 && toNew[0].m.Snapshot? && toNew[1] == Stamped(Listeners, sent)
          && toNew[0].at <= p.since + SETTLE_WITHIN + d.delay && sent <= toNew[0].at + d.delay)
      || (p.AwaitListeners? && toOld == [] && toNew == [Stamped(Listeners, sent)] && sent <= p.since + d.delay)
      || (p.Serving? && toOld == [] && toNew == [] && p.since <= sent + d.delay)
      || (p.Committing? && toOld == [Stamped(Commit, p.since)] && toNew == []
          && p.since <= sent + d.delay + COMMIT_WITHIN)
    case GiveAck => p.Committing? && toOld == [] && toNew == [] && since == p.since
    case Acked => Acknowledged(d, c)
    case Draining => Acknowledged(d, c)
    case Armed => true
    case Retiring => true
  }

  predicate Acknowledged(d: Env, c: Cand) {
    && c.toOld == []
    && (|| (c.n.phase.Committing? && |c.toNew| == 1 && c.toNew[0].m == CommitAck
            && c.toNew[0].at <= c.n.phase.since + d.delay)
        || (c.n.phase.Primary? && c.toNew == []))
  }

  predicate Late(p: OldPhase) {
    p.AwaitCommit? || p.GiveAck? || p.Acked? || p.Draining?
  }

  predicate Final(p: OldPhase) {
    p.Acked? || p.Draining?
  }

  /** A candidate seen from the old core: `o` is the old core's phase when it
      holds this candidate's link, and `Armed` otherwise. */
  predicate CandOk(c: Cand, alive: bool, o: OldPhase) {
    && NewOk(c.n)
    && (Claims(c) && alive ==> Late(o) && (c.n.phase.Primary? ==> Final(o)))
    && (c.n.phase.WaitGone? || c.n.phase.Fresh? ==> !alive)
    && c.n.phase != Gone(NotAcked)
  }

  /** The current link.  A candidate that is gone other than by a crash or by
      not serving in time never asked for the listeners; one that was
      acknowledged can only be gone by a crash. */
  predicate LinkOk(d: Env, o: OldPhase, since: nat, now: nat, c: Cand) {
    if c.n.phase.Gone? then
      && (c.n.phase.why != Crashed && c.n.phase.why != NotServed ==>
            !RenewalsHeld(o) && forall k :: 0 <= k < |c.toOld| ==> c.toOld[k].m != WantListeners)
      && (Final(o) ==> c.n.phase.why == Crashed)
    else
      InSync(d, o, since, c) && LinkOnTime(d, o, since, now, c)
  }

  function Seen(w: World, i: int): OldPhase {
    if i == |w.cands| - 1 && w.alive && HoldsLink(w.core.phase) then w.core.phase else Armed
  }

  ghost predicate Inv(d: Env, w: World) {
    && OldOk(w.core)
    && (HoldsLink(w.core.phase) ==> w.cands != [])
    && (forall i :: 0 <= i < |w.cands| ==> CandOk(w.cands[i], w.alive, Seen(w, i)))
    && (forall i, j :: ClaimsAt(w, i) && ClaimsAt(w, j) ==> i == j)
    && (Attempting(w) ==> LinkOk(d, w.core.phase, w.since, w.now, Last(w)))
  }

  // ------------------------------------------------------------- its preservation

  lemma PutKeeps(d: Env, w: World, i: nat, c: Cand)
    requires Inv(d, w) && i < |w.cands|
    requires CandOk(c, w.alive, Seen(w, i))
    requires Claims(c) ==> Claims(w.cands[i]) || forall j :: !ClaimsAt(w, j)
    requires LinkUp(w, i) ==> LinkOk(d, w.core.phase, w.since, w.now, c)
    ensures Inv(d, Put(w, i, c))
  {
    var w' := Put(w, i, c);
    forall j | 0 <= j < |w'.cands| ensures CandOk(w'.cands[j], w'.alive, Seen(w', j)) {
      assert j != i ==> w'.cands[j] == w.cands[j];
      assert Seen(w', j) == Seen(w, j);
    }
    assert forall j :: ClaimsAt(w', j) && j != i ==> ClaimsAt(w, j);
    assert ClaimsAt(w', i) ==> ClaimsAt(w, i) || forall j :: !ClaimsAt(w, j);
  }

  lemma MoveKeeps(d: Env, w: World, o: Old, since: nat, c: Cand)
    requires Inv(d, w) && Attempting(w) && OldOk(o)
    requires CandOk(c, true, if HoldsLink(o.phase) then o.phase else Armed)
    requires HoldsLink(o.phase) ==> LinkOk(d, o.phase, since, w.now, c)
    ensures Inv(d, Put(OldMoves(w, o, since), |w.cands| - 1, c))
  {
    var w' := Put(OldMoves(w, o, since), |w.cands| - 1, c);
    forall j | 0 <= j < |w'.cands| ensures CandOk(w'.cands[j], w'.alive, Seen(w', j)) {
      assert j != |w.cands| - 1 ==> w'.cands[j] == w.cands[j] && Seen(w, j) == Seen(w', j) == Armed;
    }
    assert forall j :: ClaimsAt(w', j) ==> j == |w.cands| - 1;
  }

  lemma MoveOnlyKeeps(d: Env, w: World, o: Old, since: nat)
    requires Inv(d, w) && Attempting(w) && OldOk(o)
    requires CandOk(Last(w), true, if HoldsLink(o.phase) then o.phase else Armed)
    requires HoldsLink(o.phase) ==> LinkOk(d, o.phase, since, w.now, Last(w))
    ensures Inv(d, OldMoves(w, o, since))
  {
    MoveKeeps(d, w, o, since, Last(w));
    assert Put(OldMoves(w, o, since), |w.cands| - 1, Last(w)) == OldMoves(w, o, since);
  }

  lemma AfterTick(d: Env, w: World, dt: nat)
    requires Inv(d, w) && Enabled(d, w, Tick(dt))
    ensures Inv(d, Apply(d, w, Tick(dt)))
  {
    var w' := Apply(d, w, Tick(dt));
    forall i | 0 <= i < |w'.cands| ensures CandOk(w'.cands[i], w'.alive, Seen(w', i)) {
      assert Seen(w, i) == Seen(w', i);
    }
    assert forall i :: ClaimsAt(w', i) ==> ClaimsAt(w, i);
    assert Attempting(w') ==> Attempting(w) && Last(w') == Last(w);
  }

  lemma AfterCrashOld(d: Env, w: World)
    requires Inv(d, w) && w.alive
    ensures Inv(d, Apply(d, w, CrashOld))
  {
    var w' := Apply(d, w, CrashOld);
    forall i | 0 <= i < |w'.cands| ensures CandOk(w'.cands[i], w'.alive, Seen(w', i)) {
      assert CandOk(w.cands[i], w.alive, Seen(w, i));
    }
    assert forall i :: ClaimsAt(w', i) ==> ClaimsAt(w, i);
  }

  lemma AfterCrashNew(d: Env, w: World, i: nat)
    requires Inv(d, w) && Live(w, i)
    ensures Inv(d, Apply(d, w, CrashNew(i)))
  {
    PutKeeps(d, w, i, w.cands[i].(n := w.cands[i].n.(phase := Gone(Crashed))));
  }

  lemma AfterConnect(d: Env, w: World, v: nat)
    requires Inv(d, w) && Enabled(d, w, Connect(v))
    ensures Inv(d, Apply(d, w, Connect(v)))
  {
    var w' := Apply(d, w, Connect(v));
    forall i | 0 <= i < |w'.cands| ensures CandOk(w'.cands[i], w'.alive, Seen(w', i)) {
      if i < |w.cands| {
        assert w'.cands[i] == w.cands[i] && Seen(w, i) == Seen(w', i) == Armed;
      } else {
        assert w'.cands[i] == Newcomer(v, w.now);
      }
    }
    assert forall i :: !ClaimsAt(w', i);
    assert Last(w') == Newcomer(v, w.now);
  }

  lemma AfterStart(d: Env, w: World)
    requires Inv(d, w) && !w.alive
    ensures Inv(d, Apply(d, w, Start))
  {
    var w' := Apply(d, w, Start);
    forall i | 0 <= i < |w'.cands| ensures CandOk(w'.cands[i], w'.alive, Seen(w', i)) {
      if i < |w.cands| {
        assert w'.cands[i] == w.cands[i] && Seen(w, i) == Seen(w', i) == Armed;
      }
    }
    assert forall i :: ClaimsAt(w', i) ==> ClaimsAt(w, i);
  }

  lemma AfterOldGivesUp(d: Env, w: World)
    requires Inv(d, w) && Enabled(d, w, OldGivesUp)
    ensures Inv(d, Apply(d, w, OldGivesUp))
  {
    var w' := Apply(d, w, OldGivesUp);
    forall i | 0 <= i < |w'.cands| ensures CandOk(w'.cands[i], w'.alive, Seen(w', i)) {
      assert Seen(w, i) == Seen(w', i) == Armed;
    }
    assert forall i :: ClaimsAt(w', i) ==> ClaimsAt(w, i);
  }

  lemma AfterOldReceives(d: Env, w: World)
    requires Inv(d, w) && Enabled(d, w, Action.OldReceives)
    ensures Inv(d, Apply(d, w, Action.OldReceives))
  {
    var c := Last(w);
    assert CandOk(w.cands[|w.cands| - 1], w.alive, Seen(w, |w.cands| - 1));
    var o := OldNext(w.core, Got(c.toOld[0].m), w.now);
    MoveKeeps(d, w, o, c.toOld[0].at, c.(toOld := c.toOld[1..]));
  }

  lemma AfterOldBroken(d: Env, w: World)
    requires Inv(d, w) && Enabled(d, w, OldBroken)
    ensures Inv(d, Apply(d, w, OldBroken))
  {
    assert CandOk(w.cands[|w.cands| - 1], w.alive, Seen(w, |w.cands| - 1));
    MoveOnlyKeeps(d, w, OldNext(w.core, Broken, w.now), w.now);
  }

  /** The heart of the timing argument: a live successor's commit is never more
      than two delays and its own limit away from the listeners. */
  lemma CommitIsNear(d: Env, sent: nat, since: nat, now: nat, c: Cand)
    requires InSync(d, AwaitCommit(sent), since, c) && LinkOnTime(d, AwaitCommit(sent), since, now, c)
    ensures now <= sent + COMMIT_WITHIN + 2 * d.delay
  {
    assert c.toNew != [] ==> c.toNew[|c.toNew| - 1].at == sent;
    assert c.toOld != [] ==> c.toOld[0].at == c.n.phase.since;
  }

  lemma AfterOldTimesOut(d: Env, w: World)
    requires Kind(d) && Inv(d, w) && Enabled(d, w, OldTimesOut)
    ensures Inv(d, Apply(d, w, OldTimesOut))
    ensures w.core.phase.AwaitCommit? ==> Last(w).n.phase.Gone?
  {
    assert CandOk(w.cands[|w.cands| - 1], w.alive, Seen(w, |w.cands| - 1));
    if w.core.phase.AwaitCommit? && !Last(w).n.phase.Gone? {
      CommitIsNear(d, w.core.phase.sent, w.since, w.now, Last(w));
    }
    MoveOnlyKeeps(d, w, OldNext(w.core, TimedOut, w.now), w.now);
  }

  /** What the link looks like once the old core has sent this phase's message. */
  lemma LinkAfterOldSend(d: Env, o: Old, since: nat, now: nat, c: Cand, k: nat)
    requires Gives(o.phase) && !c.n.phase.Gone? && LinkOk(d, o.phase, since, now, c)
    ensures LinkOk(d, OldNext(o, Sent(true), now).phase, now, now,
                   c.(toNew := c.toNew + [Stamped(OldSends(o.phase, k), now)]))
  {
    assert InSync(d, o.phase, since, c) && LinkOnTime(d, o.phase, since, now, c);
  }

  lemma AfterOldSend(d: Env, w: World, ok: bool, k: nat)
    requires Inv(d, w) && Enabled(d, w, OldSend(ok, k))
    ensures Inv(d, Apply(d, w, OldSend(ok, k)))
  {
    var c := Last(w);
    assert CandOk(w.cands[|w.cands| - 1], w.alive, Seen(w, |w.cands| - 1));
    var o := OldNext(w.core, Sent(ok), w.now);
    OldStepKeepsOk(w.core, Sent(ok), w.now);
    if ok {
      LinkAfterOldSend(d, w.core, w.since, w.now, c, k);
      MoveKeeps(d, w, o, w.now, c.(toNew := c.toNew + [Stamped(OldSends(w.core.phase, k), w.now)]));
    } else {
      MoveOnlyKeeps(d, w, o, w.now);
    }
  }

  lemma AfterOldProceeds(d: Env, w: World)
    requires Inv(d, w) && Enabled(d, w, OldProceeds)
    ensures Inv(d, Apply(d, w, OldProceeds))
  {
    assert CandOk(w.cands[|w.cands| - 1], w.alive, Seen(w, |w.cands| - 1));
    MoveOnlyKeeps(d, w, OldNext(w.core, Proceed, w.now), w.now);
  }

  lemma LinkAfterGreetings(d: Env, o: OldPhase, since: nat, now: nat, c: Cand)
    requires HoldsLink(o) && !c.n.phase.Gone? && InSync(d, o, since, c) && LinkOnTime(d, o, since, now, c)
    requires c.n.phase.AwaitControl? && c.toNew != []
    ensures LinkOk(d, o, since, now,
                   Cand(NewNext(c.n, Got(c.toNew[0].m), now), c.toOld + Answer(c, true, now), c.toNew[1..]))
  {
  }

  lemma LinkAfterSnapshots(d: Env, o: OldPhase, since: nat, now: nat, c: Cand)
    requires HoldsLink(o) && !c.n.phase.Gone? && InSync(d, o, since, c) && LinkOnTime(d, o, since, now, c)
    requires (c.n.phase.AwaitFirst? || c.n.phase.AwaitSecond?) && c.toNew != []
    ensures LinkOk(d, o, since, now,
                   Cand(NewNext(c.n, Got(c.toNew[0].m), now), c.toOld + Answer(c, true, now), c.toNew[1..]))
  {
    assert c.toOld + Answer(c, true, now) == c.toOld;
  }

  lemma LinkAfterLast(d: Env, o: OldPhase, since: nat, now: nat, c: Cand)
    requires HoldsLink(o) && !c.n.phase.Gone? && InSync(d, o, since, c) && LinkOnTime(d, o, since, now, c)
    requires (c.n.phase.AwaitListeners? || c.n.phase.Committing?) && c.toNew != []
    ensures LinkOk(d, o, since, now,
                   Cand(NewNext(c.n, Got(c.toNew[0].m), now), c.toOld + Answer(c, true, now), c.toNew[1..]))
  {
    assert c.toOld + Answer(c, true, now) == c.toOld;
  }

  /** What the link looks like once the candidate has read a message. */
  lemma LinkAfterNewReceive(d: Env, o: OldPhase, since: nat, now: nat, c: Cand)
    requires HoldsLink(o) && !c.n.phase.Gone? && InSync(d, o, since, c) && LinkOnTime(d, o, since, now, c)
    requires NewReceives(c.n.phase) && c.toNew != []
    ensures LinkOk(d, o, since, now,
                   Cand(NewNext(c.n, Got(c.toNew[0].m), now), c.toOld + Answer(c, true, now), c.toNew[1..]))
  {
    if c.n.phase.AwaitControl? {
      LinkAfterGreetings(d, o, since, now, c);
    } else if c.n.phase.AwaitFirst? || c.n.phase.AwaitSecond? {
      LinkAfterSnapshots(d, o, since, now, c);
    } else {
      LinkAfterLast(d, o, since, now, c);
    }
  }

  lemma AfterNewReceive(d: Env, w: World, i: nat)
    requires Inv(d, w) && Enabled(d, w, NewReceive(i))
    ensures Inv(d, Apply(d, w, NewReceive(i)))
  {
    var c := w.cands[i];
    var c' := Cand(NewNext(c.n, Got(c.toNew[0].m), w.now), c.toOld + Answer(c, LinkUp(w, i), w.now), c.toNew[1..]);
    NewStepKeepsOk(c.n, Got(c.toNew[0].m), w.now);
    assert CandOk(c, w.alive, Seen(w, i));
    if LinkUp(w, i) {
      LinkAfterNewReceive(d, w.core.phase, w.since, w.now, c);
    }
    PutKeeps(d, w, i, c');
  }

  lemma AfterNewBroken(d: Env, w: World, i: nat)
    requires Inv(d, w) && Enabled(d, w, Action.NewBroken(i))
    ensures Inv(d, Apply(d, w, Action.NewBroken(i)))
  {
    PutKeeps(d, w, i, w.cands[i].(n := NewNext(w.cands[i].n, Broken, w.now)));
  }

  /** What the link looks like once the candidate's wait is over. */
  lemma LinkAfterNewTimesOut(d: Env, o: OldPhase, since: nat, now: nat, c: Cand)
    requires Kind(d) && HoldsLink(o) && !c.n.phase.Gone? && InSync(d, o, since, c) && LinkOnTime(d, o, since, now, c)
    requires NewExpired(c.n.phase, now) && !c.n.phase.WaitGone?
    ensures LinkOk(d, o, since, now, c.(n := NewNext(c.n, TimedOut, now)))
    ensures !NewNext(c.n, TimedOut, now).phase.WaitGone?
  {
    assert c.toOld != [] && Protocol.OldReceives(o) ==> now <= c.toOld[0].at + d.delay;
    assert c.toNew != [] && NewReceives(c.n.phase) ==> now <= c.toNew[0].at + d.delay;
  }

  lemma AfterNewTimesOut(d: Env, w: World, i: nat)
    requires Kind(d) && Inv(d, w) && Enabled(d, w, NewTimesOut(i))
    ensures Inv(d, Apply(d, w, NewTimesOut(i)))
  {
    var c := w.cands[i];
    NewStepKeepsOk(c.n, TimedOut, w.now);
    assert CandOk(c, w.alive, Seen(w, i));
    if LinkUp(w, i) {
      LinkAfterNewTimesOut(d, w.core.phase, w.since, w.now, c);
    }
    PutKeeps(d, w, i, c.(n := NewNext(c.n, TimedOut, w.now)));
  }

  lemma AfterNewSend(d: Env, w: World, i: nat)
    requires Inv(d, w) && Enabled(d, w, NewSend(i))
    ensures Inv(d, Apply(d, w, NewSend(i)))
  {
    var c := w.cands[i];
    PutKeeps(d, w, i, c.(n := NewNext(c.n, Sent(LinkUp(w, i)), w.now), toOld := c.toOld + Outbox(w, i)));
  }

  lemma AfterNewLeaves(d: Env, w: World, i: nat)
    requires Inv(d, w) && Enabled(d, w, NewLeaves(i))
    ensures Inv(d, Apply(d, w, NewLeaves(i)))
  {
    PutKeeps(d, w, i, w.cands[i].(n := w.cands[i].n.(phase := Gone(Left))));
  }

  lemma AfterNewSeesGone(d: Env, w: World, i: nat)
    requires Inv(d, w) && Enabled(d, w, NewSeesGone(i))
    ensures Inv(d, Apply(d, w, NewSeesGone(i)))
  {
    PutKeeps(d, w, i, w.cands[i].(n := NewNext(w.cands[i].n, HolderGone, w.now)));
  }

  lemma AfterNewStartsFresh(d: Env, w: World, i: nat)
    requires !d.racing && Inv(d, w) && Enabled(d, w, NewStartsFresh(i))
    ensures Inv(d, Apply(d, w, NewStartsFresh(i)))
  {
    assert forall j :: !ClaimsAt(w, j);
    PutKeeps(d, w, i, w.cands[i].(n := NewNext(w.cands[i].n, Proceed, w.now)));
  }

  // ------------------------------------------------------------- runs

  lemma InitHolds(d: Env)
    ensures Inv(d, Init())
  {
  }

  lemma StepKeeps(d: Env, w: World, a: Action)
    requires Kind(d) && Inv(d, w) && Enabled(d, w, a)
    ensures Inv(d, Apply(d, w, a))
  {
    match a
    case Tick(dt) => AfterTick(d, w, dt);
    case CrashOld => AfterCrashOld(d, w);
    case CrashNew(i) => AfterCrashNew(d, w, i);
    case Connect(v) => AfterConnect(d, w, v);
    case OldReceives => AfterOldReceives(d, w);
    case OldBroken => AfterOldBroken(d, w);
    case OldTimesOut => AfterOldTimesOut(d, w);
    case OldSend(ok, k) => AfterOldSend(d, w, ok, k);
    case OldProceeds => AfterOldProceeds(d, w);
    case OldGivesUp => AfterOldGivesUp(d, w);
    case NewReceive(i) => AfterNewReceive(d, w, i);
    case NewBroken(i) => AfterNewBroken(d, w, i);
    case NewTimesOut(i) => AfterNewTimesOut(d, w, i);
    case NewSend(i) => AfterNewSend(d, w, i);
    case NewLeaves(i) => AfterNewLeaves(d, w, i);
    case NewSeesGone(i) => AfterNewSeesGone(d, w, i);
    case NewStartsFresh(i) => AfterNewStartsFresh(d, w, i);
    case Start => AfterStart(d, w);
  }

  ghost function StepOf(d: Env): (World, Action, World) -> bool {
    (w, a, w') => Enabled(d, w, a) && Apply(d, w, a) == w'
  }

  ghost predicate Reachable(d: Env, w: World) {
    Leads(StepOf(d), Init(), w)
  }

  ghost function InvOf(d: Env): World -> bool {
    w => Inv(d, w)
  }

  lemma ReachableHolds(d: Env, w: World)
    requires Kind(d) && Reachable(d, w)
    ensures Inv(d, w)
  {
    forall v, a, v' | InvOf(d)(v) && StepOf(d)(v, a, v') ensures InvOf(d)(v') {
      StepKeeps(d, v, a);
    }
    var n: nat :| Within(StepOf(d), n, Init(), w);
    Holds(StepOf(d), InvOf(d), Init(), n, w);
  }

  // ------------------------------------------------------------- the claims

  /** The old core is the primary until its CommitAck is out; a candidate is
      once `commit` returned or it started the ordinary way. */
  predicate OldIsPrimary(w: World) {
    w.alive && !Final(w.core.phase)
  }

  predicate NewIsPrimary(w: World, i: int) {
    0 <= i < |w.cands| && w.cands[i].n.phase.Primary?
  }

  ghost predicate OnePrimary(w: World) {
    && (forall i, j :: NewIsPrimary(w, i) && NewIsPrimary(w, j) ==> i == j)
    && (forall i :: NewIsPrimary(w, i) ==> !OldIsPrimary(w))
  }

  predicate OldRenews(w: World) {
    w.alive && !w.core.held
  }

  predicate NewRenews(w: World, i: int) {
    0 <= i < |w.cands| && !w.cands[i].n.phase.Gone? && !w.cands[i].n.held
  }

  ghost predicate OneRenewer(w: World) {
    && (forall i, j :: NewRenews(w, i) && NewRenews(w, j) ==> i == j)
    && (forall i :: NewRenews(w, i) ==> !OldRenews(w))
  }

  lemma AtMostOnePrimary(d: Env, w: World)
    requires Kind(d) && Reachable(d, w)
    ensures OnePrimary(w)
  {
    ReachableHolds(d, w);
    assert forall i :: NewIsPrimary(w, i) ==> ClaimsAt(w, i);
  }

  lemma AtMostOneRenewer(d: Env, w: World)
    requires Kind(d) && Reachable(d, w)
    ensures OneRenewer(w)
  {
    ReachableHolds(d, w);
    AtMostOnePrimary(d, w);
    assert forall i :: NewRenews(w, i) ==> NewIsPrimary(w, i);
  }

  predicate Commits(c: Cand) {
    c.n.phase.Committing? || c.n.phase.WaitGone? || c.n.phase.Primary?
  }

  lemma CommittedKept(d: Env, w: World, a: Action, i: nat)
    requires Kind(d) && Inv(d, w) && Enabled(d, w, a)
    requires i < |w.cands| && Commits(w.cands[i]) && a != CrashNew(i)
    ensures i < |Apply(d, w, a).cands| && Commits(Apply(d, w, a).cands[i]) && Apply(d, w, a).cands[i].n.accepting
  {
    StepKeeps(d, w, a);
    var w' := Apply(d, w, a);
    assert CandOk(w.cands[i], w.alive, Seen(w, i));
    assert CandOk(w'.cands[i], w'.alive, Seen(w', i));
  }

  /** From its commit on a candidate accepts on every listener until it
      crashes, whatever becomes of the old core. */
  lemma CommittedServesOn(d: Env, w: World, a: Action, i: nat)
    requires Kind(d) && Reachable(d, w) && Enabled(d, w, a)
    requires i < |w.cands| && Commits(w.cands[i]) && a != CrashNew(i)
    ensures i < |Apply(d, w, a).cands| && Commits(Apply(d, w, a).cands[i]) && Apply(d, w, a).cands[i].n.accepting
  {
    ReachableHolds(d, w);
    CommittedKept(d, w, a, i);
  }

  lemma OnlyTheAckIsFinal(o: Old, i: Input, now: nat)
    requires !Final(o.phase) && Final(OldNext(o, i, now).phase)
    ensures o.phase.GiveAck? && i == Sent(true)
  {
  }

  lemma OnlyASendIsFinal(d: Env, w: World, a: Action)
    requires Enabled(d, w, a) && !Final(w.core.phase) && Final(Apply(d, w, a).core.phase)
    ensures a.OldSend? && a.ok && w.core.phase.GiveAck?
  {
    match a
    case OldReceives => OnlyTheAckIsFinal(w.core, Got(Last(w).toOld[0].m), w.now);
    case OldBroken => OnlyTheAckIsFinal(w.core, Broken, w.now);
    case OldTimesOut => OnlyTheAckIsFinal(w.core, TimedOut, w.now);
    case OldSend(ok, _) => OnlyTheAckIsFinal(w.core, Sent(ok), w.now);
    case OldProceeds => OnlyTheAckIsFinal(w.core, Proceed, w.now);
    case _ =>
  }

  /** Commit is the only irreversible point: it is passed exactly when the
      acknowledgement goes out, and then a live successor already accepts. */
  lemma CommitIsThePoint(d: Env, w: World, a: Action)
    requires Kind(d) && Reachable(d, w) && Enabled(d, w, a)
    requires !Final(w.core.phase) && Final(Apply(d, w, a).core.phase)
    ensures a.OldSend? && w.core.phase.GiveAck?
    ensures Last(w).n.phase.Committing? && Last(w).n.accepting
  {
    OnlyASendIsFinal(d, w, a);
    ReachableHolds(d, w);
    assert CandOk(w.cands[|w.cands| - 1], w.alive, Seen(w, |w.cands| - 1));
  }

  /** Accepts as the committed successor, or crashed. */
  predicate Heir(w: World, i: nat) {
    i < |w.cands| && (w.cands[i].n.phase == Gone(Crashed) || (Commits(w.cands[i]) && w.cands[i].n.accepting))
  }

  lemma HeirStays(d: Env, w: World, a: Action, i: nat)
    requires Kind(d) && Inv(d, w) && Enabled(d, w, a) && Heir(w, i)
    ensures Heir(Apply(d, w, a), i)
  {
    if !w.cands[i].n.phase.Gone? && a != CrashNew(i) {
      CommittedKept(d, w, a, i);
    }
  }

  lemma TheAckMakesAnHeir(d: Env, w: World, a: Action)
    requires Kind(d) && Inv(d, w) && Enabled(d, w, a)
    requires !Final(w.core.phase) && Final(Apply(d, w, a).core.phase)
    ensures w.cands != [] && Heir(Apply(d, w, a), |w.cands| - 1)
  {
    OnlyASendIsFinal(d, w, a);
    assert CandOk(w.cands[|w.cands| - 1], w.alive, Seen(w, |w.cands| - 1));
  }

  ghost function HeirOf(d: Env, i: nat): World -> bool {
    w => Inv(d, w) && Heir(w, i)
  }

  /** Wherever a run leads from the acknowledgement, the acknowledged candidate
      accepts unless it crashed. */
  lemma AcknowledgedServesOn(d: Env, w: World, a: Action, w': World)
    requires Kind(d) && Reachable(d, w) && Enabled(d, w, a)
    requires !Final(w.core.phase) && Final(Apply(d, w, a).core.phase)
    requires Leads(StepOf(d), Apply(d, w, a), w')
    ensures w.cands != [] && Heir(w', |w.cands| - 1)
  {
    ReachableHolds(d, w);
    StepKeeps(d, w, a);
    TheAckMakesAnHeir(d, w, a);
    var i := |w.cands| - 1;
    forall v, b, v' | HeirOf(d, i)(v) && StepOf(d)(v, b, v') ensures HeirOf(d, i)(v') {
      StepKeeps(d, v, b);
      HeirStays(d, v, b, i);
    }
    var n: nat :| Within(StepOf(d), n, Apply(d, w, a), w');
    Holds(StepOf(d), HeirOf(d, i), Apply(d, w, a), n, w');
  }

  ghost predicate HasHeir(w: World) {
    Final(w.core.phase) ==> exists i: nat :: Heir(w, i)
  }

  lemma HasHeirKept(d: Env, w: World, a: Action)
    requires Kind(d) && Inv(d, w) && Enabled(d, w, a) && HasHeir(w)
    ensures HasHeir(Apply(d, w, a))
  {
    if Final(w.core.phase) {
      var i: nat :| Heir(w, i);
      HeirStays(d, w, a, i);
    } else if Final(Apply(d, w, a).core.phase) {
      TheAckMakesAnHeir(d, w, a);
    }
  }

  ghost function ServedOf(d: Env): World -> bool {
    w => Inv(d, w) && HasHeir(w)
  }

  /** Beside a core that only drains, with nobody left who claims its place, a
      process may become the primary the ordinary way. */
  lemma RoomBesideDraining(d: Env, w: World, c: Cand)
    requires Kind(d) && Reachable(d, w) && w.alive && Final(w.core.phase)
    requires forall j :: 0 <= j < |w.cands| ==> !Claims(w.cands[j])
    ensures OnePrimary(w.(cands := w.cands + [c])) && OneRenewer(w.(cands := w.cands + [c]))
  {
    ReachableHolds(d, w);
    var w' := w.(cands := w.cands + [c]);
    assert forall i :: NewIsPrimary(w', i) ==> i == |w.cands|;
    assert forall i :: 0 <= i < |w.cands| ==> CandOk(w.cands[i], w.alive, Seen(w, i)) && !NewRenews(w', i);
    assert forall i :: NewRenews(w', i) ==> i == |w.cands|;
  }

  /** Some live process accepts on the gateway's listeners. */
  ghost predicate Served(w: World) {
    || (w.alive && w.core.accepting)
    || exists i :: 0 <= i < |w.cands| && !w.cands[i].n.phase.Gone? && w.cands[i].n.accepting
  }

  /** There is no moment with nobody listening, before a hand-over, during it, or
      after the old core drained and ended, unless a successor crashed that was
      acknowledged. */
  lemma AlwaysServed(d: Env, w: World)
    requires Kind(d) && Reachable(d, w)
    requires w.alive || Final(w.core.phase)
    ensures Served(w) || (Final(w.core.phase) && exists i :: 0 <= i < |w.cands| && w.cands[i].n.phase == Gone(Crashed))
  {
    forall v, a, v' | ServedOf(d)(v) && StepOf(d)(v, a, v') ensures ServedOf(d)(v') {
      StepKeeps(d, v, a);
      HasHeirKept(d, v, a);
    }
    var n: nat :| Within(StepOf(d), n, Init(), w);
    Holds(StepOf(d), ServedOf(d), Init(), n, w);
    if Final(w.core.phase) {
      var i: nat :| Heir(w, i);
    }
  }

  /** Before that point every attempt that ends, however it ends, leaves the old
      core serving on: armed, renewing, its control plane open, accepting. */
  lemma AbandonedServesOn(d: Env, w: World, a: Action)
    requires Kind(d) && Reachable(d, w) && Enabled(d, w, a)
    requires HoldsLink(w.core.phase) && Apply(d, w, a).core.phase.Armed?
    ensures Apply(d, w, a).core.strikes <= w.core.strikes + 1
    ensures ServingOn(Apply(d, w, a).core)
  {
    ReachableHolds(d, w);
    StepKeeps(d, w, a);
  }

  /** After the listeners were sent an attempt fails only because the successor
      crashed or could not serve them in time: no deadline of the protocol
      itself ends it, and no successor that committed is turned away. */
  lemma NoLateFailure(d: Env, w: World, a: Action)
    requires Kind(d) && Reachable(d, w) && Enabled(d, w, a)
    requires w.core.phase.AwaitCommit? || w.core.phase.GiveAck?
    requires w.alive && Apply(d, w, a).alive
    requires !(w.core.phase.AwaitCommit? && Apply(d, w, a).core.phase.GiveAck?)
    requires Apply(d, w, a).core.phase != w.core.phase && !Final(Apply(d, w, a).core.phase)
    ensures Last(w).n.phase == Gone(Crashed) || Last(w).n.phase == Gone(NotServed)
  {
    ReachableHolds(d, w);
    if a.OldTimesOut? {
      AfterOldTimesOut(d, w);
    }
  }

  /** While the old core renews nobody is on the way to becoming the primary:
      it lets go of the hold only when that attempt can no longer commit. */
  lemma RenewingBarsSuccessors(d: Env, w: World, i: nat)
    requires Kind(d) && Reachable(d, w) && w.alive && !w.core.held && i < |w.cands|
    ensures !Claims(w.cands[i])
  {
    ReachableHolds(d, w);
    assert CandOk(w.cands[i], w.alive, Seen(w, i));
  }

  lemma NoCommitIsRefused(d: Env, w: World, i: nat)
    requires Kind(d) && Reachable(d, w) && i < |w.cands|
    ensures w.cands[i].n.phase != Gone(NotAcked)
    ensures w.cands[i].n.phase.WaitGone? ==> !w.alive
  {
    ReachableHolds(d, w);
    assert CandOk(w.cands[i], w.alive, Seen(w, i));
  }
}
