/** When the hand-over is safe, exactly: the deadlines leave room for delays
    under five seconds and for nothing more. */
module Exactness {
  import opened Protocol
  import opened Takeover
  import opened Runs

  ghost predicate Reaches(d: Env, w: World, w': World) {
    Leads(StepOf(d), w, w')
  }

  lemma Moves(d: Env, w: World, w1: World, a: Action, w2: World)
    requires Reaches(d, w, w1) && Enabled(d, w1, a) && Apply(d, w1, a) == w2
    ensures Reaches(d, w, w2)
  {
    Go(StepOf(d), w, w1, a, w2);
  }

  /** The listeners are out and the successor has yet to read them. */
  function Offered(w: World): World {
    World(w.now, Old(AwaitCommit(w.now), w.core.strikes, true, true, true), true, w.now,
          w.cands + [Cand(New(AwaitListeners(w.now), true, false, ID_GAP), [], [Stamped(Listeners, w.now)])])
  }

  predicate Idle(w: World) {
    w.alive && w.core == Old(Armed, w.core.strikes, false, false, true) && w.core.strikes < MAX_STRIKES
  }

  /** A world whose current attempt is with `c`. */
  function At(t: nat, o: Old, since: nat, cs: seq<Cand>, c: Cand): World {
    World(t, o, true, since, cs + [c])
  }

  lemma OldTakes(d: Env, w: World, t: nat, o: Old, since: nat, cs: seq<Cand>, c: Cand, x: Stamped)
    requires Reaches(d, w, At(t, o, since, cs, c)) && Protocol.OldReceives(o.phase) && c.toOld == [x]
    ensures Reaches(d, w, At(t, OldNext(o, Got(x.m), t), x.at, cs, c.(toOld := [])))
  {
    assert c.toOld[1..] == [];
    assert (cs + [c])[|cs| := c.(toOld := [])] == cs + [c.(toOld := [])];
    Moves(d, w, At(t, o, since, cs, c), Action.OldReceives, At(t, OldNext(o, Got(x.m), t), x.at, cs, c.(toOld := [])));
  }

  lemma OldGives(d: Env, w: World, t: nat, o: Old, since: nat, cs: seq<Cand>, c: Cand)
    requires Reaches(d, w, At(t, o, since, cs, c)) && Gives(o.phase) && !c.n.phase.Gone?
    ensures Reaches(d, w, At(t, OldNext(o, Sent(true), t), t, cs,
                    c.(toNew := c.toNew + [Stamped(OldSends(o.phase, 0), t)])))
  {
    var c' := c.(toNew := c.toNew + [Stamped(OldSends(o.phase, 0), t)]);
    assert (cs + [c])[|cs| := c'] == cs + [c'];
    Moves(d, w, At(t, o, since, cs, c), OldSend(true, 0), At(t, OldNext(o, Sent(true), t), t, cs, c'));
  }

  lemma NewTakes(d: Env, w: World, t: nat, o: Old, since: nat, cs: seq<Cand>, c: Cand, x: Stamped, rest: seq<Stamped>)
    requires Reaches(d, w, At(t, o, since, cs, c)) && HoldsLink(o.phase)
    requires NewReceives(c.n.phase) && c.toNew == [x] + rest && !AsksFallback(c.n.phase, x.m)
    ensures Reaches(d, w, At(t, o, since, cs, Cand(NewNext(c.n, Got(x.m), t), c.toOld, rest)))
  {
    var c' := Cand(NewNext(c.n, Got(x.m), t), c.toOld, rest);
    assert c.toNew[1..] == rest && c.toOld + [] == c.toOld;
    assert (cs + [c])[|cs| := c'] == cs + [c'];
    Moves(d, w, At(t, o, since, cs, c), NewReceive(|cs|), At(t, o, since, cs, c'));
  }

  lemma NewGives(d: Env, w: World, t: nat, o: Old, since: nat, cs: seq<Cand>, c: Cand)
    requires Reaches(d, w, At(t, o, since, cs, c)) && HoldsLink(o.phase)
    requires c.n.phase.Preparing? || c.n.phase.Serving?
    requires c.toOld == []
    ensures Reaches(d, w, At(t, o, since, cs, c.(n := NewNext(c.n, Sent(true), t),
                    toOld := [Stamped(if c.n.phase.Preparing? then WantListeners else Commit, t)])))
  {
    var m := Stamped(if c.n.phase.Preparing? then WantListeners else Commit, t);
    var c' := c.(n := NewNext(c.n, Sent(true), t), toOld := [m]);
    assert c.toOld + [m] == [m];
    assert (cs + [c])[|cs| := c'] == cs + [c'];
    Moves(d, w, At(t, o, since, cs, c), NewSend(|cs|), At(t, o, since, cs, c'));
  }

  /** A candidate that has just greeted, and the core it greeted. */
  function Greeter(w: World): New {
    New(AwaitControl(w.now), true, false, 0)
  }

  function Core(w: World, p: OldPhase): Old {
    w.core.(phase := p)
  }

  lemma OfferGreeting(d: Env, w: World)
    requires Idle(w)
    ensures Reaches(d, w, At(w.now, Core(w, GiveControl), w.now, w.cands, Cand(Greeter(w), [], [])))
  {
    var t, hello := w.now, Stamped(Hello(VERSION), w.now);
    Here(StepOf(d), w);
    Moves(d, w, w, Connect(VERSION), At(t, Core(w, Greeting), t, w.cands, Cand(Greeter(w), [hello], [])));
    OldTakes(d, w, t, Core(w, Greeting), t, w.cands, Cand(Greeter(w), [hello], []), hello);
  }

  /** The control plane and the first snapshot are out. */
  lemma OfferControl(d: Env, w: World)
    requires Idle(w)
    ensures Reaches(d, w, At(w.now, Core(w, AwaitWant(w.now)).(paused := true), w.now, w.cands,
                    Cand(Greeter(w), [], [Stamped(Control, w.now), Stamped(Snapshot(0), w.now)])))
  {
    var t, cs := w.now, w.cands;
    OfferGreeting(d, w);
    OldGives(d, w, t, Core(w, GiveControl), t, cs, Cand(Greeter(w), [], []));
    assert [] + [Stamped(Control, t)] == [Stamped(Control, t)];
    OldGives(d, w, t, Core(w, GiveFirst).(paused := true), t, cs, Cand(Greeter(w), [], [Stamped(Control, t)]));
    assert [Stamped(Control, t)] + [Stamped(Snapshot(0), t)] == [Stamped(Control, t), Stamped(Snapshot(0), t)];
  }

  /** ...and read. */
  lemma OfferFirst(d: Env, w: World)
    requires Idle(w)
    ensures Reaches(d, w, At(w.now, Core(w, AwaitWant(w.now)).(paused := true), w.now, w.cands,
                    Cand(New(Preparing, true, false, ID_GAP), [], [])))
  {
    var t, cs, n := w.now, w.cands, Greeter(w);
    var open, snap := Core(w, AwaitWant(t)).(paused := true), Stamped(Snapshot(0), t);
    OfferControl(d, w);
    assert [Stamped(Control, t), snap] == [Stamped(Control, t)] + [snap];
    NewTakes(d, w, t, open, t, cs, Cand(n, [], [Stamped(Control, t)] + [snap]), Stamped(Control, t), [snap]);
    assert [snap] == [snap] + [];
    NewTakes(d, w, t, open, t, cs, Cand(n.(phase := AwaitFirst(t)), [], [snap]), snap, []);
  }

  /** From any armed core an instant hand-over gets as far as the listeners. */
  lemma Offer(d: Env, w: World)
    requires Idle(w)
    ensures Reaches(d, w, Offered(w))
  {
    var t, cs, m := w.now, w.cands, New(AwaitSecond(w.now), true, false, ID_GAP);
    var open := Core(w, AwaitWant(t)).(paused := true);
    OfferFirst(d, w);
    NewGives(d, w, t, open, t, cs, Cand(m.(phase := Preparing), [], []));
    OldTakes(d, w, t, open, t, cs, Cand(m, [Stamped(WantListeners, t)], []), Stamped(WantListeners, t));
    OfferSecond(d, w, cs, m);
  }

  lemma OfferSecond(d: Env, w: World, cs: seq<Cand>, m: New)
    requires m == New(AwaitSecond(w.now), true, false, ID_GAP) && cs == w.cands
    requires Reaches(d, w, At(w.now, Old(GiveSecond, w.core.strikes, true, true, true), w.now, cs, Cand(m, [], [])))
    ensures Reaches(d, w, Offered(w))
  {
    var t, held := w.now, Old(GiveListeners, w.core.strikes, true, true, true);
    var snap := Stamped(Snapshot(0), t);
    OldGives(d, w, t, held.(phase := GiveSecond), t, cs, Cand(m, [], []));
    assert [] + [snap] == [snap] == [snap] + [];
    NewTakes(d, w, t, held, t, cs, Cand(m, [], [snap]), snap, []);
    OfferListeners(d, w, cs, held);
  }

  lemma OfferListeners(d: Env, w: World, cs: seq<Cand>, held: Old)
    requires held == Old(GiveListeners, w.core.strikes, true, true, true) && cs == w.cands
    requires Reaches(d, w, At(w.now, held, w.now, cs, Cand(New(AwaitListeners(w.now), true, false, ID_GAP), [], [])))
    ensures Reaches(d, w, Offered(w))
  {
    var t, out := w.now, Stamped(Listeners, w.now);
    OldGives(d, w, t, held, t, cs, Cand(New(AwaitListeners(t), true, false, ID_GAP), [], []));
    assert [] + [out] == [out];
  }

  /** From the offer on, with no further delay, the hand-over completes: the
      old core is gone and the successor is the primary. */
  function Completed(w: World): World {
    var o := Offered(w);
    o.(core := o.core.(phase := Draining, accepting := false), alive := false,
       cands := w.cands + [Cand(New(Primary, false, true, ID_GAP), [], [])])
  }

  /** The successor serves, and its commit has arrived. */
  lemma CommitArrives(d: Env, w: World)
    requires Idle(w)
    ensures Reaches(d, w, At(w.now, Offered(w).core.(phase := GiveAck), w.now, w.cands,
                    Cand(New(Committing(w.now), true, true, ID_GAP), [], [])))
  {
    Offer(d, w);
    var t, cs, o := w.now, w.cands, Offered(w).core;
    var n, out := New(AwaitListeners(t), true, false, ID_GAP), Stamped(Listeners, t);
    assert [out] == [out] + [];
    NewTakes(d, w, t, o, t, cs, Cand(n, [], [out]), out, []);
    NewGives(d, w, t, o, t, cs, Cand(n.(phase := Serving(t)), [], []));
    var c := Cand(n.(phase := Committing(t), accepting := true), [], []);
    OldTakes(d, w, t, o, t, cs, c.(toOld := [Stamped(Commit, t)]), Stamped(Commit, t));
  }

  lemma Acknowledged(d: Env, w: World)
    requires Idle(w)
    ensures Reaches(d, w, At(w.now, Offered(w).core.(phase := Acked), w.now, w.cands,
                    Cand(New(Primary, false, true, ID_GAP), [], [])))
  {
    CommitArrives(d, w);
    var t, cs, o, ack := w.now, w.cands, Offered(w).core, Stamped(CommitAck, w.now);
    var c := Cand(New(Committing(t), true, true, ID_GAP), [], []);
    OldGives(d, w, t, o.(phase := GiveAck), t, cs, c);
    assert [] + [ack] == [ack] == [ack] + [];
    NewTakes(d, w, t, o.(phase := Acked), t, cs, c.(toNew := [ack]), ack, []);
  }

  lemma Complete(d: Env, w: World)
    requires Idle(w)
    ensures Reaches(d, w, Completed(w))
  {
    Acknowledged(d, w);
    var t, o := w.now, Offered(w).core;
    var w1 := At(t, o.(phase := Acked), t, w.cands, Cand(New(Primary, false, true, ID_GAP), [], []));
    var w2 := w1.(core := o.(phase := Draining, accepting := false));
    Moves(d, w, w1, OldProceeds, w2);
    Moves(d, w, w2, CrashOld, Completed(w));
  }

  lemma Waits(d: Env, w: World, t: nat, o: Old, since: nat, cs: seq<Cand>, c: Cand, dt: nat)
    requires Reaches(d, w, At(t, o, since, cs, c)) && HoldsLink(o.phase)
    requires !c.n.phase.Gone? && LinkOnTime(d, o.phase, since, t + dt, c)
    ensures Reaches(d, w, At(t + dt, o, since, cs, c))
  {
    Moves(d, w, At(t, o, since, cs, c), Tick(dt), At(t + dt, o, since, cs, c));
  }

  /** A successor whose commit is on its way... */
  function Committed(): Cand {
    Cand(New(Committing(25_000), true, true, ID_GAP), [Stamped(Commit, 25_000)], [])
  }

  /** ...when the old core has just given up on it. */
  function GivenUp(): World {
    World(30_000, Old(Armed, 1, false, false, true), true, 30_000, [] + [Committed()])
  }

  lemma CommitComesTooLate(d: Env)
    requires d.delay >= 5_000
    ensures Reaches(d, Init(), GivenUp())
  {
    Offer(d, Init());
    var o, n, out := Offered(Init()).core, New(AwaitListeners(0), true, false, ID_GAP), Stamped(Listeners, 0);
    Waits(d, Init(), 0, o, 0, [], Cand(n, [], [out]), 5_000);
    assert [out] == [out] + [];
    NewTakes(d, Init(), 5_000, o, 0, [], Cand(n, [], [out]), out, []);
    var m := n.(phase := Serving(5_000));
    Waits(d, Init(), 5_000, o, 0, [], Cand(m, [], []), 20_000);
    NewGives(d, Init(), 25_000, o, 0, [], Cand(m, [], []));
    Waits(d, Init(), 25_000, o, 0, [], Committed(), 5_000);
    Moves(d, Init(), At(30_000, o, 0, [], Committed()), OldTimesOut, GivenUp());
  }

  /** A candidate that waits for a core that is gone becomes the primary. */
  lemma ClaimsTheRest(d: Env, w1: World) returns (w: World)
    requires Reaches(d, Init(), w1) && !w1.alive && |w1.cands| == 2
    requires w1.cands[0].n.phase.WaitGone? && w1.cands[1].n.phase.Primary?
    ensures Reachable(d, w) && !OnePrimary(w)
  {
    var c := w1.cands[0];
    w := Put(w1, 0, c.(n := NewNext(c.n, HolderGone, w1.now)));
    Moves(d, Init(), w1, NewSeesGone(0), w);
    assert NewIsPrimary(w, 0) && NewIsPrimary(w, 1);
  }

  /** The first successor finds the link closed and, later, its core gone. */
  lemma FirstOneClaims(d: Env, w1: World) returns (w: World)
    requires Reaches(d, Init(), w1) && w1 == Completed(GivenUp())
    ensures Reachable(d, w) && !OnePrimary(w)
  {
    var c := w1.cands[0];
    assert c == Committed();
    var w2 := Put(w1, 0, c.(n := NewNext(c.n, Broken, w1.now)));
    Moves(d, Init(), w1, Action.NewBroken(0), w2);
    w := ClaimsTheRest(d, w2);
  }

  /** With delays of five seconds a commit can arrive just as the old core gives
      up.  It arms again, hands over to a second successor at once and exits;
      the first one finds it gone and takes itself for the primary as well. */
  lemma SlowLinksBreakIt(d: Env) returns (w: World)
    requires d.delay >= 5_000
    ensures Reachable(d, w) && !OnePrimary(w)
  {
    CommitComesTooLate(d);
    Complete(d, GivenUp());
    var n: nat :| Within(StepOf(d), n, GivenUp(), Completed(GivenUp()));
    Onward(StepOf(d), Init(), GivenUp(), n, Completed(GivenUp()));
    w := FirstOneClaims(d, Completed(GivenUp()));
  }

  /** A successor has the listeners of a first core. */
  function InHand(): Cand {
    Cand(New(Serving(0), true, false, ID_GAP), [], [])
  }

  lemma CoreDies(d: Env)
    ensures Reaches(d, Init(), World(0, Offered(Init()).core, false, 0, [InHand()]))
  {
    Offer(d, Init());
    var o, n, out := Offered(Init()).core, New(AwaitListeners(0), true, false, ID_GAP), Stamped(Listeners, 0);
    assert [out] == [out] + [];
    NewTakes(d, Init(), 0, o, 0, [], Cand(n, [], [out]), out, []);
    assert [] + [InHand()] == [InHand()];
    Moves(d, Init(), At(0, o, 0, [], InHand()), CrashOld, World(0, o, false, 0, [InHand()]));
  }

  /** An unrelated process starting while the successor of a core that just
      died still holds its listeners makes two primaries at any speed. */
  lemma RacingStartBreaksIt(d: Env) returns (w: World)
    requires d.racing
    ensures Reachable(d, w) && !OnePrimary(w)
  {
    CoreDies(d);
    var o, f := Offered(Init()).core, New(NewPhase.Fresh, true, false, 0);
    var w1 := World(0, o, false, 0, [InHand()]);
    var w2 := w1.(cands := w1.cands + [Cand(f, [], [])]);
    Moves(d, Init(), w1, Start, w2);
    var p := Cand(f.(phase := Primary, held := false, accepting := true), [], []);
    Moves(d, Init(), w2, NewStartsFresh(1), w1.(cands := [InHand(), p]));
    w := LateClaim(d, o, p);
  }

  lemma LateClaim(d: Env, o: Old, p: Cand) returns (w: World)
    requires Reaches(d, Init(), World(0, o, false, 0, [InHand(), p])) && p.n.phase.Primary?
    ensures Reachable(d, w) && !OnePrimary(w)
  {
    var c, c1 := InHand(), Cand(New(WaitGone(0), true, true, ID_GAP), [], []);
    assert c.toOld + [] == [] && [c, p][0 := c1] == [c1, p];
    Moves(d, Init(), World(0, o, false, 0, [c, p]), NewSend(0), World(0, o, false, 0, [c1, p]));
    w := ClaimsTheRest(d, World(0, o, false, 0, [c1, p]));
  }

  ghost predicate Safe(d: Env) {
    forall w :: Reachable(d, w) ==> OnePrimary(w)
  }

  /** The hand-over never makes two primaries, whatever crashes and however
      often it is tried, exactly when delays stay under five seconds and no
      unrelated start races a successor. */
  lemma SafeExactlyWhen(d: Env)
    ensures Safe(d) <==> Kind(d)
  {
    if Kind(d) {
      forall w | Reachable(d, w) ensures OnePrimary(w) {
        AtMostOnePrimary(d, w);
      }
    } else if d.delay >= 5_000 {
      var w := SlowLinksBreakIt(d);
    } else {
      var w := RacingStartBreaksIt(d);
    }
  }

  /** And it does get there: a first hand-over can always complete. */
  lemma HandoverCanComplete(d: Env)
    ensures exists w :: Reachable(d, w) && w.core.phase.Draining? && NewIsPrimary(w, 0)
  {
    Complete(d, Init());
    assert Reachable(d, Completed(Init()));
    assert NewIsPrimary(Completed(Init()), 0);
  }
}
