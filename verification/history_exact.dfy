/** When the request history has one writer, exactly. */
module HistoryExact {
  import opened Lockfile
  import opened History
  import opened Runs

  lemma Then(r: Regime, w1: World, a: Action, w2: World)
    requires Reachable(r, w1) && Enabled(r, w1, a) && Apply(r, w1, a) == w2
    ensures Reachable(r, w2)
  {
    Go(StepOf(r), Init(), w1, a, w2);
  }

  lemma NoMarks(living: set<nat>, self: nat)
    ensures LiveMarks([], living, self, 0) == [] && Pids([]) == {}
  {
  }

  lemma OneMark(m: Mark, living: set<nat>, self: nat)
    ensures LiveMarks([m], living, self, 0) == if Stands(m, living, self, 0) then [m] else []
    ensures Pids([m]) == {m.pid}
  {
    assert [m][..0] == [];
  }

  lemma TwoMarks(m: Mark, n: Mark, living: set<nat>, self: nat)
    ensures LiveMarks([m, n], living, self, 0) ==
            (if Stands(m, living, self, 0) then [m] else []) + (if Stands(n, living, self, 0) then [n] else [])
  {
    assert [m, n][..1] == [m];
    OneMark(m, living, self);
  }

  const A0: Proc := Proc(Main, 0, {}, true, true, true)
  const A1: Proc := Proc(Draining, 0, {}, true, true, true)
  const B0: Proc := Proc(Candidate, 0, {0}, false, false, false)

  /** The first core hands over to the second... */
  lemma HandsOver(r: Regime)
    ensures Reachable(r, World([A1, B0.(role := Main)], Pid(0), []))
  {
    Here(StepOf(r), Init());
    NoMarks({}, 0);
    var w1 := World([A0], Pid(0), []);
    assert [] + [A0] == [A0];
    Then(r, Init(), Begin, w1);
    NoMarks(Living(w1), 1);
    var w2 := World([A0, B0], Pid(0), []);
    assert {} + {0} == {0};
    Then(r, w1, Join, w2);
    var w3 := World([A1, B0.(role := Main)], Pid(0), []);
    Then(r, w2, Commit, w3);
  }

  /** ...which is about to name itself. */
  lemma Start(r: Regime)
    ensures Reachable(r, World([A1, B0.(role := Main, claimed := true)], Pid(1), []))
  {
    HandsOver(r);
    var w3 := World([A1, B0.(role := Main)], Pid(0), []);
    Then(r, w3, Claim(1), World([A1, B0.(role := Main, claimed := true)], Pid(1), []));
  }

  /** Every older process that lives is waited for. */
  ghost predicate Covers(w: World) {
    forall p, a :: 0 <= a < p && Lives(w, p) && Lives(w, a) ==> a in w.procs[p].wait
  }

  /** A successor that dies after it claimed the lock and before it marked its
      predecessor leaves a drained core that nobody can find. */
  lemma TornCommitHides(r: Regime) returns (w: World)
    requires r.crash && r.torn
    ensures Reachable(r, w) && Enabled(r, w, Begin) && Writes(w, 0) && w.marks == []
  {
    Start(r);
    var b := B0.(role := Main, claimed := true);
    w := World([A1, b.(role := Ended)], Pid(1), []);
    Then(r, World([A1, b], Pid(1), []), Crash(1), w);
  }

  lemma TornCommitBreaksIt(r: Regime) returns (w: World)
    requires r.crash && r.torn
    ensures Reachable(r, w) && !OneWriter(w) && !Covers(w)
  {
    var w1 := TornCommitHides(r);
    w := HiddenBreaksIt(r, w1, 0);
  }

  const M0: Mark := Mark(0, 0, 0)
  const M1: Mark := Mark(1, 0, 0)
  const B2: Proc := Proc(Main, 0, {0}, false, true, true)
  const B3: Proc := Proc(Draining, 0, {0}, false, true, true)
  const C0: Proc := Proc(Candidate, 1, {0, 1}, false, false, false)
  const C2: Proc := Proc(Main, 1, {0, 1}, false, true, true)

  lemma FirstNoted(r: Regime)
    ensures Reachable(r, World([A1, B2], Pid(1), [M0]))
  {
    Start(r);
    var w1 := World([A1, B2.(noted := false)], Pid(1), []);
    assert LiveMarks([], Living(w1), 1, 0) == [] && Without([], 0) == [] && [] + [M0] == [M0];
    Then(r, w1, Note(1), World([A1, B2], Pid(1), [M0]));
  }

  lemma SecondJoined(r: Regime)
    ensures Reachable(r, World([A1, B2, C0], Pid(1), [M0]))
  {
    FirstNoted(r);
    var w1 := World([A1, B2], Pid(1), [M0]);
    OneMark(M0, Living(w1), 2);
    assert Lives(w1, 0) && LiveMarks([M0], Living(w1), 2, 0) == [M0];
    assert Pids([M0]) + {1} == {0, 1};
    assert [A1, B2] + [C0] == [A1, B2, C0];
    Then(r, w1, Join, World([A1, B2, C0], Pid(1), [M0]));
  }

  lemma SecondCommitted(r: Regime)
    requires r.early
    ensures Reachable(r, World([A1, B3, C2.(noted := false)], Pid(2), [M0]))
  {
    SecondJoined(r);
    var w1 := World([A1, B2, C0], Pid(1), [M0]);
    var w2 := World([A1, B3, C0.(role := Main)], Pid(1), [M0]);
    Then(r, w1, Commit, w2);
    Then(r, w2, Claim(2), World([A1, B3, C2.(noted := false)], Pid(2), [M0]));
  }

  lemma SecondMark(living: set<nat>)
    requires 0 in living
    ensures Marked([M0], living, 2, M1) == [M0, M1]
  {
    OneMark(M0, living, 2);
    assert [M0][..0] == [];
    assert Without([M0], 1) == [M0] && [M0] + [M1] == [M0, M1];
  }

  /** Two cores drain at once behind a third. */
  lemma TwoDraining(r: Regime)
    requires r.early
    ensures Reachable(r, World([A1, B3, C2], Pid(2), [M0, M1]))
  {
    SecondCommitted(r);
    var w1 := World([A1, B3, C2.(noted := false)], Pid(2), [M0]);
    assert Lives(w1, 0);
    SecondMark(Living(w1));
    Then(r, w1, Note(2), World([A1, B3, C2], Pid(2), [M0, M1]));
  }

  /** A core that handed over before its own history was open opens it while it
      drains, and prunes its own mark. */
  lemma PrunedItself(r: Regime) returns (w: World)
    requires r.early
    ensures Reachable(r, w)
    ensures w == World([A1.(role := Ended), B3.(open := true), C2], Pid(2), [])
  {
    TwoDraining(r);
    var w1 := World([A1, B3, C2], Pid(2), [M0, M1]);
    var w2 := World([A1.(role := Ended), B3, C2], Pid(2), [M0, M1]);
    Then(r, w1, Leave(0), w2);
    TwoMarks(M0, M1, Living(w2), 1);
    var b := B3.(open := true);
    var w3 := World([A1.(role := Ended), b, C2], Pid(2), []);
    Then(r, w2, Open(1), w3);
    w := w3;
  }

  /** Then its successor dies, and nobody can find it. */
  lemma EarlyHandoverHides(r: Regime) returns (w: World)
    requires r.crash && r.early
    ensures Reachable(r, w) && Enabled(r, w, Begin) && Lives(w, 1) && w.procs[1].open && w.marks == []
    ensures |w.procs| == 3
  {
    var w1 := PrunedItself(r);
    w := World(w1.procs[2 := C2.(role := Ended)], Pid(2), []);
    Then(r, w1, Crash(2), w);
  }

  /** The next core starts writing beside whoever cannot be found. */
  lemma HiddenBreaksIt(r: Regime, w1: World, d: nat) returns (w: World)
    requires Reachable(r, w1) && Enabled(r, w1, Begin) && Writes(w1, d) && w1.marks == []
    ensures Reachable(r, w) && !OneWriter(w) && !Covers(w)
  {
    NoMarks(Living(w1), |w1.procs|);
    w := Apply(r, w1, Begin);
    Then(r, w1, Begin, w);
    assert Writes(w, d) && Writes(w, |w1.procs|);
    assert Lives(w, d) && d !in w.procs[|w1.procs|].wait;
  }

  lemma EarlyHandoverBreaksIt(r: Regime) returns (w: World)
    requires r.crash && r.early
    ensures Reachable(r, w) && !OneWriter(w)
  {
    var w1 := EarlyHandoverHides(r);
    w := HiddenBreaksIt(r, w1, 1);
  }

  /** The first core has drained before the second claims its lock. */
  lemma LockIsStale(r: Regime) returns (w: World)
    requires r.racing
    ensures Reachable(r, w) && Enabled(r, w, Begin) && Lives(w, 1) && w.marks == []
    ensures w == World([A1.(role := Ended), B0.(role := Main)], Pid(0), [])
  {
    HandsOver(r);
    w := World([A1.(role := Ended), B0.(role := Main)], Pid(0), []);
    Then(r, World([A1, B0.(role := Main)], Pid(0), []), Leave(0), w);
  }

  /** A third takes the lock first and opens the history at once; so does the
      second. */
  lemma RacingStartBreaksIt(r: Regime) returns (w: World)
    requires r.racing
    ensures Reachable(r, w) && !OneWriter(w) && !Covers(w)
  {
    var w1 := LockIsStale(r);
    NoMarks(Living(w1), 2);
    var c := Proc(Main, 2, {}, true, true, true);
    var w2 := w1.(procs := w1.procs + [c], lock := Pid(2));
    Then(r, w1, Begin, w2);
    NoMarks(Living(w2), 1);
    w := w2.(procs := w2.procs[1 := B0.(role := Main, open := true)]);
    Then(r, w2, Open(1), w);
    assert Writes(w, 1) && Writes(w, 2);
    assert Lives(w, 1) && 1 !in w.procs[2].wait;
  }

  ghost predicate Safe(r: Regime) {
    forall w :: Reachable(r, w) ==> OneWriter(w)
  }

  /** Along chains of any length one process at most writes the history, exactly
      when no start races a successor, and either every process ends by finishing
      its drain, or cores hand over only once their own history is open and none
      dies between claiming the lock and marking its predecessor. */
  lemma SafeExactlyWhen(r: Regime)
    ensures Safe(r) <==> Sound(r)
  {
    if Sound(r) {
      forall w | Reachable(r, w) ensures OneWriter(w) {
        AtMostOneWriter(r, w);
      }
    } else if r.racing {
      var w := RacingStartBreaksIt(r);
    } else if r.early {
      var w := EarlyHandoverBreaksIt(r);
    } else {
      var w := TornCommitBreaksIt(r);
    }
  }

  /** When the core in the middle opened its history while it drained, the next
      one to join no longer finds its mark. */
  lemma EarlyHandoverUncovers(r: Regime) returns (w: World)
    requires r.early
    ensures Reachable(r, w) && !Covers(w)
  {
    var w1 := PrunedItself(r);
    NoMarks(Living(w1), 3);
    assert {} + {2} == {2};
    w := w1.(procs := w1.procs + [Proc(Candidate, 2, {2}, false, false, false)]);
    Then(r, w1, Join, w);
    assert Lives(w, 1) && Lives(w, 3) && 1 !in w.procs[3].wait;
  }

  /** Along chains of any length a process waits for every older process that
      lives, its draining ancestors and its predecessor, exactly when all are
      careful. */
  lemma WaitsCoverExactlyWhen(r: Regime)
    ensures (forall w :: Reachable(r, w) ==> Covers(w)) <==> Careful(r)
  {
    if Careful(r) {
      forall w | Reachable(r, w) ensures Covers(w) {
        ReachableHolds(r, w);
        forall p, a | 0 <= a < p && Lives(w, p) && Lives(w, a) ensures a in w.procs[p].wait {
          assert ProcOk(r, w, p);
        }
      }
    } else if r.racing {
      var w := RacingStartBreaksIt(r);
    } else if r.early {
      var w := EarlyHandoverUncovers(r);
    } else {
      var w := TornCommitBreaksIt(r);
    }
  }

  /** A start that takes the lock the ordinary way waits for `d`. */
  predicate StartWaitsFor(r: Regime, w: World, d: int)
    requires Enabled(r, w, Begin)
  {
    var x := Last(Apply(r, w, Begin));
    d in x.wait && !x.open
  }

  /** Such a start sees every core that still drains. */
  ghost predicate StartsWait(r: Regime) {
    forall w, d :: Reachable(r, w) && Enabled(r, w, Begin) && Lives(w, d) ==> StartWaitsFor(r, w, d)
  }

  lemma FreshStartWaits(r: Regime, w: World, d: int)
    requires Sound(r) && Reachable(r, w) && Enabled(r, w, Begin) && Lives(w, d)
    ensures StartWaitsFor(r, w, d)
  {
    ReachableHolds(r, w);
    var w', n := Apply(r, w, Begin), |w.procs|;
    AfterBegin(r, w);
    assert ProcOk(r, w', n) && Lives(w', d) && Lives(w', n);
  }

  /** A fresh start opens the history only when nobody drains any more, exactly
      in the regimes that have one writer. */
  lemma FreshStartsWaitExactlyWhen(r: Regime)
    ensures StartsWait(r) <==> Sound(r)
  {
    if Sound(r) {
      forall w, d | Reachable(r, w) && Enabled(r, w, Begin) && Lives(w, d) ensures StartWaitsFor(r, w, d) {
        FreshStartWaits(r, w, d);
      }
    } else if r.racing {
      var w := LockIsStale(r);
      NoMarks(Living(w), |w.procs|);
      assert !StartWaitsFor(r, w, 1);
    } else if r.early {
      var w := EarlyHandoverHides(r);
      NoMarks(Living(w), |w.procs|);
      assert !StartWaitsFor(r, w, 1);
    } else {
      var w := TornCommitHides(r);
      NoMarks(Living(w), |w.procs|);
      assert !StartWaitsFor(r, w, 0);
    }
  }
}
