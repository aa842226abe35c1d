/** Who writes the request history along a chain of hand-overs of any length.

    Processes are numbered in the order they start, and the number is the pid.
    A process opens the history when every process it waits for has ended. */
module History {
  import opened Lockfile
  import opened Runs

  datatype Role = Candidate | Main | Draining | Ended

  /** `pred`: the core it took over from, itself when it took the lock the
      ordinary way.  `claimed` and `noted`: whether the steps after the commit
      (naming itself in the lock, marking its predecessor) are done. */
  datatype Proc = Proc(role: Role, pred: nat, wait: set<nat>, open: bool, claimed: bool, noted: bool)

  datatype World = World(procs: seq<Proc>, lock: Holder, marks: seq<Mark>)

  /** `early`: a core may hand over before its own history is open.  `crash`:
      processes may end other than by finishing their drain.  `torn`: also
      between claiming the lock and marking the predecessor.  `racing`: a start may
      find the lock's holder gone while a successor of it has yet to claim it. */
  datatype Regime = Regime(early: bool, crash: bool, torn: bool, racing: bool)

  datatype Action =
    | Begin            // `LockFile::acquire` succeeds
    | Join             // the lock's holder is armed and gets a candidate
    | Commit
    | Claim(p: nat)
    | Note(p: nat)     // `mark_draining`
    | Open(p: nat)     // the recorder opens the history and prunes the marks
    | Leave(p: nat)    // the drain is done
    | Withdraw         // the candidate fails before its commit
    | Crash(p: nat)
    | Stop(p: nat)     // a main core is shut down and drops its lock

  predicate Lives(w: World, p: int) {
    0 <= p < |w.procs| && !w.procs[p].role.Ended?
  }

  function Living(w: World): (r: set<nat>)
    ensures forall p: nat :: p in r <==> Lives(w, p)
  {
    set p: nat | p < |w.procs| && Lives(w, p)
  }

  function Pids(marks: seq<Mark>): (r: set<nat>)
    ensures forall p :: p in r <==> exists m :: m in marks && m.pid == p
  {
    set m | m in marks :: m.pid
  }

  predicate Is(w: World, p: int, r: Role) {
    0 <= p < |w.procs| && w.procs[p].role == r
  }

  predicate LastIsCandidate(w: World) {
    Is(w, |w.procs| - 1, Candidate)
  }

  function Last(w: World): Proc
    requires w.procs != []
  {
    w.procs[|w.procs| - 1]
  }

  /** A successor that has yet to claim the lock. */
  predicate MayClaim(x: Proc) {
    x.role.Candidate? || (x.role.Main? && !x.claimed)
  }

  predicate Enabled(r: Regime, w: World, a: Action) {
    match a
    case Begin =>
      && !(w.lock.Pid? && Lives(w, w.lock.pid))
      && (r.racing || forall p :: 0 <= p < |w.procs| ==> !MayClaim(w.procs[p]))
    case Join => w.lock.Pid? && Is(w, w.lock.pid, Main) && w.procs[w.lock.pid].noted && !LastIsCandidate(w)
    case Commit =>
      && LastIsCandidate(w)
      && (r.early || !Lives(w, Last(w).pred) || w.procs[Last(w).pred].open)
    case Claim(p) => Is(w, p, Main) && !w.procs[p].claimed
    case Note(p) => Is(w, p, Main) && w.procs[p].claimed && !w.procs[p].noted
    case Open(p) => Lives(w, p) && !w.procs[p].open && forall x :: x in w.procs[p].wait ==> !Lives(w, x)
    case Leave(p) => Is(w, p, Draining) && w.procs[p].open
    case Withdraw => LastIsCandidate(w)
    case Crash(p) => r.crash && Lives(w, p) && (r.torn || w.procs[p].claimed == w.procs[p].noted)
    case Stop(p) => r.crash && Is(w, p, Main) && w.procs[p].noted
  }

  function Set(w: World, p: nat, x: Proc): World
    requires p < |w.procs|
  {
    w.(procs := w.procs[p := x])
  }

  function End(w: World, p: nat): World
    requires p < |w.procs|
  {
    Set(w, p, w.procs[p].(role := Ended))
  }

  function Apply(r: Regime, w: World, a: Action): World
    requires Enabled(r, w, a)
  {
    var n := |w.procs|;
    match a
    case Begin =>
      var wait := Pids(LiveMarks(w.marks, Living(w), n, 0));
      World(w.procs + [Proc(Main, n, wait, wait == {}, true, true)], Pid(n), w.marks)
    case Join =>
      var wait := Pids(LiveMarks(w.marks, Living(w), n, 0)) + {w.lock.pid};
      w.(procs := w.procs + [Proc(Candidate, w.lock.pid, wait, false, false, false)])
    case Commit =>
      var q := w.procs[n - 1].pred;
      var w' := Set(w, n - 1, w.procs[n - 1].(role := Main));
      if q < n - 1 && Lives(w, q) then Set(w', q, w.procs[q].(role := Draining)) else w'
    case Claim(p) => Set(w, p, w.procs[p].(claimed := true)).(lock := Pid(p))
    case Note(p) =>
      Set(w, p, w.procs[p].(noted := true)).(marks := Marked(w.marks, Living(w), p, Mark(w.procs[p].pred, 0, 0)))
    case Open(p) => Set(w, p, w.procs[p].(open := true)).(marks := LiveMarks(w.marks, Living(w), p, 0))
    case Leave(p) => End(w, p)
    case Withdraw => End(w, n - 1)
    case Crash(p) => End(w, p)
    case Stop(p) => End(w, p).(lock := Dropped(w.lock, w.marks, Living(w), p, true, 0))
  }

  function Init(): World {
    World([], Absent, [])
  }

  ghost function StepOf(r: Regime): (World, Action, World) -> bool {
    (w, a, w') => Enabled(r, w, a) && Apply(r, w, a) == w'
  }

  ghost predicate Reachable(r: Regime, w: World) {
    Leads(StepOf(r), Init(), w)
  }

  predicate Writes(w: World, p: int) {
    Lives(w, p) && w.procs[p].open
  }

  ghost predicate OneWriter(w: World) {
    forall p, q :: Writes(w, p) && Writes(w, q) ==> p == q
  }

  // ------------------------------------------------------------- the invariant

  /** Everything that started before `p` has ended. */
  ghost predicate Alone(w: World, p: int) {
    forall a :: 0 <= a < p ==> !Lives(w, a)
  }

  /** How far the steps around a commit have got. */
  ghost predicate StageOk(w: World, p: nat)
    requires p < |w.procs|
  {
    var x := w.procs[p];
    && x.pred <= p
    && (x.noted ==> x.claimed)
    && (x.pred == p ==> x.noted)
    && (x.pred < p ==> x.pred in x.wait && w.procs[x.pred].noted)
    && (forall a :: a in x.wait ==> a < p)
    && (x.role.Candidate? ==> p == |w.procs| - 1 && !x.claimed)
    && (x.role.Draining? ==> x.noted)
    && (x.role.Main? && x.claimed ==> w.lock == Pid(p))
    && (x.role.Candidate? || (x.role.Main? && !x.claimed) ==> w.lock == Pid(x.pred) || !Lives(w, x.pred))
  }

  /** Which roles can live beside each other. */
  ghost predicate RolesOk(w: World, p: nat)
    requires p < |w.procs|
  {
    var x := w.procs[p];
    && (!x.role.Ended? ==> forall a :: x.pred < a < p ==> !Lives(w, a))
    && (x.role.Main? ==>
          forall a :: Lives(w, a) && a != p ==> Is(w, a, if a < p then Draining else Candidate))
    && (x.role.Candidate? ==>
          forall a :: Lives(w, a) && a < p ==> Is(w, a, if a == x.pred then Main else Draining))
  }

  /** Why nothing older than a writer lives: when all are careful, wait sets are
      complete and drained cores can be found again; when processes end by
      draining only, whoever took part was alone when it ended. */
  ghost predicate OrderOk(r: Regime, w: World, p: nat)
    requires p < |w.procs|
  {
    var x := w.procs[p];
    && (!x.role.Ended? && x.open ==> Alone(w, p))
    && (Careful(r) && !x.role.Ended? ==> forall a :: 0 <= a < p && Lives(w, a) ==> a in x.wait)
    && (Careful(r) && x.role.Draining? ==> x.open && (p in Pids(w.marks) || Settled(w, p) || Orphaned(w, p)))
    && (!r.crash && x.role.Ended? && x.claimed ==> Alone(w, p))
    && (!r.crash && x.pred == p ==> p == 0)
  }

  ghost predicate ProcOk(r: Regime, w: World, p: nat)
    requires p < |w.procs|
  {
    StageOk(w, p) && RolesOk(w, p) && OrderOk(r, w, p)
  }

  ghost predicate Settled(w: World, p: int) {
    exists m :: Settles(w, m, p)
  }

  /** Its successor died before it claimed the lock, which therefore still names
      `p` and keeps everybody out. */
  ghost predicate Orphaned(w: World, p: int) {
    w.lock.Pid? && w.lock.pid == p && forall a :: Lives(w, a) ==> Is(w, a, Draining)
  }

  /** `m` has yet to mark its predecessor `p`. */
  predicate Settles(w: World, m: int, p: int) {
    Is(w, m, Main) && !w.procs[m].noted && w.procs[m].pred == p
  }

  ghost predicate Inv(r: Regime, w: World) {
    && (forall p :: 0 <= p < |w.procs| ==> ProcOk(r, w, p))
    && (!r.crash && w.procs != [] ==> exists m :: Is(w, m, Main))
  }

  predicate Sound(r: Regime) {
    !r.racing && !(r.crash && (r.early || r.torn))
  }

  /** No core hands over before its history is open, none dies between claiming
      the lock and marking its predecessor, and no start races a successor. */
  predicate Careful(r: Regime) {
    !r.early && !r.racing && !(r.crash && r.torn)
  }

  lemma LivesAfterEnd(w: World, p: nat)
    requires p < |w.procs|
    ensures forall a :: Lives(End(w, p), a) <==> Lives(w, a) && a != p
    ensures forall a, q :: q != Ended && Is(End(w, p), a, q) ==> Is(w, a, q) && a != p
    ensures forall a, q :: Is(w, a, q) && a != p ==> Is(End(w, p), a, q)
  {
  }

  /** Ending `p` disturbs nobody else, whatever the lock becomes. */
  lemma EndKeeps(r: Regime, w: World, p: nat, lock: Holder)
    requires Inv(r, w) && Lives(w, p)
    requires lock == w.lock || (lock == Absent && Is(w, p, Main) && w.lock == Pid(p) && w.procs[p].noted)
    requires !r.crash ==> w.procs[p].open || w.procs[p].role.Candidate?
    requires !r.crash ==> !w.procs[p].role.Main?
    requires w.procs[p].role.Main? ==> w.procs[p].claimed == w.procs[p].noted
    ensures Inv(r, End(w, p).(lock := lock))
  {
    var w' := End(w, p).(lock := lock);
    LivesAfterEnd(w, p);
    assert forall a :: Lives(w', a) <==> Lives(End(w, p), a);
    assert forall a, q :: Is(w', a, q) <==> Is(End(w, p), a, q);
    assert ProcOk(r, w, p);
    forall x: nat | x < |w'.procs|
      ensures ProcOk(r, w', x)
    {
      assert ProcOk(r, w, x);
      assert x != p ==> w'.procs[x] == w.procs[x];
      assert StageOk(w', x);
      assert RolesOk(w', x);
      if Careful(r) && w'.procs[x].role.Draining? && x !in Pids(w'.marks) {
        if Settled(w, x) {
          var m :| Settles(w, m, x);
          if m == p {
            forall a | Lives(w', a) ensures Is(w', a, Draining) {
              assert ProcOk(r, w, a);
            }
            assert Orphaned(w', x);
          } else {
            assert Settles(w', m, x);
          }
        } else {
          assert Orphaned(w', x);
        }
      }
      assert OrderOk(r, w', x);
    }
    if !r.crash {
      var m :| Is(w, m, Main);
      assert Is(w', m, Main);
    }
  }

  lemma LivesAfterSet(w: World, p: nat, x: Proc)
    requires p < |w.procs|
    requires x.role.Ended? <==> w.procs[p].role.Ended?
    ensures forall a :: Lives(Set(w, p, x), a) <==> Lives(w, a)
    ensures Living(Set(w, p, x)) == Living(w)
    ensures forall a, q :: a != p ==> (Is(Set(w, p, x), a, q) <==> Is(w, a, q))
  {
    var w' := Set(w, p, x);
    assert forall a :: Lives(w', a) <==> Lives(w, a);
  }

  lemma LivesAfterAppend(w: World, x: Proc)
    requires !x.role.Ended?
    ensures forall a :: Lives(w.(procs := w.procs + [x]), a) <==> Lives(w, a) || a == |w.procs|
    ensures forall a, q :: a != |w.procs| ==> (Is(w.(procs := w.procs + [x]), a, q) <==> Is(w, a, q))
  {
  }

  /** A drained core that can still be found is among the marks, once nobody has
      yet to write its own. */
  lemma Covered(r: Regime, w: World)
    requires Inv(r, w) && Careful(r)
    requires forall m :: Is(w, m, Main) ==> w.procs[m].noted
    requires !(w.lock.Pid? && Is(w, w.lock.pid, Draining))
    ensures forall d: nat :: Is(w, d, Draining) ==> d in Pids(LiveMarks(w.marks, Living(w), |w.procs|, 0))
  {
    forall d: nat | Is(w, d, Draining)
      ensures d in Pids(LiveMarks(w.marks, Living(w), |w.procs|, 0))
    {
      assert ProcOk(r, w, d);
      var m :| m in w.marks && m.pid == d;
      assert Lives(w, d);
      assert m in LiveMarks(w.marks, Living(w), |w.procs|, 0);
    }
  }

  lemma AfterBegin(r: Regime, w: World)
    requires Sound(r) && Inv(r, w) && Enabled(r, w, Begin)
    ensures Inv(r, Apply(r, w, Begin))
  {
    var w', n := Apply(r, w, Begin), |w.procs|;
    LivesAfterAppend(w, w'.procs[n]);
    assert forall a :: Lives(w', a) <==> Lives(w, a) || a == n;
    forall a | Lives(w, a) ensures Is(w, a, Draining) {
      assert ProcOk(r, w, a);
    }
    assert forall m :: Is(w, m, Main) ==> Lives(w, m);
    if Careful(r) {
      Covered(r, w);
      assert forall a: nat :: Lives(w, a) ==> Is(w, a, Draining);
      assert forall a: nat :: Lives(w, a) ==> a in w'.procs[n].wait;
    }
    if !r.crash {
      assert forall m :: !Is(w, m, Main);
    }
    forall x: nat | x < |w'.procs|
      ensures ProcOk(r, w', x)
    {
      if x < n {
        assert ProcOk(r, w, x) && w'.procs[x] == w.procs[x];
      }
      assert StageOk(w', x);
      assert RolesOk(w', x);
      assert OrderOk(r, w', x);
    }
    assert Is(w', n, Main);
  }

  /** Beside an armed core only older cores live, and they drain. */
  lemma OthersDrain(r: Regime, w: World)
    requires Inv(r, w) && Enabled(r, w, Join)
    ensures forall a :: Lives(w, a) && a != w.lock.pid ==> Is(w, a, Draining) && a < w.lock.pid
  {
    assert ProcOk(r, w, w.lock.pid);
    forall a | Lives(w, a) && a != w.lock.pid ensures Is(w, a, Draining) && a < w.lock.pid {
      assert ProcOk(r, w, a);
    }
  }

  lemma JoinKeeps(r: Regime, w: World, x: nat)
    requires Inv(r, w) && Enabled(r, w, Join) && x < |w.procs|
    ensures ProcOk(r, Apply(r, w, Join), x)
  {
    var w' := Apply(r, w, Join);
    LivesAfterAppend(w, w'.procs[|w.procs|]);
    OthersDrain(r, w);
    assert ProcOk(r, w, x) && w'.procs[x] == w.procs[x];
    assert forall m :: Is(w, m, Main) ==> Lives(w, m) && (m != w.lock.pid ==> Is(w, m, Draining));
    assert Lives(w, w.lock.pid) && !Settled(w, x) && !Orphaned(w, x);
    assert StageOk(w', x);
    assert RolesOk(w', x);
    assert OrderOk(r, w', x);
  }

  lemma JoinerOk(r: Regime, w: World)
    requires Inv(r, w) && Enabled(r, w, Join)
    ensures ProcOk(r, Apply(r, w, Join), |w.procs|)
  {
    var w', n := Apply(r, w, Join), |w.procs|;
    LivesAfterAppend(w, w'.procs[n]);
    OthersDrain(r, w);
    assert ProcOk(r, w, w.lock.pid);
    if Careful(r) {
      assert forall m :: Is(w, m, Main) ==> Lives(w, m) && (m != w.lock.pid ==> Is(w, m, Draining));
      Covered(r, w);
    }
    assert StageOk(w', n);
    assert RolesOk(w', n);
    assert OrderOk(r, w', n);
  }

  lemma AfterJoin(r: Regime, w: World)
    requires Inv(r, w) && Enabled(r, w, Join)
    ensures Inv(r, Apply(r, w, Join))
  {
    var w', n := Apply(r, w, Join), |w.procs|;
    forall x: nat | x < |w'.procs| ensures ProcOk(r, w', x) {
      if x < n {
        JoinKeeps(r, w, x);
      } else {
        JoinerOk(r, w);
      }
    }
    assert Is(w', w.lock.pid, Main);
  }

  /** A commit leaves one main core, the last one; all others drain. */
  lemma OnlyTheNewMain(r: Regime, w: World)
    requires Inv(r, w) && Enabled(r, w, Commit)
    ensures var w', n, q := Apply(r, w, Commit), |w.procs|, Last(w).pred;
      && (forall a :: Lives(w', a) <==> Lives(w, a))
      && (forall a :: Lives(w', a) && a != n - 1 ==> Is(w', a, Draining))
      && (forall m :: Is(w, m, Main) ==> m == q)
  {
    var w', n, q := Apply(r, w, Commit), |w.procs|, Last(w).pred;
    assert ProcOk(r, w, n - 1);
    assert forall a :: Lives(w', a) <==> Lives(w, a);
    assert Lives(w, q) ==> Is(w, q, Main);
    forall a | Lives(w', a) && a != n - 1 ensures Is(w', a, Draining) {
      assert Is(w, a, if a == q then Main else Draining);
    }
    forall m | Is(w, m, Main) ensures m == q {
      assert Lives(w, m);
    }
  }

  lemma CommitKeeps(r: Regime, w: World, x: nat)
    requires Sound(r) && Inv(r, w) && Enabled(r, w, Commit) && x < |w.procs|
    ensures ProcOk(r, Apply(r, w, Commit), x)
  {
    var w', n, q := Apply(r, w, Commit), |w.procs|, Last(w).pred;
    assert ProcOk(r, w, n - 1) && ProcOk(r, w, x);
    OnlyTheNewMain(r, w);
    assert Lives(w', x) && x != n - 1 ==> Is(w', x, Draining);
    assert StageOk(w', x);
    assert RolesOk(w', x);
    if Careful(r) && w'.procs[x].role.Draining? && x !in Pids(w'.marks) {
      if x == q {
        assert Settles(w', n - 1, x);
      } else {
        assert !Settled(w, x);
      }
    }
    assert OrderOk(r, w', x);
  }

  lemma AfterCommit(r: Regime, w: World)
    requires Sound(r) && Inv(r, w) && Enabled(r, w, Commit)
    ensures Inv(r, Apply(r, w, Commit))
  {
    var w', n := Apply(r, w, Commit), |w.procs|;
    forall x: nat | x < |w'.procs| ensures ProcOk(r, w', x) {
      CommitKeeps(r, w, x);
    }
    assert Is(w', n - 1, Main);
  }

  lemma AfterClaim(r: Regime, w: World, p: nat)
    requires Inv(r, w) && Enabled(r, w, Claim(p))
    ensures Inv(r, Apply(r, w, Claim(p)))
  {
    var w' := Apply(r, w, Claim(p));
    LivesAfterSet(w, p, w'.procs[p]);
    assert forall a :: Lives(w', a) <==> Lives(w, a);
    assert ProcOk(r, w, p);
    assert Lives(w, p);
    forall a | Lives(w, a) && a != p ensures Is(w, a, Draining) {
      assert ProcOk(r, w, a);
      assert Is(w, a, Candidate) ==> Is(w, p, if p == w.procs[a].pred then Main else Draining);
    }
    forall x: nat | x < |w'.procs|
      ensures ProcOk(r, w', x)
    {
      assert ProcOk(r, w, x);
      assert Lives(w, x) && x != p ==> Is(w, x, Draining);
      assert Lives(w, p) && !Orphaned(w, x);
      assert StageOk(w', x);
      assert RolesOk(w', x);
      if Settled(w, x) {
        var m :| Settles(w, m, x);
        assert Settles(w', m, x);
      }
      assert OrderOk(r, w', x);
    }
    assert Is(w', p, Main);
  }

  lemma AfterNote(r: Regime, w: World, p: nat)
    requires Inv(r, w) && Enabled(r, w, Note(p))
    ensures Inv(r, Apply(r, w, Note(p)))
  {
    var w' := Apply(r, w, Note(p));
    LivesAfterSet(w, p, w'.procs[p]);
    assert forall a :: Lives(w', a) <==> Lives(w, a);
    assert ProcOk(r, w, p);
    var m' := Mark(w.procs[p].pred, 0, 0);
    assert m' in w'.marks;
    forall x: nat | x < |w'.procs|
      ensures ProcOk(r, w', x)
    {
      assert ProcOk(r, w, x);
      assert StageOk(w', x);
      assert RolesOk(w', x);
      if Careful(r) && w.procs[x].role.Draining? {
        NoteKeeps(r, w, p, x);
      }
      assert OrderOk(r, w', x);
    }
    assert Is(w', p, Main);
  }

  lemma NoteKeeps(r: Regime, w: World, p: nat, x: nat)
    requires Inv(r, w) && Enabled(r, w, Note(p)) && Careful(r) && Is(w, x, Draining)
    ensures x in Pids(Apply(r, w, Note(p)).marks)
  {
    var w' := Apply(r, w, Note(p));
    assert ProcOk(r, w, x) && ProcOk(r, w, p);
    forall m | Is(w, m, Main) ensures m == p {
      assert Lives(w, m);
    }
    if x == w.procs[p].pred {
      assert Mark(x, 0, 0) in w'.marks;
    } else {
      assert Lives(w, p) && !Orphaned(w, x) && !Settled(w, x);
      var m :| m in w.marks && m.pid == x;
      assert Stands(m, Living(w), p, 0);
      assert m in w'.marks;
    }
  }

  lemma AfterOpen(r: Regime, w: World, p: nat)
    requires Sound(r) && Inv(r, w) && Enabled(r, w, Open(p))
    ensures Inv(r, Apply(r, w, Open(p)))
  {
    var w' := Apply(r, w, Open(p));
    LivesAfterSet(w, p, w'.procs[p]);
    assert forall a :: Lives(w', a) <==> Lives(w, a);
    assert ProcOk(r, w, p);
    if w.procs[p].pred < p {
      assert ProcOk(r, w, w.procs[p].pred);
    }
    assert Alone(w, p) && Lives(w, p);
    forall x: nat | x < |w'.procs|
      ensures ProcOk(r, w', x)
    {
      assert ProcOk(r, w, x);
      assert x < p ==> !Lives(w, x);
      assert x > p ==> !Alone(w, x);
      assert StageOk(w', x);
      assert RolesOk(w', x);
      assert OrderOk(r, w', x);
    }
    if !r.crash {
      var m :| Is(w, m, Main);
      assert Is(w', m, Main);
    }
  }

  // ------------------------------------------------------------- the theorem

  lemma StepKeeps(r: Regime, w: World, a: Action)
    requires Sound(r) && Inv(r, w) && Enabled(r, w, a)
    ensures Inv(r, Apply(r, w, a))
  {
    match a
    case Begin => AfterBegin(r, w);
    case Join => AfterJoin(r, w);
    case Commit => AfterCommit(r, w);
    case Claim(p) => AfterClaim(r, w, p);
    case Note(p) => AfterNote(r, w, p);
    case Open(p) => AfterOpen(r, w, p);
    case Leave(p) => EndKeeps(r, w, p, w.lock);
    case Withdraw => EndKeeps(r, w, |w.procs| - 1, w.lock);
    case Crash(p) =>
      assert ProcOk(r, w, p);
      EndKeeps(r, w, p, w.lock);
    case Stop(p) =>
      assert ProcOk(r, w, p);
      EndKeeps(r, w, p, Dropped(w.lock, w.marks, Living(w), p, true, 0));
  }

  ghost function InvOf(r: Regime): World -> bool {
    w => Inv(r, w)
  }

  lemma InitHolds(r: Regime)
    ensures InvOf(r)(Init())
  {
  }

  lemma StepLeads(r: Regime, m: World, a: Action, w: World)
    requires Sound(r) && InvOf(r)(m) && StepOf(r)(m, a, w)
    ensures InvOf(r)(w)
  {
    StepKeeps(r, m, a);
  }

  lemma ReachableHolds(r: Regime, w: World)
    requires Sound(r) && Reachable(r, w)
    ensures Inv(r, w)
  {
    InitHolds(r);
    forall m, a, m' | InvOf(r)(m) && StepOf(r)(m, a, m') ensures InvOf(r)(m') {
      StepLeads(r, m, a, m');
    }
    var n: nat :| Within(StepOf(r), n, Init(), w);
    Holds(StepOf(r), InvOf(r), Init(), n, w);
  }

  lemma AtMostOneWriter(r: Regime, w: World)
    requires Sound(r) && Reachable(r, w)
    ensures OneWriter(w)
    ensures forall p: nat :: Writes(w, p) ==> Alone(w, p)
  {
    ReachableHolds(r, w);
    forall p: nat | Writes(w, p) ensures Alone(w, p) {
      assert ProcOk(r, w, p);
    }
    forall p, q | Writes(w, p) && Writes(w, q) ensures p == q {
      assert Alone(w, p) && Alone(w, q) && Lives(w, p) && Lives(w, q);
    }
  }
}
