/** The lock and the draining marks in the data directory.  `living` is the set
    of pids whose process exists; it belongs to the surroundings. */
module Lockfile {

  datatype Holder = Absent | Garbage | Pid(pid: nat)

  /** A core that handed over and still drains.  Its request ids, and those of
      the cores before it, lie below `idsBelow`. */
  datatype Mark = Mark(pid: nat, idsBelow: nat, since: nat)

  const DRAINING_STALE_MS: nat := 35 * 60 * 1000

  predicate Stands(m: Mark, living: set<nat>, self: nat, now: nat) {
    m.pid != self && now < m.since + DRAINING_STALE_MS && m.pid in living
  }

  /** `draining`: the marks that still stand, seen by process `self`. */
  function LiveMarks(marks: seq<Mark>, living: set<nat>, self: nat, now: nat): (r: seq<Mark>)
    ensures forall m :: m in r <==> m in marks && Stands(m, living, self, now)
  {
    if marks == [] then []
    else
      var rest := LiveMarks(marks[..|marks| - 1], living, self, now);
      var m := marks[|marks| - 1];
      if Stands(m, living, self, now) then rest + [m] else rest
  }

  function Without(marks: seq<Mark>, pid: nat): (r: seq<Mark>)
    ensures forall m :: m in r <==> m in marks && m.pid != pid
  {
    if marks == [] then []
    else
      var rest := Without(marks[..|marks| - 1], pid);
      if marks[|marks| - 1].pid != pid then rest + [marks[|marks| - 1]] else rest
  }

  /** `mark_draining`: one mark for its pid, the dead ones swept out. */
  function Marked(marks: seq<Mark>, living: set<nat>, self: nat, m: Mark): (r: seq<Mark>)
    ensures m in r && forall x :: x in r && x.pid == m.pid ==> x == m
    ensures forall x :: x in r && x != m ==> x in marks && Stands(x, living, self, m.since)
    ensures forall x :: x in marks && x.pid != m.pid && Stands(x, living, self, m.since) ==> x in r
  {
    Without(LiveMarks(marks, living, self, m.since), m.pid) + [m]
  }

  /** What dropping a lock that `self` may still own does to the file. */
  function Dropped(lock: Holder, marks: seq<Mark>, living: set<nat>, self: nat, owned: bool, now: nat): Holder {
    if owned && lock == Pid(self) && LiveMarks(marks, living, self, now) == [] then Absent else lock
  }

  datatype Outcome = Acquired(file: LockFile) | AlreadyRunning(pid: nat)

  class DataDir {
    var lock: Holder
    var marks: seq<Mark>
    var living: set<nat>

    constructor (lock: Holder, marks: seq<Mark>, living: set<nat>)
      ensures this.lock == lock && this.marks == marks && this.living == living
    {
      this.lock, this.marks, this.living := lock, marks, living;
    }

    /** Takes the lock unless it names another living process. */
    method Acquire(self: nat) returns (o: Outcome)
      modifies this`lock
      ensures o.AlreadyRunning? <==> old(lock).Pid? && old(lock).pid != self && old(lock).pid in living
      ensures o.AlreadyRunning? ==> lock == old(lock) && o.pid == lock.pid
      ensures o.Acquired? ==>
        lock == Pid(self) && fresh(o.file) && o.file.owned && o.file.dir == this && o.file.pid == self
    {
      if lock.Pid? && lock.pid != self && lock.pid in living {
        return AlreadyRunning(lock.pid);
      }
      var f := Claim(self);
      o := Acquired(f);
    }

    /** Writes `self` over whoever is named. */
    method Claim(self: nat) returns (f: LockFile)
      modifies this`lock
      ensures lock == Pid(self) && fresh(f) && f.owned && f.dir == this && f.pid == self
    {
      lock := Pid(self);
      f := new LockFile(this, self);
    }

    method Draining(self: nat, now: nat) returns (r: seq<Mark>)
      ensures r == LiveMarks(marks, living, self, now)
    {
      r := [];
      var k := 0;
      while k < |marks|
        invariant k <= |marks|
        invariant r == LiveMarks(marks[..k], living, self, now)
      {
        assert marks[..k + 1][..k] == marks[..k];
        if marks[k].pid != self && now < marks[k].since + DRAINING_STALE_MS && marks[k].pid in living {
          r := r + [marks[k]];
        }
        k := k + 1;
      }
      assert marks[..k] == marks;
    }

    method MarkDraining(self: nat, m: Mark)
      modifies this`marks
      ensures marks == Marked(old(marks), living, self, m)
    {
      var all := Draining(self, m.since);
      marks := Without(all, m.pid) + [m];
    }

    method PruneDraining(self: nat, now: nat)
      modifies this`marks
      ensures marks == LiveMarks(old(marks), living, self, now)
    {
      marks := Draining(self, now);
    }
  }

  class LockFile {
    const dir: DataDir
    const pid: nat
    var owned: bool

    constructor (dir: DataDir, pid: nat)
      ensures this.dir == dir && this.pid == pid && owned
    {
      this.dir, this.pid, owned := dir, pid, true;
    }

    method Disown()
      modifies this
      ensures !owned
    {
      owned := false;
    }

    /** On exit: the file goes only if it is still ours and nobody it would hide
        is draining. */
    method Drop(now: nat)
      modifies dir`lock
      ensures dir.lock == Dropped(old(dir.lock), dir.marks, dir.living, pid, owned, now)
      ensures dir.lock == old(dir.lock) || dir.lock == Absent
      ensures dir.lock != old(dir.lock) <==>
        owned && old(dir.lock) == Pid(pid) && forall m :: m in dir.marks ==> !Stands(m, dir.living, pid, now)
    {
      if !owned {
        return;
      }
      if dir.lock != Pid(pid) {
        return;
      }
      var left := dir.Draining(pid, now);
      if left != [] {
        assert left[0] in left && Stands(left[0], dir.living, pid, now);
        return;
      }
      dir.lock := Absent;
    }
  }
}
