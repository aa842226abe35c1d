/** Request ids along a chain of hand-overs, failed attempts and fresh starts
    included: those that find cores draining, those that find nothing, and those
    that overlook somebody. */
module RequestIds {
  import opened Protocol
  import opened Runs

  /** `issued`: the ids handed to requests; all lie in `[start, next)`.
      `written`: those that have a row in the history.
      `from`: its `ids_from`, raised by the second snapshot.  `parent`: the core
      it descends from, itself if none.  `child`: its latest successor, itself
      while there is none; `given`: the number of the first snapshot of that
      attempt.  `claimed`: it has committed and named itself in the lock, or took
      the lock the ordinary way; `settled`: it has also marked the core it took
      over from.  `orphan`: it started behind cores that drain. */
  datatype Proc = Proc(
    start: nat, from: nat, next: nat, issued: set<nat>, written: set<nat>,
    parent: nat, child: nat, given: nat,
    alive: bool, claimed: bool, settled: bool, orphan: bool)

  /** A drained core's pid with the `ids_below` its successor wrote for it.  A mark
      that was swept out stands no longer. */
  datatype Below = Below(pid: nat, ids: nat, stands: bool)

  /** `holder`: the pid in the lock.  `base`: the latest start that found no mark. */
  datatype World = World(procs: seq<Proc>, marks: seq<Below>, holder: nat, base: nat)

  /** `lost`: a process may end, or a candidate be given up for the next one, with
      ids handed out that no mark tells of.
      `blind`: a fresh start may happen when the core marked last has ended and an
      older one still drains.
      `hidden`: a fresh start may happen while a process lives that no mark names.
      `cold`: a fresh start may find no mark, and fewer rows than the ended
      processes handed out ids.
      `many`: a core's numbers may pass `ID_GAP` beyond the first snapshot of its
      last attempt, or beyond its own `from` before a fresh start behind it. */
  datatype Regime = Regime(lost: bool, blind: bool, hidden: bool, cold: bool, many: bool)

  datatype Action =
    | Issue(p: nat)
    | Write(p: nat, id: nat)   // the row of an ended request
    | Open(p: nat, last: nat)  // it opens its history, where `last` is the largest id
    | First(q: nat)            // a successor of `q` imports the first snapshot
    | Second(q: nat)           // ...and the second
    | Claim(c: nat)            // ...commits, and names itself in the lock
    | Note(c: nat)             // ...and marks the core it took over from
    | End(p: nat)
    | Age(k: nat)              // a mark grows too old to be heeded
    | Orphan(m: nat)           // a fresh start while marked cores drain
    | Fresh(last: nat)         // a fresh start that finds no mark, only rows

  predicate Alive(w: World, p: int) {
    0 <= p < |w.procs| && w.procs[p].alive
  }

  predicate HasChild(w: World, p: int) {
    0 <= p < |w.procs| && w.procs[p].child != p && w.procs[p].child < |w.procs|
  }

  /** Its successor has committed. */
  predicate Drains(w: World, q: int) {
    HasChild(w, q) && w.procs[w.procs[q].child].claimed
  }

  /** A candidate that was given up, and the next one has come. */
  predicate Abandoned(w: World, p: int) {
    && 0 <= p < |w.procs| && !w.procs[p].claimed && w.procs[p].parent < |w.procs|
    && var d := w.procs[w.procs[p].parent].child;
       d < |w.procs| && d != p && !w.procs[d].orphan
  }

  /** Fewer than `ID_GAP` ids after the first snapshot of the attempt. */
  predicate Quota(r: Regime, x: Proc, p: nat, next: nat) {
    r.many || x.child == p || next < x.given + ID_GAP
  }

  /** A mark that a start takes into account. */
  predicate Standing(w: World, k: int) {
    0 <= k < |w.marks| && w.marks[k].stands && Alive(w, w.marks[k].pid)
  }

  predicate Largest(w: World, m: nat) {
    Standing(w, m) && forall k :: 0 <= k < |w.marks| && Standing(w, k) ==> w.marks[k].ids <= w.marks[m].ids
  }

  predicate LargestOfAll(w: World, m: nat)
    requires m < |w.marks|
  {
    forall k :: 0 <= k < |w.marks| ==> w.marks[k].ids <= w.marks[m].ids
  }

  predicate Marked(w: World, q: int) {
    exists k :: 0 <= k < |w.marks| && w.marks[k].pid == q
  }

  predicate Named(w: World, p: int) {
    exists k :: 0 <= k < |w.marks| && Standing(w, k) && w.marks[k].pid == p
  }

  predicate AllNamed(w: World) {
    forall p :: 0 <= p < |w.procs| && Alive(w, p) ==> Named(w, p)
  }

  /** Its ids are above a mark, or below one. */
  predicate Told(w: World, p: nat)
    requires p < |w.procs|
  {
    var x := w.procs[p];
    x.issued == {} || (x.settled && (x.orphan ==> Marked(w, p)))
  }

  /** `MAX(id)` of the rows, zero without any. */
  predicate IsLast(w: World, last: nat) {
    && (forall p, id :: 0 <= p < |w.procs| && id in w.procs[p].written ==> id <= last)
    && (last == 0 || exists p :: 0 <= p < |w.procs| && last in w.procs[p].written)
  }

  /** No ended process handed out an id above the rows. */
  predicate Recorded(w: World, last: nat) {
    forall p, id :: 0 <= p < |w.procs| && !w.procs[p].alive && id in w.procs[p].issued ==> id <= last
  }

  /** The core that wrote mark `m`. */
  function Successor(w: World, m: nat): nat
    requires m < |w.marks|
  {
    if w.marks[m].pid < |w.procs| then w.procs[w.marks[m].pid].child else |w.procs|
  }

  predicate Enabled(r: Regime, w: World, a: Action) {
    match a
    case Issue(p) => Alive(w, p) && (r.lost || !Abandoned(w, p)) && Quota(r, w.procs[p], p, w.procs[p].next)
    case Write(p, id) => Alive(w, p) && id in w.procs[p].issued
    case Open(p, last) => Alive(w, p) && IsLast(w, last) && Quota(r, w.procs[p], p, last)
    case First(q) =>
      && Alive(w, q) && w.holder == q && w.procs[q].settled
      && (HasChild(w, q) ==>
            var c := w.procs[w.procs[q].child];
            !c.claimed && (r.lost || !c.alive || c.issued == {}))
    case Second(q) =>
      && Alive(w, q) && HasChild(w, q) && Quota(r, w.procs[q], q, w.procs[q].next)
      && Alive(w, w.procs[q].child) && !w.procs[w.procs[q].child].claimed
    case Claim(c) => Alive(w, c) && !w.procs[c].claimed && !Abandoned(w, c)
    case Note(c) => Alive(w, c) && w.procs[c].claimed && !w.procs[c].settled
    case End(p) => Alive(w, p) && (r.lost || Told(w, p))
    case Age(k) => k < |w.marks|
    case Orphan(m) =>
      && !Alive(w, w.holder) && Largest(w, m)
      && (r.hidden || AllNamed(w)) && (r.blind || LargestOfAll(w, m))
      && var s := Successor(w, m);
         r.many || s >= |w.procs| || Alive(w, s) || w.procs[s].next <= w.procs[s].from + ID_GAP
    case Fresh(last) =>
      && !Alive(w, w.holder) && (forall k :: 0 <= k < |w.marks| ==> !Standing(w, k)) && IsLast(w, last)
      && (r.hidden || AllNamed(w)) && (r.cold || Recorded(w, last))
  }

  function Put(w: World, p: nat, x: Proc): World
    requires p < |w.procs|
  {
    w.(procs := w.procs[p := x])
  }

  function Max(a: nat, b: nat): nat {
    if a < b then b else a
  }

  /** A successor that starts a gap above `k`. */
  function Candidate(k: nat, parent: nat, self: nat): Proc {
    Proc(k + ID_GAP + 1, k + ID_GAP, k + ID_GAP + 1, {}, {}, parent, self, 0, true, false, false, false)
  }

  /** A fresh start above `k`. */
  function Starter(k: nat, parent: nat, self: nat, orphan: bool): Proc {
    Proc(k + 1, k, k + 1, {}, {}, parent, self, 0, true, true, true, orphan)
  }

  /** The marks a process leaves that opens its history: all but its own. */
  function Swept(marks: seq<Below>, p: nat): (r: seq<Below>)
    ensures |r| == |marks|
    ensures forall k :: 0 <= k < |r| ==> r[k] == marks[k].(stands := marks[k].stands && marks[k].pid != p)
  {
    seq(|marks|, k requires 0 <= k < |marks| => marks[k].(stands := marks[k].stands && marks[k].pid != p))
  }

  function Apply(r: Regime, w: World, a: Action): World
    requires Enabled(r, w, a)
  {
    var n := |w.procs|;
    match a
    case Issue(p) =>
      var x := w.procs[p];
      Put(w, p, x.(next := x.next + 1, issued := x.issued + {x.next}))
    case Write(p, id) => Put(w, p, w.procs[p].(written := w.procs[p].written + {id}))
    case Open(p, last) =>
      Put(w, p, w.procs[p].(next := Max(w.procs[p].next, last + 1))).(marks := Swept(w.marks, p))
    case First(q) =>
      var k := w.procs[q].next;
      var w' := Put(w, q, w.procs[q].(next := k + 1, child := n, given := k));
      w'.(procs := w'.procs + [Candidate(k, q, n)])
    case Second(q) =>
      var x, c := w.procs[q], w.procs[q].child;
      var y := w.procs[c];
      var from := Max(y.from, x.next + ID_GAP);
      Put(Put(w, q, x.(next := x.next + 1)), c, y.(from := from, next := Max(y.next, from + 1)))
    case Claim(c) => Put(w, c, w.procs[c].(claimed := true)).(holder := c)
    case Note(c) =>
      Put(w, c, w.procs[c].(settled := true)).(marks := w.marks + [Below(w.procs[c].parent, w.procs[c].from, true)])
    case End(p) => Put(w, p, w.procs[p].(alive := false))
    case Age(k) => w.(marks := w.marks[k := w.marks[k].(stands := false)])
    case Orphan(m) =>
      var below := w.marks[m].ids;
      var s := Successor(w, m);
      if s < n && !Alive(w, s) then
        var w' := Put(w, s, w.procs[s].(child := n, given := below));
        w'.(procs := w'.procs + [Starter(below + ID_GAP, s, n, true)], holder := n)
      else
        w.(procs := w.procs + [Starter(below + ID_GAP, n, n, true)], holder := n)
    // marks of ended processes never count again
    case Fresh(last) => World(w.procs + [Starter(last, n, n, false)], [], n, n)
  }

  function Init(): World {
    World([Starter(0, 0, 0, false)], [], 0, 0)
  }

  ghost function StepOf(r: Regime): (World, Action, World) -> bool {
    (w, a, w') => Enabled(r, w, a) && Apply(r, w, a) == w'
  }

  ghost predicate Reachable(r: Regime, w: World) {
    Leads(StepOf(r), Init(), w)
  }

  // ------------------------------------------------------------- ancestors

  ghost predicate ProcOk(w: World, p: nat)
    requires p < |w.procs|
  {
    var x := w.procs[p];
    && x.start <= x.next && x.from < x.next && x.start <= x.from + 1
    && x.parent <= p <= x.child < |w.procs|
    && (forall id :: id in x.issued ==> x.start <= id < x.next)
    && x.written <= x.issued
    && (x.settled ==> x.claimed)
    && (!x.settled ==> !x.orphan && x.parent < p && w.procs[x.parent].child != x.parent)
    && (x.claimed && !x.settled && w.procs[x.parent].alive ==> w.procs[x.parent].child == p)
    && (x.child != p ==>
          && x.settled
          && w.procs[x.child].parent == p
          && (x.alive ==> !w.procs[x.child].orphan)
          && x.next < w.procs[x.child].start
          && (x.alive ==> x.next <= x.given + ID_GAP)
          && x.given + ID_GAP < w.procs[x.child].start)
  }

  ghost predicate MarkOk(w: World, m: Below) {
    && m.pid < |w.procs|
    && (Alive(w, m.pid) ==>
          && HasChild(w, m.pid)
          && w.procs[w.procs[m.pid].child].settled
          && m.ids == w.procs[w.procs[m.pid].child].from)
  }

  ghost predicate Inv(w: World) {
    && (forall p :: 0 <= p < |w.procs| ==> ProcOk(w, p))
    && (forall k :: 0 <= k < |w.marks| ==> MarkOk(w, w.marks[k]))
  }

  lemma ProcKeptBySnapshots(r: Regime, w: World, a: Action, p: nat)
    requires !r.many && Inv(w) && Enabled(r, w, a) && (a.First? || a.Second?) && p < |Apply(r, w, a).procs|
    ensures ProcOk(Apply(r, w, a), p)
  {
    assert p < |w.procs| ==> ProcOk(w, p);
    assert ProcOk(w, a.q);
    assert a.Second? ==> ProcOk(w, w.procs[a.q].child);
  }

  lemma ProcKeptByOrphan(r: Regime, w: World, m: nat, p: nat)
    requires !r.many && Inv(w) && Enabled(r, w, Orphan(m)) && p < |Apply(r, w, Orphan(m)).procs|
    ensures ProcOk(Apply(r, w, Orphan(m)), p)
  {
    assert p < |w.procs| ==> ProcOk(w, p);
    assert MarkOk(w, w.marks[m]) && ProcOk(w, w.marks[m].pid);
    assert ProcOk(w, Successor(w, m));
  }

  lemma ProcKeptByItself(r: Regime, w: World, a: Action, p: nat)
    requires !r.many && Inv(w) && Enabled(r, w, a) && p < |Apply(r, w, a).procs|
    requires a.Issue? || a.Write? || a.Open? || a.End? || a.Age?
    ensures ProcOk(Apply(r, w, a), p)
  {
    assert ProcOk(w, p);
  }

  lemma ProcKept(r: Regime, w: World, a: Action, p: nat)
    requires !r.many && Inv(w) && Enabled(r, w, a) && p < |Apply(r, w, a).procs|
    ensures ProcOk(Apply(r, w, a), p)
  {
    match a
    case First(_) => ProcKeptBySnapshots(r, w, a, p);
    case Second(_) => ProcKeptBySnapshots(r, w, a, p);
    case Orphan(m) => ProcKeptByOrphan(r, w, m, p);
    case Claim(_) => assert ProcOk(w, p) && ProcOk(w, w.procs[p].parent);
    case Note(_) => assert ProcOk(w, p);
    case Fresh(_) => assert p < |w.procs| ==> ProcOk(w, p);
    case _ => ProcKeptByItself(r, w, a, p);
  }

  lemma MarkKept(r: Regime, w: World, a: Action, k: nat)
    requires !r.many && Inv(w) && Enabled(r, w, a) && k < |Apply(r, w, a).marks|
    ensures MarkOk(Apply(r, w, a), Apply(r, w, a).marks[k])
  {
    var w' := Apply(r, w, a);
    if k < |w.marks| {
      var m := w.marks[k];
      assert MarkOk(w, m) && w'.marks[k].pid == m.pid && w'.marks[k].ids == m.ids;
      if Alive(w, m.pid) {
        OldMarkKept(r, w, a, m);
      }
    } else {
      assert a.Note? && ProcOk(w, a.c);
    }
  }

  lemma OldMarkKept(r: Regime, w: World, a: Action, m: Below)
    requires !r.many && Inv(w) && Enabled(r, w, a) && !a.Fresh? && MarkOk(w, m) && Alive(w, m.pid)
    ensures MarkOk(Apply(r, w, a), m)
  {
    var w', c := Apply(r, w, a), w.procs[m.pid].child;
    assert ProcOk(w, m.pid) && ProcOk(w, c);
    if a.Second? {
      assert ProcOk(w, a.q) && w.procs[a.q].child != c;
    }
    assert w'.procs[m.pid].child == c;
    assert w'.procs[c].from == w.procs[c].from;
  }

  lemma StepKeeps(r: Regime, w: World, a: Action)
    requires !r.many && Inv(w) && Enabled(r, w, a)
    ensures Inv(Apply(r, w, a))
  {
    var w' := Apply(r, w, a);
    forall p | 0 <= p < |w'.procs| ensures ProcOk(w', p) {
      ProcKept(r, w, a, p);
    }
    forall k | 0 <= k < |w'.marks| ensures MarkOk(w', w'.marks[k]) {
      MarkKept(r, w, a, k);
    }
  }

  ghost function InvOf(): World -> bool {
    w => Inv(w)
  }

  lemma StepLeads(r: Regime, m: World, a: Action, w: World)
    requires !r.many && InvOf()(m) && StepOf(r)(m, a, w)
    ensures InvOf()(w)
  {
    StepKeeps(r, m, a);
  }

  lemma ReachableHolds(r: Regime, w: World)
    requires !r.many && Reachable(r, w)
    ensures Inv(w)
  {
    assert InvOf()(Init());
    forall m, a, m' | InvOf()(m) && StepOf(r)(m, a, m') ensures InvOf()(m') {
      StepLeads(r, m, a, m');
    }
    var n: nat :| Within(StepOf(r), n, Init(), w);
    Holds(StepOf(r), InvOf(), Init(), n, w);
  }

  /** `p` took over from `a`, directly or through others. */
  predicate Descends(w: World, a: nat, p: nat)
    decreases |w.procs| - a
  {
    a < |w.procs| && a < w.procs[a].child < |w.procs| && (w.procs[a].child == p || Descends(w, w.procs[a].child, p))
  }

  lemma {:induction false} AncestorsStayBelow(w: World, a: nat, p: nat)
    requires Inv(w) && Descends(w, a, p)
    ensures p < |w.procs| && w.procs[a].next < w.procs[p].start && w.procs[a].next <= w.procs[p].from
    decreases |w.procs| - a
  {
    assert ProcOk(w, a);
    var c := w.procs[a].child;
    assert ProcOk(w, c);
    if c != p {
      AncestorsStayBelow(w, c, p);
    }
  }

  /** Whatever is lost, overlooked or not seen, an ancestor's ids lie below `ids_from` of
      every descendant, and below every id the descendant hands out. */
  lemma AncestorsNeverCollide(r: Regime, w: World, a: nat, p: nat, id: nat)
    requires !r.many && Reachable(r, w) && Descends(w, a, p) && id in w.procs[a].issued
    ensures p < |w.procs| && id < w.procs[p].from && forall x :: x in w.procs[p].issued ==> id < x
  {
    ReachableHolds(r, w);
    AncestorsStayBelow(w, a, p);
    assert ProcOk(w, a) && ProcOk(w, p);
  }

  // ------------------------------------------- everybody else, when nothing is flagged

  const SAFE: Regime := Regime(false, false, false, false, false)

  /** Ids are out, may still come, or are told of by its own mark. */
  predicate Counts(w: World, p: int) {
    && 0 <= p < |w.procs|
    && ((w.procs[p].alive && !Abandoned(w, p)) || w.procs[p].issued != {} || (w.procs[p].settled && !w.procs[p].orphan))
  }

  /** The older of two hands over to somebody no later than the younger. */
  ghost predicate Behind(w: World, p: nat, q: nat) {
    Counts(w, p) && Counts(w, q) && p < q ==>
      HasChild(w, p) && w.procs[p].child <= q && w.procs[w.procs[p].child].start <= w.procs[q].start
  }

  /** Behind a core that has not handed over there is at most its candidate. */
  ghost predicate Newest(w: World, q: nat, p: nat) {
    Alive(w, q) && !Abandoned(w, q) && !Drains(w, q) && p > q && Counts(w, p) ==>
      w.procs[q].child == p && !w.procs[p].claimed
  }

  ghost predicate Written(w: World, m: Below) {
    && w.base <= m.pid && HasChild(w, m.pid)
    && var c := w.procs[w.procs[m.pid].child];
       c.settled && !c.orphan && c.from == m.ids && c.parent == m.pid
  }

  predicate MarkedFor(w: World, p: nat)
    requires p < |w.procs|
  {
    exists k :: 0 <= k < |w.marks| && w.marks[k].pid == w.procs[p].parent && w.marks[k].ids == w.procs[p].from
  }

  /** What is known of one process since the last start that found no mark. */
  ghost predicate OneOk(w: World, p: nat)
    requires p < |w.procs|
  {
    var x := w.procs[p];
    && (!x.alive ==> Told(w, p))
    && (p > w.base && x.settled && !x.orphan ==> MarkedFor(w, p))
    && (x.alive && !x.settled ==> w.base <= x.parent < p && (Abandoned(w, p) || w.procs[x.parent].child == p))
    && (Abandoned(w, p) ==> x.issued == {})
    && (p == w.base ==> x.settled && !x.orphan)
  }

  /** Whoever started before that has ended, with ids below those of today. */
  ghost predicate Past(w: World) {
    && w.base < |w.procs|
    && (forall p :: 0 <= p < w.base ==> !w.procs[p].alive)
    && (forall p, id :: 0 <= p < w.base && id in w.procs[p].issued ==> id < w.procs[w.base].start)
    && (forall p, q :: 0 <= p < q < w.base ==> w.procs[p].issued !! w.procs[q].issued)
  }

  ghost predicate Kept(w: World) {
    && Inv(w) && Past(w)
    && (forall p, q :: w.base <= p < |w.procs| && w.base <= q < |w.procs| ==> Behind(w, p, q))
    && (forall p, q :: w.base <= p < |w.procs| && w.base <= q < |w.procs| ==> Newest(w, p, q))
    && (forall p :: w.base <= p < |w.procs| ==> OneOk(w, p))
    && (forall k :: 0 <= k < |w.marks| ==> Written(w, w.marks[k]))
  }

  /** Some mark has a number this large. */
  predicate Above(w: World, n: nat) {
    exists k :: 0 <= k < |w.marks| && w.marks[k].ids >= n
  }

  lemma MarkedAbove(w: World, p: nat)
    requires Kept(w) && w.base <= p < |w.procs|
    requires Marked(w, p) || (w.base < p && Counts(w, p) && !w.procs[p].alive)
    ensures Above(w, w.procs[p].from) && (Marked(w, p) ==> Above(w, w.procs[p].next))
  {
    assert ProcOk(w, p) && OneOk(w, p);
    if Marked(w, p) {
      var k :| 0 <= k < |w.marks| && w.marks[k].pid == p;
      assert Written(w, w.marks[k]) && ProcOk(w, w.procs[p].child);
    }
  }

  lemma NamedIsMarked(w: World, p: int)
    ensures Named(w, p) ==> Marked(w, p)
  {
  }

  /** Behind the core whose mark an orphan resumes from there is nobody whose ids
      could come again, and that core has ended. */
  lemma NobodyBehind(w: World, m: nat, p: nat)
    requires Kept(w) && Enabled(SAFE, w, Orphan(m)) && p < |w.procs|
    ensures p > Successor(w, m) ==> !Counts(w, p)
    ensures w.base < Successor(w, m) < |w.procs| && !Alive(w, Successor(w, m)) && !Marked(w, Successor(w, m))
  {
    var s := Successor(w, m);
    assert Written(w, w.marks[m]) && ProcOk(w, w.marks[m].pid);
    assert ProcOk(w, s);
    if Marked(w, s) {
      MarkedAbove(w, s);
    }
    NamedIsMarked(w, s);
    if p > s && Counts(w, p) {
      assert Behind(w, s, p) && ProcOk(w, p);
      NamedIsMarked(w, p);
      MarkedAbove(w, p);
    }
  }

  lemma NamedDrains(w: World, q: nat)
    requires Kept(w)
    ensures Named(w, q) ==> Drains(w, q) && w.procs[q].settled
  {
    if Named(w, q) {
      var k :| 0 <= k < |w.marks| && Standing(w, k) && w.marks[k].pid == q;
      assert Written(w, w.marks[k]) && ProcOk(w, q) && ProcOk(w, w.procs[q].child);
    }
  }

  // ------------------------------------------- what a step leaves alone

  ghost predicate Grows(x: Proc, y: Proc) {
    && x.start == y.start && x.parent == y.parent && x.orphan == y.orphan
    && (y.alive ==> x.alive) && (x.claimed ==> y.claimed) && (x.settled ==> y.settled)
    && (x.issued != y.issued ==> y.alive)
    && (x.issued != y.issued || x.settled != y.settled || x.claimed != y.claimed ==> x.alive)
    && (x.settled ==> x.from == y.from)
  }

  /** Whoever was given up is out of it. */
  predicate StaysOut(w: World, w': World, p: int) {
    && 0 <= p < |w.procs| <= |w'.procs|
    && w'.procs[p].issued == w.procs[p].issued && w'.procs[p].settled == w.procs[p].settled
    && w'.procs[p].claimed == w.procs[p].claimed
    && (w'.procs[p].alive ==> Abandoned(w', p))
  }

  /** What every step leaves as it was, but a start that finds no mark. */
  ghost predicate Evolves(w: World, w': World) {
    && w'.base == w.base && |w.procs| <= |w'.procs| && |w.marks| <= |w'.marks|
    && (forall p :: 0 <= p < |w.procs| ==> Grows(w.procs[p], w'.procs[p]))
    && (forall p :: Abandoned(w, p) ==> StaysOut(w, w', p))
    && (forall k :: 0 <= k < |w.marks| ==> w.marks[k].pid == w'.marks[k].pid && w.marks[k].ids == w'.marks[k].ids)
  }

  lemma StepGrows(w: World, a: Action, p: nat)
    requires Kept(w) && Enabled(SAFE, w, a) && !a.Fresh? && p < |w.procs|
    ensures Grows(w.procs[p], Apply(SAFE, w, a).procs[p])
  {
    assert ProcOk(w, p);
  }

  predicate SameChild(w: World, w': World, p: nat) {
    p < |w.procs| && p < |w'.procs| && w.procs[p].child == w'.procs[p].child
  }

  /** Whose successor changes. */
  predicate Rehomes(w: World, a: Action, p: nat) {
    a == First(p) || (a.Orphan? && a.m < |w.marks| && Successor(w, a.m) == p)
  }

  lemma ChildStays(w: World, a: Action, p: nat)
    requires Enabled(SAFE, w, a) && p < |w.procs| && !Rehomes(w, a, p)
    ensures SameChild(w, Apply(SAFE, w, a), p)
  {
  }

  lemma OutDoesNothing(w: World, a: Action, p: nat)
    requires Kept(w) && Enabled(SAFE, w, a) && Abandoned(w, p)
    ensures var x, y := w.procs[p], Apply(SAFE, w, a).procs[p];
            y.issued == x.issued && y.settled == x.settled && y.claimed == x.claimed
  {
    assert ProcOk(w, p);
  }

  lemma OutStaysOut(w: World, a: Action, p: nat)
    requires Kept(w) && Enabled(SAFE, w, a) && !a.Fresh? && Abandoned(w, p)
    ensures StaysOut(w, Apply(SAFE, w, a), p)
  {
    var q := w.procs[p].parent;
    assert ProcOk(w, p);
    OutDoesNothing(w, a, p);
    NamedDrains(w, p);
    StepGrows(w, a, p);
    StepGrows(w, a, w.procs[q].child);
    if !Rehomes(w, a, q) {
      ChildStays(w, a, q);
    }
  }

  lemma StepEvolves(w: World, a: Action)
    requires Kept(w) && Enabled(SAFE, w, a) && !a.Fresh?
    ensures Evolves(w, Apply(SAFE, w, a))
  {
    forall p | Abandoned(w, p) ensures StaysOut(w, Apply(SAFE, w, a), p) {
      OutStaysOut(w, a, p);
    }
    forall p | 0 <= p < |w.procs| ensures Grows(w.procs[p], Apply(SAFE, w, a).procs[p]) {
      StepGrows(w, a, p);
    }
  }

  /** Nobody starts counting but a newcomer. */
  lemma CountsStays(w: World, w': World, p: nat)
    requires Evolves(w, w') && p < |w.procs| && Counts(w', p)
    ensures Counts(w, p)
  {
    assert Grows(w.procs[p], w'.procs[p]);
  }

  lemma MarksStay(w: World, w': World, q: int)
    requires Evolves(w, w') && Marked(w, q)
    ensures Marked(w', q)
  {
    var k :| 0 <= k < |w.marks| && w.marks[k].pid == q;
    assert w'.marks[k].pid == q;
  }

  lemma WrittenStays(w: World, w': World, m: Below, stands: bool)
    requires Evolves(w, w') && Written(w, m) && SameChild(w, w', m.pid)
    ensures Written(w', m.(stands := stands))
  {
    var c := w.procs[m.pid].child;
    assert Grows(w.procs[c], w'.procs[c]);
  }

  lemma MarkedForStays(w: World, w': World, p: nat)
    requires Evolves(w, w') && p < |w.procs| && w.procs[p].settled && MarkedFor(w, p)
    ensures MarkedFor(w', p)
  {
    assert Grows(w.procs[p], w'.procs[p]);
    var k :| 0 <= k < |w.marks| && w.marks[k].pid == w.procs[p].parent && w.marks[k].ids == w.procs[p].from;
    assert w'.marks[k].pid == w.marks[k].pid && w'.marks[k].ids == w.marks[k].ids;
  }

  lemma BehindStays(w: World, w': World, p: nat, q: nat)
    requires Evolves(w, w') && Behind(w, p, q) && SameChild(w, w', p) && q < |w.procs|
    ensures Behind(w', p, q)
  {
    if Counts(w', p) && Counts(w', q) && p < q {
      CountsStays(w, w', p);
      CountsStays(w, w', q);
      var c := w.procs[p].child;
      assert Grows(w.procs[c], w'.procs[c]) && Grows(w.procs[q], w'.procs[q]);
    }
  }

  lemma DrainsStays(w: World, w': World, q: nat)
    requires Evolves(w, w') && SameChild(w, w', q)
    ensures Drains(w, q) ==> Drains(w', q)
  {
    if Drains(w, q) {
      var c := w.procs[q].child;
      assert Grows(w.procs[c], w'.procs[c]);
    }
  }

  lemma NewestStays(w: World, w': World, q: nat, p: nat)
    requires Evolves(w, w') && Newest(w, q, p) && SameChild(w, w', q) && p < |w.procs|
    ensures Newest(w', q, p)
  {
    DrainsStays(w, w', q);
    if Alive(w', q) && !Drains(w', q) && p > q && Counts(w', p) {
      CountsStays(w, w', p);
      assert Grows(w.procs[q], w'.procs[q]);
    }
  }

  // ------------------------------------------- every step keeps it

  lemma WrittenKept(w: World, a: Action, k: nat)
    requires Kept(w) && Enabled(SAFE, w, a) && !a.Fresh? && k < |w.marks|
    ensures Written(Apply(SAFE, w, a), Apply(SAFE, w, a).marks[k])
  {
    var w', m := Apply(SAFE, w, a), w.marks[k];
    StepEvolves(w, a);
    assert Written(w, m) && Marked(w, m.pid) && ProcOk(w, w.procs[m.pid].child);
    if a.Orphan? {
      NobodyBehind(w, a.m, 0);
    }
    ChildStays(w, a, m.pid);
    WrittenStays(w, w', m, w'.marks[k].stands);
    assert w'.marks[k] == m.(stands := w'.marks[k].stands);
  }

  lemma NewMarkWritten(w: World, c: nat)
    requires Kept(w) && Enabled(SAFE, w, Note(c))
    ensures Written(Apply(SAFE, w, Note(c)), Below(w.procs[c].parent, w.procs[c].from, true))
  {
    assert ProcOk(w, c) && c >= w.base && OneOk(w, c);
  }

  /** What else a step does to what is known of one process. */
  ghost predicate Explained(w: World, w': World, p: nat)
    requires p < |w.procs| && p < |w'.procs|
  {
    var x, y := w.procs[p], w'.procs[p];
    && (x.alive && !y.alive ==> Told(w, p))
    && (!x.settled && y.settled ==> MarkedFor(w', p))
    && (y.alive && !y.settled ==> w.base <= y.parent < p && (Abandoned(w', p) || w'.procs[y.parent].child == p))
    && (Abandoned(w', p) ==> y.issued == {})
  }

  lemma OneStays(w: World, w': World, p: nat)
    requires Evolves(w, w') && p < |w.procs| && OneOk(w, p) && Explained(w, w', p)
    ensures OneOk(w', p)
  {
    assert Grows(w.procs[p], w'.procs[p]);
    if Marked(w, p) {
      MarksStay(w, w', p);
    }
    if p > w.base && w.procs[p].settled && !w.procs[p].orphan {
      MarkedForStays(w, w', p);
    }
  }

  lemma Explain(w: World, a: Action, p: nat)
    requires Kept(w) && Enabled(SAFE, w, a) && !a.Fresh? && w.base <= p < |w.procs|
    ensures Explained(w, Apply(SAFE, w, a), p)
  {
    var w' := Apply(SAFE, w, a);
    if a == Note(p) {
      assert w'.marks[|w.marks|] == Below(w.procs[p].parent, w.procs[p].from, true);
    }
    AttachedKept(w, a, p);
    AbandonedIsOut(w, a, p);
  }

  lemma AttachedKept(w: World, a: Action, p: nat)
    requires Kept(w) && Enabled(SAFE, w, a) && !a.Fresh? && w.base <= p < |w.procs|
    ensures var y, w' := Apply(SAFE, w, a).procs[p], Apply(SAFE, w, a);
            y.alive && !y.settled ==> w.base <= y.parent < p && (Abandoned(w', p) || w'.procs[y.parent].child == p)
  {
    StepEvolves(w, a);
    assert OneOk(w, p) && ProcOk(w, p) && Grows(w.procs[p], Apply(SAFE, w, a).procs[p]);
    NamedDrains(w, p);
    if !w.procs[p].settled && !Rehomes(w, a, w.procs[p].parent) {
      ChildStays(w, a, w.procs[p].parent);
    }
  }

  lemma AbandonedIsOut(w: World, a: Action, p: nat)
    requires Kept(w) && Enabled(SAFE, w, a) && !a.Fresh? && w.base <= p < |w.procs|
    ensures Abandoned(Apply(SAFE, w, a), p) ==> Apply(SAFE, w, a).procs[p].issued == {}
  {
    StepEvolves(w, a);
    assert OneOk(w, p) && ProcOk(w, p) && ProcOk(w, w.procs[p].parent);
    assert Grows(w.procs[p], Apply(SAFE, w, a).procs[p]);
    if !Abandoned(w, p) && !Rehomes(w, a, w.procs[p].parent) {
      ChildStays(w, a, w.procs[p].parent);
    }
  }

  lemma OneKept(w: World, a: Action, p: nat)
    requires Kept(w) && Enabled(SAFE, w, a) && !a.Fresh? && w.base <= p < |w.procs|
    ensures OneOk(Apply(SAFE, w, a), p)
  {
    StepEvolves(w, a);
    Explain(w, a, p);
    OneStays(w, Apply(SAFE, w, a), p);
  }

  lemma NobodyNewer(w: World, q: nat, p: nat)
    requires Kept(w) && Enabled(SAFE, w, First(q)) && q < p < |w.procs|
    ensures w.base <= q && !Counts(Apply(SAFE, w, First(q)), p)
  {
    assert Newest(w, q, p) && OneOk(w, p) && ProcOk(w, p) && ProcOk(w, q);
  }

  lemma BehindNewcomer(w: World, a: Action, p: nat)
    requires Kept(w) && a.First? && Enabled(SAFE, w, a) && w.base <= p < |w.procs|
    ensures Behind(Apply(SAFE, w, a), p, |w.procs|)
  {
    StepEvolves(w, a);
    if Counts(Apply(SAFE, w, a), p) {
      CountsStays(w, Apply(SAFE, w, a), p);
      assert w.base <= a.q;
      assert Behind(w, p, a.q) && ProcOk(w, p) && ProcOk(w, a.q);
      if p > a.q {
        NobodyNewer(w, a.q, p);
      }
    }
  }

  lemma BehindOrphan(w: World, a: Action, p: nat)
    requires Kept(w) && a.Orphan? && Enabled(SAFE, w, a) && w.base <= p < |w.procs|
    ensures Behind(Apply(SAFE, w, a), p, |w.procs|)
  {
    StepEvolves(w, a);
    if Counts(Apply(SAFE, w, a), p) {
      CountsStays(w, Apply(SAFE, w, a), p);
      NobodyBehind(w, a.m, p);
      var s := Successor(w, a.m);
      assert Written(w, w.marks[a.m]);
      assert Behind(w, p, s) && ProcOk(w, p) && ProcOk(w, s);
    }
  }

  lemma BehindKept(w: World, a: Action, p: nat, q: nat)
    requires Kept(w) && Enabled(SAFE, w, a) && !a.Fresh? && w.base <= p < |w.procs| && w.base <= q < |w.procs|
    ensures Behind(Apply(SAFE, w, a), p, q)
  {
    var w' := Apply(SAFE, w, a);
    StepEvolves(w, a);
    assert Behind(w, p, q);
    if !Rehomes(w, a, p) {
      ChildStays(w, a, p);
      BehindStays(w, w', p, q);
    } else if p < q && Counts(w', q) {
      CountsStays(w, w', q);
      if a.First? {
        NobodyNewer(w, p, q);
      } else {
        NobodyBehind(w, a.m, q);
      }
    }
  }

  lemma NewestKept(w: World, a: Action, q: nat, p: nat)
    requires Kept(w) && Enabled(SAFE, w, a) && !a.Fresh? && w.base <= q < |w.procs| && w.base <= p < |w.procs|
    ensures Newest(Apply(SAFE, w, a), q, p)
  {
    var w' := Apply(SAFE, w, a);
    StepEvolves(w, a);
    assert Newest(w, q, p);
    if !Rehomes(w, a, q) {
      ChildStays(w, a, q);
      NewestStays(w, w', q, p);
    } else if p > q && Counts(w', p) {
      CountsStays(w, w', p);
      if a.First? {
        NobodyNewer(w, q, p);
      } else {
        NobodyBehind(w, a.m, p);
      }
    }
  }

  lemma NewestBeforeNewcomer(w: World, a: Action, q: nat)
    requires Kept(w) && a.First? && Enabled(SAFE, w, a) && w.base <= q < |w.procs|
    ensures Newest(Apply(SAFE, w, a), q, |w.procs|)
  {
    var w' := Apply(SAFE, w, a);
    if q != a.q {
      StepEvolves(w, a);
      ChildStays(w, a, q);
      DrainsStays(w, w', q);
      assert Grows(w.procs[q], w'.procs[q]) && Newest(w, q, a.q) && ProcOk(w, a.q);
      if q > a.q {
        NobodyNewer(w, a.q, q);
      }
    }
  }

  lemma NewestBeforeOrphan(w: World, a: Action, q: nat)
    requires Kept(w) && a.Orphan? && Enabled(SAFE, w, a) && w.base <= q < |w.procs|
    ensures Newest(Apply(SAFE, w, a), q, |w.procs|)
  {
    var w' := Apply(SAFE, w, a);
    StepEvolves(w, a);
    NobodyBehind(w, a.m, 0);
    NamedDrains(w, q);
    assert Grows(w.procs[q], w'.procs[q]);
    if Alive(w', q) {
      ChildStays(w, a, q);
      DrainsStays(w, w', q);
    }
  }

  lemma NewcomerOk(w: World, a: Action)
    requires Kept(w) && (a.First? || a.Orphan?) && Enabled(SAFE, w, a)
    ensures OneOk(Apply(SAFE, w, a), |w.procs|)
  {
  }

  lemma PairKept(w: World, a: Action, p: nat, q: nat)
    requires Kept(w) && Enabled(SAFE, w, a) && !a.Fresh?
    requires w.base <= p < |Apply(SAFE, w, a).procs| && w.base <= q < |Apply(SAFE, w, a).procs|
    ensures Behind(Apply(SAFE, w, a), p, q) && Newest(Apply(SAFE, w, a), p, q)
  {
    if p < |w.procs| && q < |w.procs| {
      BehindKept(w, a, p, q);
      NewestKept(w, a, p, q);
    } else if p < |w.procs| && a.First? {
      BehindNewcomer(w, a, p);
      NewestBeforeNewcomer(w, a, p);
    } else if p < |w.procs| {
      BehindOrphan(w, a, p);
      NewestBeforeOrphan(w, a, p);
    }
  }

  lemma PastKept(w: World, a: Action)
    requires Kept(w) && Enabled(SAFE, w, a) && !a.Fresh?
    ensures Past(Apply(SAFE, w, a))
  {
    var w' := Apply(SAFE, w, a);
    StepEvolves(w, a);
    assert forall p :: 0 <= p <= w.base ==> Grows(w.procs[p], w'.procs[p]);
  }

  lemma KeptByStep(w: World, a: Action)
    requires Kept(w) && Enabled(SAFE, w, a) && !a.Fresh?
    ensures Kept(Apply(SAFE, w, a))
  {
    var w' := Apply(SAFE, w, a);
    StepKeeps(SAFE, w, a);
    PastKept(w, a);
    forall p, q | w.base <= p < |w'.procs| && w.base <= q < |w'.procs| ensures Behind(w', p, q) && Newest(w', p, q) {
      PairKept(w, a, p, q);
    }
    forall p | w.base <= p < |w'.procs| ensures OneOk(w', p) {
      if p < |w.procs| {
        OneKept(w, a, p);
      } else {
        NewcomerOk(w, a);
      }
    }
    forall k | 0 <= k < |w'.marks| ensures Written(w', w'.marks[k]) {
      if k < |w.marks| {
        WrittenKept(w, a, k);
      } else {
        NewMarkWritten(w, a.c);
      }
    }
  }

  /** No two processes hand out the same number. */
  predicate Unique(w: World) {
    forall p, q :: 0 <= p < q < |w.procs| ==> w.procs[p].issued !! w.procs[q].issued
  }

  lemma KeptUnique(w: World)
    requires Kept(w)
    ensures Unique(w)
  {
    forall p, q | 0 <= p < q < |w.procs| ensures w.procs[p].issued !! w.procs[q].issued {
      assert ProcOk(w, p) && ProcOk(w, q);
      if p >= w.base {
        assert Behind(w, p, q);
      } else if q >= w.base {
        assert OneOk(w, w.base) && Behind(w, w.base, q) && ProcOk(w, w.base);
      }
    }
  }

  lemma KeptByFresh(w: World, last: nat)
    requires Kept(w) && Enabled(SAFE, w, Action.Fresh(last))
    ensures Kept(Apply(SAFE, w, Action.Fresh(last)))
  {
    var w', n := Apply(SAFE, w, Action.Fresh(last)), |w.procs|;
    StepKeeps(SAFE, w, Action.Fresh(last));
    KeptUnique(w);
    assert forall p :: 0 <= p < n ==> !Named(w, p);
    forall p | 0 <= p < n ensures w'.procs[p] == w.procs[p] && !w.procs[p].alive {
      assert !Alive(w, p);
    }
    assert w'.procs[n] == Starter(last, n, n, false);
    assert Past(w') && OneOk(w', n);
    assert Behind(w', n, n) && Newest(w', n, n);
  }

  ghost function KeptOf(): World -> bool {
    w => Kept(w)
  }

  lemma StepKeepsKept(m: World, a: Action, w: World)
    requires KeptOf()(m) && StepOf(SAFE)(m, a, w)
    ensures KeptOf()(w)
  {
    if a.Fresh? {
      KeptByFresh(m, a.last);
    } else {
      KeptByStep(m, a);
    }
  }

  lemma ReachableUnique(w: World)
    requires Reachable(SAFE, w)
    ensures Unique(w)
  {
    assert KeptOf()(Init());
    forall m, a, m' | KeptOf()(m) && StepOf(SAFE)(m, a, m') ensures KeptOf()(m') {
      StepKeepsKept(m, a, m');
    }
    var n: nat :| Within(StepOf(SAFE), n, Init(), w);
    Holds(StepOf(SAFE), KeptOf(), Init(), n, w);
    KeptUnique(w);
  }

  // ------------------------------------------------------------- what breaks it

  lemma Do(r: Regime, w: World, a: Action) returns (w': World)
    requires Reachable(r, w) && Enabled(r, w, a)
    ensures w' == Apply(r, w, a) && Reachable(r, w')
  {
    w' := Apply(r, w, a);
    Go(StepOf(r), Init(), w, a, w');
  }

  /** The core after its first hand-over began. */
  const GIVING: Proc := Starter(0, 0, 0, false).(next := 2, child := 1, given := 1)

  /** A candidate of it that has committed. */
  const TAKER: Proc := Candidate(1, 0, 1).(claimed := true, settled := true)

  /** A candidate that served and died. */
  const SERVED: World :=
    World(
      [GIVING, Candidate(1, 0, 1).(next := ID_GAP + 4, issued := {ID_GAP + 2, ID_GAP + 3}, alive := false)],
      [], 0, 0)

  lemma CandidateServes(r: Regime)
    requires r.lost
    ensures Reachable(r, SERVED)
  {
    Here(StepOf(r), Init());
    var w := Do(r, Init(), First(0));
    w := Do(r, w, Issue(1));
    w := Do(r, w, Issue(1));
    w := Do(r, w, End(1));
    assert w.procs[1].issued == {ID_GAP + 2, ID_GAP + 3};
    assert w == SERVED;
  }

  /** The next candidate starts a gap above almost the same number. */
  lemma LostIdsComeAgain(r: Regime) returns (w: World)
    requires r.lost
    ensures Reachable(r, w) && !Unique(w)
    ensures |w.procs| == 3 && ID_GAP + 3 in w.procs[1].issued && ID_GAP + 3 in w.procs[2].issued
  {
    CandidateServes(r);
    w := Do(r, SERVED, First(0));
    w := Do(r, w, Issue(2));
    assert !(w.procs[1].issued !! w.procs[2].issued);
  }

  /** One hand-over, nothing handed out. */
  const ONCE: World := World([GIVING, TAKER], [Below(0, ID_GAP + 1, true)], 1, 0)

  lemma HandsOverOnce(r: Regime)
    ensures Reachable(r, ONCE)
  {
    Here(StepOf(r), Init());
    var w := Do(r, Init(), First(0));
    w := Do(r, w, Claim(1));
    w := Do(r, w, Note(1));
    assert w == ONCE;
  }

  /** Two hand-overs; the last core has handed out one id. */
  const TWICE: World :=
    World(
      [ GIVING,
        TAKER.(child := 2, given := ID_GAP + 2, next := ID_GAP + 3),
        Candidate(ID_GAP + 2, 1, 2).(next := 2 * ID_GAP + 4, issued := {2 * ID_GAP + 3}, claimed := true)],
      ONCE.marks, 2, 0)

  lemma HandsOverTwice(r: Regime)
    ensures Reachable(r, TWICE)
  {
    HandsOverOnce(r);
    var w := Do(r, ONCE, First(1));
    w := Do(r, w, Issue(2));
    w := Do(r, w, Claim(2));
    assert w.procs[2] == TWICE.procs[2];
    assert w == TWICE;
  }

  /** Then both die, and the first core still drains. */
  const DEAD: World :=
    TWICE.(
      procs := [GIVING, TWICE.procs[1].(alive := false), TWICE.procs[2].(alive := false, settled := true)],
      marks := TWICE.marks + [Below(1, 2 * ID_GAP + 2, true)])

  lemma BothDie(r: Regime)
    ensures Reachable(r, DEAD)
  {
    HandsOverTwice(r);
    var w := Do(r, TWICE, Note(2));
    w := Do(r, w, End(2));
    w := Do(r, w, End(1));
    assert w == DEAD;
  }

  /** A fresh start resumes from the mark of the first core. */
  lemma UnseenIdsComeAgain(r: Regime) returns (w: World)
    requires r.blind
    ensures Reachable(r, w) && !Unique(w)
    ensures |w.procs| == 4 && 2 * ID_GAP + 3 in w.procs[2].issued && 2 * ID_GAP + 3 in w.procs[3].issued
  {
    BothDie(r);
    assert DEAD.marks[0] == Below(0, ID_GAP + 1, true);
    assert Standing(DEAD, 0) && Named(DEAD, 0);
    w := Do(r, DEAD, Orphan(0));
    w := Do(r, w, Issue(3));
    w := Do(r, w, Issue(3));
    assert !(w.procs[2].issued !! w.procs[3].issued);
  }

  /** A core with a request at work; its successor died between naming itself in
      the lock and marking it. */
  const TORN: World :=
    World(
      [ Starter(0, 0, 0, false).(next := 4, issued := {1, 2}, written := {1}, child := 1, given := 3),
        Candidate(3, 0, 1).(claimed := true, alive := false)],
      [], 1, 0)

  lemma CoreWorks(r: Regime) returns (w: World)
    ensures w == World([Starter(0, 0, 0, false).(next := 3, issued := {1, 2}, written := {1})], [], 0, 0)
    ensures Reachable(r, w)
  {
    Here(StepOf(r), Init());
    w := Do(r, Init(), Issue(0));
    w := Do(r, w, Issue(0));
    w := Do(r, w, Write(0, 1));
    assert w.procs[0].issued == {1, 2} && w.procs[0].written == {1};
  }

  lemma SuccessorDies(r: Regime)
    ensures Reachable(r, TORN)
  {
    var w := CoreWorks(r);
    w := Do(r, w, First(0));
    w := Do(r, w, Claim(1));
    w := Do(r, w, End(1));
    assert w == TORN;
  }

  /** The next start overlooks it and resumes from the rows; both then write the
      same row. */
  lemma HiddenIdsComeAgain(r: Regime) returns (w: World)
    requires r.hidden
    ensures Reachable(r, w) && !Unique(w)
    ensures |w.procs| == 3 && Alive(w, 0) && Alive(w, 2) && 2 in w.procs[0].written && 2 in w.procs[2].written
  {
    SuccessorDies(r);
    assert 1 in TORN.procs[0].written;
    w := Do(r, TORN, Action.Fresh(1));
    w := Do(r, w, Issue(2));
    w := Do(r, w, Write(2, 2));
    w := Do(r, w, Write(0, 2));
    assert !(w.procs[0].issued !! w.procs[2].issued);
  }

  /** A core dies with a request that has no row yet. */
  lemma UnrecordedIdsComeAgain(r: Regime) returns (w: World)
    requires r.cold
    ensures Reachable(r, w) && !Unique(w)
    ensures |w.procs| == 2 && 1 in w.procs[0].issued && 1 in w.procs[1].issued
  {
    Here(StepOf(r), Init());
    w := Do(r, Init(), Issue(0));
    w := Do(r, w, End(0));
    w := Do(r, w, Action.Fresh(0));
    w := Do(r, w, Issue(1));
    assert !(w.procs[0].issued !! w.procs[1].issued);
  }

  /** The ids from 2 on. */
  function Ids(k: nat): (ids: set<nat>)
    ensures k > 0 ==> k + 1 in ids
  {
    if k == 0 then {} else Ids(k - 1) + {k + 1}
  }

  /** A core that goes on handing out ids beside its candidate. */
  function Busy(k: nat): World {
    World([GIVING.(next := 2 + k, issued := Ids(k)), Candidate(1, 0, 1)], [], 0, 0)
  }

  lemma IssuesOne(r: Regime, k: nat)
    requires r.many && Reachable(r, Busy(k))
    ensures Reachable(r, Busy(k + 1))
  {
    var w := Do(r, Busy(k), Issue(0));
    assert w == Busy(k + 1);
  }

  lemma {:induction false} HandsOutMany(r: Regime, k: nat)
    requires r.many
    ensures Reachable(r, Busy(k))
  {
    if k == 0 {
      Here(StepOf(r), Init());
      var w := Do(r, Init(), First(0));
      assert w.procs == Busy(0).procs;
    } else {
      HandsOutMany(r, k - 1);
      IssuesOne(r, k - 1);
    }
  }

  /** It reaches the numbers its successor started with. */
  lemma ManyIdsMeet(r: Regime) returns (w: World)
    requires r.many
    ensures Reachable(r, w) && !Unique(w)
    ensures |w.procs| == 2 && ID_GAP + 2 in w.procs[0].issued && ID_GAP + 2 in w.procs[1].issued
  {
    var k := ID_GAP + 1;
    HandsOutMany(r, k);
    w := Do(r, Busy(k), Issue(1));
    assert !(w.procs[0].issued !! w.procs[1].issued);
  }

  predicate Quiet(r: Regime) {
    !r.lost && !r.blind && !r.hidden && !r.cold && !r.many
  }

  /** No two processes ever hand out the same id, exactly when none of the five
      things happens. */
  lemma IdsUniqueExactlyWhen(r: Regime)
    ensures (forall w :: Reachable(r, w) ==> Unique(w)) <==> Quiet(r)
  {
    if r.lost {
      var w := LostIdsComeAgain(r);
    } else if r.blind {
      var w := UnseenIdsComeAgain(r);
    } else if r.hidden {
      var w := HiddenIdsComeAgain(r);
    } else if r.cold {
      var w := UnrecordedIdsComeAgain(r);
    } else if r.many {
      var w := ManyIdsMeet(r);
    } else {
      forall w | Reachable(r, w) ensures Unique(w) {
        ReachableUnique(w);
      }
    }
  }
}
