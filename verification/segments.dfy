/** The non-zero stretches of a memory image, as a snapshot's data segments. */
module Segments {
  import opened Bytes

  const ZERO: Byte := '\0'

  /** A stretch ends where this many bytes hold no more than its last one. */
  const GAP := 1024

  datatype Segment = Segment(start: nat, bytes: seq<Byte>) {
    function End(): nat {
      start + |bytes|
    }
  }

  /** `GAP - 1` zeros from here, or zeros up to the end of memory. */
  ghost predicate Gap(mem: seq<Byte>, from: nat) {
    forall i :: from <= i < from + GAP - 1 && i < |mem| ==> mem[i] == ZERO
  }

  /** No gap begins and ends between the two places. */
  ghost predicate Dense(mem: seq<Byte>, from: nat, to: nat) {
    forall i :: from <= i <= to - (GAP - 1) ==> !Gap(mem, i)
  }

  ghost predicate Stretch(mem: seq<Byte>, s: Segment) {
    && s.bytes != [] && s.End() <= |mem| && s.bytes == mem[s.start..s.End()]
    && mem[s.start] != ZERO && mem[s.End() - 1] != ZERO
    && Dense(mem, s.start, s.End())
  }

  ghost predicate Inside(i: nat, s: Segment) {
    s.start <= i < s.End()
  }

  ghost predicate Covered(i: nat, segs: seq<Segment>) {
    exists k :: 0 <= k < |segs| && Inside(i, segs[k])
  }

  ghost predicate Stretches(mem: seq<Byte>, segs: seq<Segment>) {
    forall k :: 0 <= k < |segs| ==> Stretch(mem, segs[k])
  }

  ghost predicate Apart(segs: seq<Segment>) {
    forall j, k :: 0 <= j < k < |segs| ==> segs[j].End() + GAP - 1 <= segs[k].start
  }

  ghost predicate Covers(mem: seq<Byte>, to: nat, segs: seq<Segment>) {
    forall i {:trigger Covered(i, segs)} :: 0 <= i < to && i < |mem| && mem[i] != ZERO ==> Covered(i, segs)
  }

  /** The stretches of `mem`: in order, far apart, nothing left out. */
  ghost predicate Cut(mem: seq<Byte>, segs: seq<Segment>) {
    Stretches(mem, segs) && Apart(segs) && Covers(mem, |mem|, segs)
  }

  /** One byte further without a gap. */
  lemma DenseOn(mem: seq<Byte>, start: nat, last: nat, i: nat)
    requires start <= last < i < |mem| && i - last < GAP
    requires mem[last] != ZERO && mem[i] != ZERO && Dense(mem, start, last + 1)
    ensures Dense(mem, start, i + 1)
  {
    forall j | start <= j <= i + 1 - (GAP - 1) ensures !Gap(mem, j) {
      assert j > last + 1 - (GAP - 1) ==> j <= last < j + GAP - 1 || j <= i < j + GAP - 1;
    }
  }

  /** The inner loop: the last byte of the stretch that starts here. */
  method Grow(mem: seq<Byte>, start: nat) returns (last: nat)
    requires start < |mem| && mem[start] != ZERO
    ensures start <= last < |mem| && mem[last] != ZERO
    ensures Dense(mem, start, last + 1) && Gap(mem, last + 1)
  {
    last := start;
    var i := start;
    while i < |mem| && i - last < GAP
      invariant start <= last <= i <= |mem| && last < |mem|
      invariant last == i ==> i == start
      invariant i - last <= GAP
      invariant mem[last] != ZERO && Dense(mem, start, last + 1)
      invariant forall j :: last < j < i ==> mem[j] == ZERO
    {
      if mem[i] != ZERO {
        if last < i {
          DenseOn(mem, start, last, i);
        }
        last := i;
      }
      i := i + 1;
    }
  }

  lemma CoversMore(mem: seq<Byte>, segs: seq<Segment>, s: Segment)
    requires Covers(mem, s.start, segs)
    ensures Covers(mem, s.End(), segs + [s])
  {
    var all := segs + [s];
    forall i | 0 <= i < s.End() && i < |mem| && mem[i] != ZERO ensures Covered(i, all) {
      if i < s.start {
        assert Covered(i, segs);
        var k :| 0 <= k < |segs| && Inside(i, segs[k]);
        assert Inside(i, all[k]);
      } else {
        assert Inside(i, all[|segs|]);
      }
    }
  }

  lemma StretchesMore(mem: seq<Byte>, segs: seq<Segment>, s: Segment)
    requires Stretches(mem, segs) && Apart(segs) && Stretch(mem, s)
    requires segs != [] ==> segs[|segs| - 1].End() <= s.start && Gap(mem, segs[|segs| - 1].End())
    ensures Stretches(mem, segs + [s]) && Apart(segs + [s])
  {
    if segs != [] {
      var last := segs[|segs| - 1];
      assert last.End() + GAP - 1 <= s.start;
      assert forall j :: 0 <= j < |segs| ==> segs[j].End() <= last.End();
    }
  }

  method Find(mem: seq<Byte>) returns (segs: seq<Segment>)
    ensures Cut(mem, segs)
  {
    segs := [];
    var i := 0;
    while i < |mem|
      invariant i <= |mem|
      invariant Stretches(mem, segs) && Apart(segs) && Covers(mem, i, segs)
      invariant segs != [] ==> segs[|segs| - 1].End() <= i && Gap(mem, segs[|segs| - 1].End())
    {
      if mem[i] == ZERO {
        i := i + 1;
        continue;
      }
      var start := i;
      var last := Grow(mem, start);
      var s := Segment(start, mem[start..last + 1]);
      CoversMore(mem, segs, s);
      StretchesMore(mem, segs, s);
      segs := segs + [s];
      i := last + 1;
    }
  }

  // -------------------------------------------------------------- lossless

  function Blank(n: nat): (z: seq<Byte>)
    ensures |z| == n && forall i :: 0 <= i < n ==> z[i] == ZERO
  {
    seq(n, _ => ZERO)
  }

  function Write(r: seq<Byte>, s: Segment): (w: seq<Byte>)
    requires s.End() <= |r|
    ensures |w| == |r|
    ensures forall i :: 0 <= i < |r| ==> w[i] == if Inside(i, s) then s.bytes[i - s.start] else r[i]
  {
    r[..s.start] + s.bytes + r[s.End()..]
  }

  /** The segments written in order over `n` zeros. */
  function Overlay(n: nat, segs: seq<Segment>): (r: seq<Byte>)
    requires forall k :: 0 <= k < |segs| ==> segs[k].End() <= n
    ensures |r| == n
  {
    if segs == [] then Blank(n) else Write(Overlay(n, segs[..|segs| - 1]), segs[|segs| - 1])
  }

  lemma {:induction false} OverlayAt(mem: seq<Byte>, segs: seq<Segment>, i: nat)
    requires Stretches(mem, segs) && i < |mem|
    ensures forall k :: 0 <= k < |segs| ==> segs[k].End() <= |mem|
    ensures Overlay(|mem|, segs)[i] == if Covered(i, segs) then mem[i] else ZERO
    decreases |segs|
  {
    if segs != [] {
      var init, s := segs[..|segs| - 1], segs[|segs| - 1];
      OverlayAt(mem, init, i);
      assert Covered(i, segs) <==> Covered(i, init) || Inside(i, s) by {
        if k :| 0 <= k < |init| && Inside(i, init[k]) {
          assert Inside(i, segs[k]);
        }
        if k :| 0 <= k < |segs| && Inside(i, segs[k]) {
          assert k < |init| ==> Inside(i, init[k]);
        }
      }
      assert Inside(i, s) ==> s.bytes[i - s.start] == mem[i];
    }
  }

  /** Nothing is lost: the segments over zeroed memory give the image back. */
  lemma Lossless(mem: seq<Byte>, segs: seq<Segment>)
    requires Cut(mem, segs)
    ensures forall k :: 0 <= k < |segs| ==> segs[k].End() <= |mem|
    ensures Overlay(|mem|, segs) == mem
  {
    forall i | 0 <= i < |mem| ensures Overlay(|mem|, segs)[i] == mem[i] {
      OverlayAt(mem, segs, i);
    }
  }

  // ------------------------------------------------------------- canonical

  /** The stretch that holds a non-zero byte at or behind the first `n`. */
  lemma Holder(mem: seq<Byte>, segs: seq<Segment>, n: nat, i: nat) returns (k: nat)
    requires Cut(mem, segs) && n <= |segs| && i < |mem| && mem[i] != ZERO
    requires n > 0 ==> segs[n - 1].End() <= i
    ensures n <= k < |segs| && Inside(i, segs[k])
  {
    assert forall j :: 0 <= j < n ==> segs[j].End() <= i;
    assert Covered(i, segs);
    k :| 0 <= k < |segs| && Inside(i, segs[k]);
  }

  /** A stretch is followed by a gap. */
  lemma GapAfter(mem: seq<Byte>, segs: seq<Segment>, n: nat)
    requires Cut(mem, segs) && n < |segs|
    ensures Gap(mem, segs[n].End())
  {
    var e := segs[n].End();
    forall i | e <= i < e + GAP - 1 && i < |mem| ensures mem[i] == ZERO {
      if mem[i] != ZERO {
        var k := Holder(mem, segs, n + 1, i);
      }
    }
  }

  lemma StartsNoLater(mem: seq<Byte>, one: seq<Segment>, two: seq<Segment>, n: nat)
    requires Cut(mem, one) && Cut(mem, two)
    requires n < |one| && n <= |two| && (n > 0 ==> one[n - 1] == two[n - 1])
    ensures n < |two| && two[n].start <= one[n].start
  {
    assert Stretch(mem, one[n]);
    assert n > 0 ==> one[n - 1].End() + GAP - 1 <= one[n].start;
    var k := Holder(mem, two, n, one[n].start);
    assert n < k ==> two[n].End() + GAP - 1 <= two[k].start;
  }

  lemma EndsNoLater(mem: seq<Byte>, one: seq<Segment>, two: seq<Segment>, n: nat)
    requires Cut(mem, one) && Cut(mem, two)
    requires n < |one| && n < |two| && one[n].start == two[n].start
    ensures two[n].End() <= one[n].End()
  {
    assert Stretch(mem, one[n]) && Stretch(mem, two[n]);
    GapAfter(mem, one, n);
    var e, last := one[n].End(), two[n].End() - 1;
    assert e <= last ==> e <= last - (GAP - 1);
  }

  lemma SameStretch(mem: seq<Byte>, s: Segment, t: Segment)
    requires Stretch(mem, s) && Stretch(mem, t) && s.start == t.start && s.End() == t.End()
    ensures s == t
  {
  }

  lemma SameNext(mem: seq<Byte>, one: seq<Segment>, two: seq<Segment>, n: nat)
    requires Cut(mem, one) && Cut(mem, two)
    requires n < |one| && n <= |two| && (n > 0 ==> one[n - 1] == two[n - 1])
    ensures n < |two| && one[n] == two[n]
  {
    StartsNoLater(mem, one, two, n);
    StartsNoLater(mem, two, one, n);
    EndsNoLater(mem, one, two, n);
    EndsNoLater(mem, two, one, n);
    SameStretch(mem, one[n], two[n]);
  }

  lemma {:induction false} SamePrefix(mem: seq<Byte>, one: seq<Segment>, two: seq<Segment>, n: nat)
    requires Cut(mem, one) && Cut(mem, two) && n <= |one|
    ensures n <= |two| && forall k :: 0 <= k < n ==> one[k] == two[k]
    decreases n
  {
    if n > 0 {
      SamePrefix(mem, one, two, n - 1);
      SameNext(mem, one, two, n - 1);
    }
  }

  /** There is only one way to cut an image up. */
  lemma Canonical(mem: seq<Byte>, one: seq<Segment>, two: seq<Segment>)
    requires Cut(mem, one) && Cut(mem, two)
    ensures one == two
  {
    SamePrefix(mem, one, two, |one|);
    SamePrefix(mem, two, one, |two|);
  }
}
