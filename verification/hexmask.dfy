/** Masking what looks like a control key in text that cannot be parsed. A
    character stands for one byte of the text. */
module HexMask {

  const KEY_HEX_LEN := 64
  function Repeat(c: char, n: nat): (s: string)
    ensures |s| == n && forall i :: 0 <= i < n ==> s[i] == c
  {
    if n == 0 then [] else Repeat(c, n - 1) + [c]
  }

  /** As long as a key, and with no hex digit at either end. */
  function KeyMask(): (m: string)
    ensures |m| == KEY_HEX_LEN && !Hex(m[0]) && !Hex(m[KEY_HEX_LEN - 1])
  {
    "hidden-see-" + "twcore-" + "control-key-" + Repeat('x', 34)
  }

  predicate Hex(b: char) {
    '0' <= b <= '9' || 'a' <= b <= 'f' || 'A' <= b <= 'F'
  }

  /** A stretch of hex digits that cannot be made longer. */
  ghost predicate Run(t: string, from: int, to: int) {
    && 0 <= from < to <= |t|
    && (forall i :: from <= i < to ==> Hex(t[i]))
    && (from > 0 ==> !Hex(t[from - 1]))
    && (to < |t| ==> !Hex(t[to]))
  }

  ghost predicate KeyAt(t: string, a: int) {
    Run(t, a, a + KEY_HEX_LEN)
  }

  ghost predicate InKey(t: string, i: int) {
    exists a :: a <= i < a + KEY_HEX_LEN && KeyAt(t, a)
  }

  /** `m` is the first `n` bytes of `t`, every key in them replaced and nothing
      else changed. */
  ghost predicate MaskedTo(t: string, n: int, m: string) {
    && 0 <= n <= |t| && |m| == n
    && (forall a :: KeyAt(t, a) && a + KEY_HEX_LEN <= n ==> m[a..a + KEY_HEX_LEN] == KeyMask())
    && (forall i {:trigger InKey(t, i)} :: 0 <= i < n && !InKey(t, i) ==> m[i] == t[i])
  }

  ghost predicate Masked(t: string, m: string) {
    MaskedTo(t, |t|, m)
  }

  /** No run goes across this place. */
  ghost predicate Boundary(t: string, i: int) {
    0 <= i <= |t| && (0 < i < |t| ==> !Hex(t[i - 1]) || !Hex(t[i]))
  }

  /** Two runs that touch are the same run. */
  lemma SameRun(t: string, from: int, to: int, a: int, b: int)
    requires Run(t, from, to) && Run(t, a, b) && a < to && from < b
    ensures a == from && b == to
  {
  }

  /** A byte that is not a hex digit is copied. */
  lemma CopyOne(t: string, i: int, m: string)
    requires MaskedTo(t, i, m) && i < |t| && !Hex(t[i])
    ensures MaskedTo(t, i + 1, m + [t[i]])
  {
    var next := m + [t[i]];
    forall a | KeyAt(t, a) && a + KEY_HEX_LEN <= i + 1 ensures next[a..a + KEY_HEX_LEN] == KeyMask() {
      assert Hex(t[a + KEY_HEX_LEN - 1]);
      assert next[a..a + KEY_HEX_LEN] == m[a..a + KEY_HEX_LEN];
    }
  }

  /** A run is replaced when it is as long as a key, and copied otherwise. */
  lemma CopyRun(t: string, from: int, to: int, m: string, more: string)
    requires MaskedTo(t, from, m) && Run(t, from, to)
    requires more == if to - from == KEY_HEX_LEN then KeyMask() else t[from..to]
    ensures MaskedTo(t, to, m + more)
  {
    var next := m + more;
    forall a | KeyAt(t, a) && a + KEY_HEX_LEN <= to ensures next[a..a + KEY_HEX_LEN] == KeyMask() {
      if a + KEY_HEX_LEN > from {
        SameRun(t, from, to, a, a + KEY_HEX_LEN);
        assert next[from..to] == more;
      } else {
        assert next[a..a + KEY_HEX_LEN] == m[a..a + KEY_HEX_LEN];
      }
    }
    forall i | 0 <= i < to && !InKey(t, i) ensures next[i] == t[i] {
      assert to - from == KEY_HEX_LEN ==> KeyAt(t, from);
    }
  }

  /** The inner loop: where the run that starts here ends. */
  method RunEnd(text: string, start: nat) returns (i: nat)
    requires start < |text| && Hex(text[start]) && Boundary(text, start)
    ensures Run(text, start, i) && Boundary(text, i)
  {
    i := start;
    while i < |text| && Hex(text[i])
      invariant start <= i <= |text| && forall j :: start <= j < i ==> Hex(text[j])
    {
      i := i + 1;
    }
  }

  lemma Slide(text: string, out: string, last: int, from: int, to: int)
    requires 0 <= last <= from <= to <= |text|
    ensures out + text[last..to] == out + text[last..from] + text[from..to]
    ensures from == to ==> text[from..to] == []
  {
  }

  /** The state of the loop: what is written and what is still to be copied
      make the masked text so far. */
  ghost predicate Progress(text: string, out: string, last: int, i: int) {
    0 <= last <= i && Boundary(text, i) && MaskedTo(text, i, out + text[last..i])
  }

  lemma AfterOne(text: string, out: string, last: int, i: int)
    requires Progress(text, out, last, i) && i < |text| && !Hex(text[i])
    ensures Progress(text, out, last, i + 1)
  {
    CopyOne(text, i, out + text[last..i]);
    Slide(text, out, last, i, i + 1);
    assert text[i..i + 1] == [text[i]];
  }

  /** After a run, with the text before it copied only when it is a key. */
  lemma AfterRun(text: string, out: string, last: int, start: int, i: int)
    requires Progress(text, out, last, start) && Run(text, start, i) && Boundary(text, i)
    ensures i - start == KEY_HEX_LEN ==> Progress(text, out + text[last..start] + KeyMask(), i, i)
    ensures i - start != KEY_HEX_LEN ==> Progress(text, out, last, i)
  {
    var done := out + text[last..start];
    if i - start == KEY_HEX_LEN {
      CopyRun(text, start, i, done, KeyMask());
      Slide(text, done + KeyMask(), i, i, i);
      assert done + KeyMask() + [] == done + KeyMask();
    } else {
      CopyRun(text, start, i, done, text[start..i]);
      Slide(text, out, last, start, i);
    }
  }

  method MaskHexRuns(text: string) returns (out: string)
    ensures Masked(text, out)
  {
    out := [];
    var i, last := 0, 0;
    assert Progress(text, out, last, i);
    while i < |text|
      invariant Progress(text, out, last, i)
    {
      if !Hex(text[i]) {
        AfterOne(text, out, last, i);
        i := i + 1;
        continue;
      }
      var start := i;
      i := RunEnd(text, start);
      AfterRun(text, out, last, start, i);
      if i - start == KEY_HEX_LEN {
        out := out + text[last..start] + KeyMask();
        last := i;
      }
    }
    assert text[last..] == text[last..i];
    out := out + text[last..];
  }

  /** Every place of a key holds the mask's byte for it. */
  lemma MaskAt(t: string, m: string, a: int, i: int)
    requires Masked(t, m) && KeyAt(t, a) && a <= i < a + KEY_HEX_LEN
    ensures m[i] == KeyMask()[i - a]
  {
    assert m[i] == m[a..a + KEY_HEX_LEN][i - a];
  }

  /** There is only one such text. */
  lemma OnlyOne(t: string, one: string, two: string)
    requires Masked(t, one) && Masked(t, two)
    ensures one == two
  {
    forall i | 0 <= i < |t| ensures one[i] == two[i] {
      if InKey(t, i) {
        var a :| a <= i < a + KEY_HEX_LEN && KeyAt(t, a);
        MaskAt(t, one, a, i);
        MaskAt(t, two, a, i);
      }
    }
  }

  /** Next to a key there is no hex digit. */
  lemma AroundKey(t: string, i: int, next: int)
    requires 0 <= next < |t| && !InKey(t, next) && (next == i + 1 || next == i - 1)
    ensures InKey(t, i) ==> !Hex(t[next])
  {
    if InKey(t, i) {
      var k :| k <= i < k + KEY_HEX_LEN && KeyAt(t, k);
      assert next < k || next >= k + KEY_HEX_LEN;
    }
  }

  lemma MaskEnds(t: string, m: string, a: int)
    requires Masked(t, m) && KeyAt(t, a)
    ensures !Hex(m[a]) && !Hex(m[a + KEY_HEX_LEN - 1])
  {
    MaskAt(t, m, a, a);
    MaskAt(t, m, a, a + KEY_HEX_LEN - 1);
  }

  /** The mask neither begins nor ends with a hex digit, so a run in masked
      text that leaves the masks alone was there before, with the same ends. */
  lemma RunWasThere(t: string, m: string, a: int)
    requires Masked(t, m) && KeyAt(m, a)
    requires forall i :: a <= i < a + KEY_HEX_LEN ==> !InKey(t, i)
    ensures KeyAt(t, a)
  {
    var b := a + KEY_HEX_LEN;
    forall i | a <= i < b ensures m[i] == t[i] {
      assert !InKey(t, i);
    }
    if a > 0 {
      AroundKey(t, a - 1, a);
    }
    if b < |t| {
      AroundKey(t, b, b - 1);
    }
  }

  /** Masked text holds nothing that could be a key. */
  lemma NoKeyLeft(t: string, m: string, a: int)
    requires Masked(t, m)
    ensures !KeyAt(m, a)
  {
    if KeyAt(m, a) {
      if i :| a <= i < a + KEY_HEX_LEN && InKey(t, i) {
        var k :| k <= i < k + KEY_HEX_LEN && KeyAt(t, k);
        MaskEnds(t, m, k);
      } else {
        RunWasThere(t, m, a);
        assert InKey(t, a);
      }
    }
  }

  /** Masking twice is masking once. */
  lemma Idempotent(t: string, once: string, twice: string)
    requires Masked(t, once) && Masked(once, twice)
    ensures twice == once
  {
    forall i | 0 <= i < |once| ensures twice[i] == once[i] {
      if InKey(once, i) {
        var a :| a <= i < a + KEY_HEX_LEN && KeyAt(once, a);
        NoKeyLeft(t, once, a);
      }
    }
  }
}
