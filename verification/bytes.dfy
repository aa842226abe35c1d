/** Bytes, and what is needed to look through sequences of them. */
module Bytes {
  import opened Options
  import opened Seqs

  /** A byte, written as the character of that number. */
  type Byte = c: char | c < '\U{0100}' witness 'a'

  const LF: Byte := '\n'
  const CR: Byte := '\r'

  function Value(b: Byte): (v: nat)
    ensures v < 256
  {
    b as int
  }

  /** The first place of `b`, or the length when it is not there. */
  function Index(s: seq<Byte>, b: Byte): (i: nat)
    ensures i <= |s| && (i < |s| ==> s[i] == b) && forall j :: 0 <= j < i ==> s[j] != b
    ensures i == |s| <==> b !in s
  {
    if s == [] || s[0] == b then 0
    else
      Index(s[1..], b) + 1
  }

  /** The last place of `b`. */
  function LastIndex(s: seq<Byte>, b: Byte): (r: Option<nat>)
    ensures r.Some? ==> r.value < |s| && s[r.value] == b && b !in s[r.value + 1..]
    ensures r.None? <==> b !in s
  {
    if s == [] then None
    else if s[|s| - 1] == b then Some(|s| - 1)
    else
      var r := LastIndex(s[..|s| - 1], b);
      assert s == s[..|s| - 1] + [s[|s| - 1]];
      assert r.Some? ==> s[r.value + 1..] == s[..|s| - 1][r.value + 1..] + [s[|s| - 1]];
      r
  }

  lemma {:induction false} IndexAt(before: seq<Byte>, b: Byte, after: seq<Byte>)
    requires b !in before
    ensures Index(before + [b] + after, b) == |before|
    decreases |before|
  {
    if before != [] {
      assert (before + [b] + after)[1..] == before[1..] + [b] + after;
      IndexAt(before[1..], b, after);
    }
  }

  /** The stretches between the separators. */
  function Split(text: seq<Byte>, separator: Byte): (parts: seq<seq<Byte>>)
    ensures parts != []
    decreases |text|
  {
    var i := Index(text, separator);
    if i == |text| then [text] else [text[..i]] + Split(text[i + 1..], separator)
  }

  lemma SplitFirst(before: seq<Byte>, separator: Byte, after: seq<Byte>)
    requires separator !in before
    ensures Split(before + [separator] + after, separator) == [before] + Split(after, separator)
  {
    var s := before + [separator] + after;
    IndexAt(before, separator, after);
    assert s[..|before|] == before && s[|before| + 1..] == after;
  }

  /** A path of these segments. */
  function Path(texts: seq<seq<Byte>>): seq<Byte> {
    if texts == [] then [] else ['/'] + texts[0] + Path(texts[1..])
  }

  lemma SegmentFirst(text: seq<Byte>, next: seq<Byte>, more: seq<Byte>)
    requires '/' !in text
    ensures Split(text + (['/'] + next + more), '/') == [text] + Split(next + more, '/')
  {
    RegroupThree(text, ['/'], next, more);
    SplitFirst(text, '/', next + more);
  }

  /** A path splits into its segments. */
  lemma {:induction false} SplitPath(text: seq<Byte>, texts: seq<seq<Byte>>)
    requires '/' !in text && forall i :: 0 <= i < |texts| ==> '/' !in texts[i]
    ensures Split(text + Path(texts), '/') == [text] + texts
    decreases |texts|
  {
    if texts == [] {
      assert text + Path(texts) == text;
    } else {
      SplitPath(texts[0], texts[1..]);
      SegmentFirst(text, texts[0], Path(texts[1..]));
      assert [texts[0]] + texts[1..] == texts;
    }
  }

  lemma SplitAbsolute(texts: seq<seq<Byte>>)
    requires forall i :: 0 <= i < |texts| ==> '/' !in texts[i]
    ensures Split(Path(texts), '/') == [[]] + texts
  {
    SplitPath([], texts);
    assert [] + Path(texts) == Path(texts);
  }

  lemma PathOfThree(a: seq<Byte>, b: seq<Byte>, c: seq<Byte>)
    ensures Path([a, b, c]) == ['/'] + a + ['/'] + b + ['/'] + c
  {
    assert Path([c]) == ['/'] + c;
    assert [b, c][1..] == [c];
    assert Path([b, c]) == ['/'] + b + (['/'] + c);
    assert [a, b, c][1..] == [b, c];
    RegroupThree(['/'] + a, ['/'], b, ['/'] + c);
  }

  lemma SplitThree(a: seq<Byte>, b: seq<Byte>, c: seq<Byte>)
    requires '/' !in a && '/' !in b && '/' !in c
    ensures Split(['/'] + a + ['/'] + b + ['/'] + c, '/') == [[], a, b, c]
  {
    PathOfThree(a, b, c);
    SplitAbsolute([a, b, c]);
    assert [[]] + [a, b, c] == [[], a, b, c];
  }

  function Concat(chunks: seq<seq<Byte>>): seq<Byte> {
    if chunks == [] then [] else Concat(chunks[..|chunks| - 1]) + chunks[|chunks| - 1]
  }

  lemma ConcatLast(chunks: seq<seq<Byte>>, last: seq<Byte>)
    ensures Concat(chunks + [last]) == Concat(chunks) + last
  {
    assert (chunks + [last])[..|chunks|] == chunks;
  }

  lemma {:induction false} ConcatHead(chunks: seq<seq<Byte>>)
    requires chunks != []
    ensures Concat(chunks) == chunks[0] + Concat(chunks[1..])
    decreases |chunks|
  {
    var n := |chunks| - 1;
    var init, last := chunks[..n], chunks[n];
    assert chunks == init + [last];
    ConcatLast(init, last);
    if n > 0 {
      ConcatHead(init);
      assert chunks[1..] == init[1..] + [last];
      ConcatLast(init[1..], last);
      Regroup(chunks[0], Concat(init[1..]), last);
    }
  }

  predicate Contains(s: seq<Byte>, pat: seq<Byte>) {
    |s| >= |pat| && (s[..|pat|] == pat || (s != [] && Contains(s[1..], pat)))
  }

  /** Every occurrence of `pat`, from the left, replaced by `sub`. */
  function ReplaceAll(s: seq<Byte>, pat: seq<Byte>, sub: seq<Byte>): seq<Byte>
    requires pat != []
    decreases |s|
  {
    if |s| < |pat| then s
    else if s[..|pat|] == pat then sub + ReplaceAll(s[|pat|..], pat, sub)
    else [s[0]] + ReplaceAll(s[1..], pat, sub)
  }

  /** ASCII lower case. */
  function LowerByte(b: Byte): Byte {
    if 'A' <= b <= 'Z' then (b as int + 32) as char else b
  }

  function Lower(s: seq<Byte>): (l: seq<Byte>)
    ensures |l| == |s| && forall i :: 0 <= i < |s| ==> l[i] == LowerByte(s[i])
  {
    seq(|s|, i requires 0 <= i < |s| => LowerByte(s[i]))
  }

  lemma LowerWhole(s: seq<Byte>)
    requires forall i :: 0 <= i < |s| ==> LowerByte(s[i]) == s[i]
    ensures Lower(s) == s
  {
  }
}
