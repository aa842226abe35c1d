/** Filling the parameters of an endpoint's path. */
module Template {
  import opened Options
  import opened Bytes
  import opened Seqs
  import Percent

  // --------------------------------------------------------- the algorithm

  function Mark(name: seq<Byte>): seq<Byte> {
    ['{'] + name + ['}']
  }

  function Encoded(s: seq<Byte>): seq<Byte> {
    Percent.Encode(s, Percent.Unreserved)
  }

  method Encode(s: seq<Byte>) returns (out: seq<Byte>)
    ensures out == Encoded(s)
  {
    out := [];
    for i := 0 to |s|
      invariant out + Encoded(s[i..]) == Encoded(s)
    {
      ghost var rest := Encoded(s[i + 1..]);
      assert s[i..][1..] == s[i + 1..];
      var b := s[i];
      if Percent.Unreserved(b) {
        Regroup(out, [b], rest);
        out := out + [b];
      } else {
        Regroup(out, Percent.Triplet(b), rest);
        out := out + Percent.Triplet(b);
      }
    }
  }

  datatype Param = Param(name: seq<Byte>, value: seq<Byte>)

  /** Parameter after parameter; `None` is the failed assertion. */
  function Filled(t: seq<Byte>, params: seq<Param>): Option<seq<Byte>>
    decreases |params|
  {
    if params == [] then Some(t)
    else if !Contains(t, Mark(params[0].name)) then None
    else Filled(ReplaceAll(t, Mark(params[0].name), Encoded(params[0].value)), params[1..])
  }

  method Fill(template: seq<Byte>, params: seq<Param>) returns (r: Option<seq<Byte>>)
    ensures r == Filled(template, params)
  {
    var out := template;
    for i := 0 to |params|
      invariant Filled(out, params[i..]) == Filled(template, params)
    {
      assert params[i..][1..] == params[i + 1..];
      var slot := Mark(params[i].name);
      if !Contains(out, slot) {
        return None;
      }
      var value := Encode(params[i].value);
      out := ReplaceAll(out, slot, value);
    }
    return Some(out);
  }

  // ------------------------------------------------------------- templates

  /** A segment of a path: text, or a parameter's place. */
  datatype Part = Word(text: seq<Byte>) | Slot(name: seq<Byte>)

  predicate Plain(s: seq<Byte>) {
    '{' !in s && '}' !in s && '/' !in s
  }

  ghost predicate Proper(ps: seq<Part>) {
    forall i :: 0 <= i < |ps| ==> Plain(if ps[i].Word? then ps[i].text else ps[i].name)
  }

  function Body(p: Part): seq<Byte> {
    match p
    case Word(text) => text
    case Slot(name) => Mark(name)
  }

  function Render(ps: seq<Part>): seq<Byte> {
    if ps == [] then [] else ['/'] + Body(ps[0]) + Render(ps[1..])
  }

  function Put(p: Part, name: seq<Byte>, value: seq<Byte>): Part {
    if p == Slot(name) then Word(value) else p
  }

  function PutAll(ps: seq<Part>, name: seq<Byte>, value: seq<Byte>): (r: seq<Part>)
    ensures |r| == |ps| && forall i :: 0 <= i < |ps| ==> r[i] == Put(ps[i], name, value)
  {
    if ps == [] then [] else [Put(ps[0], name, value)] + PutAll(ps[1..], name, value)
  }

  /** What replacing and looking for a mark do in front of `rest`. */
  ghost predicate PassedOver(text: seq<Byte>, rest: seq<Byte>, pat: seq<Byte>, sub: seq<Byte>)
    requires pat != []
  {
    && ReplaceAll(text + rest, pat, sub) == text + ReplaceAll(rest, pat, sub)
    && (Contains(text + rest, pat) <==> Contains(rest, pat))
  }

  /** Too short a text holds no match. */
  lemma NotShorter(s: seq<Byte>, pat: seq<Byte>, sub: seq<Byte>)
    requires pat != []
    ensures |s| < |pat| ==> ReplaceAll(s, pat, sub) == s && !Contains(s, pat)
  {
  }

  lemma Unbraced(name: seq<Byte>, rest: seq<Byte>)
    ensures (Mark(name) + rest)[1..] == name + ['}'] + rest
  {
  }

  /** A mark is found at a mark only when both have the same name. */
  lemma OneMark(other: seq<Byte>, rest: seq<Byte>, name: seq<Byte>, after: seq<Byte>)
    requires Plain(other) && Plain(name) && Mark(other) + rest == Mark(name) + after
    ensures other == name
  {
    Unbraced(other, rest);
    Unbraced(name, after);
    IndexAt(other, '}', rest);
    IndexAt(name, '}', after);
    assert (other + ['}'] + rest)[..|other|] == other;
    assert (name + ['}'] + after)[..|name|] == name;
  }

  lemma NotHere(other: seq<Byte>, rest: seq<Byte>, name: seq<Byte>)
    requires Plain(other) && Plain(name) && other != name
    ensures !(Mark(name) <= Mark(other) + rest)
  {
    var s, pat := Mark(other) + rest, Mark(name);
    if pat <= s {
      OneMark(other, rest, name, s[|pat|..]);
    }
  }

  /** A byte that begins no match is passed over. */
  lemma PassOne(s: seq<Byte>, pat: seq<Byte>, sub: seq<Byte>)
    requires pat != [] && s != [] && !(pat <= s)
    ensures ReplaceAll(s, pat, sub) == [s[0]] + ReplaceAll(s[1..], pat, sub)
    ensures Contains(s, pat) <==> Contains(s[1..], pat)
  {
    NotShorter(s[1..], pat, sub);
  }

  /** Text without an opening brace is passed over. */
  lemma {:induction false} PassText(text: seq<Byte>, rest: seq<Byte>, name: seq<Byte>, sub: seq<Byte>)
    requires '{' !in text
    ensures PassedOver(text, rest, Mark(name), sub)
    decreases |text|
  {
    var s := text + rest;
    if text == [] {
      assert s == rest;
    } else {
      PassText(text[1..], rest, name, sub);
      assert s[1..] == text[1..] + rest;
      assert Mark(name)[0] == '{' != s[0];
      PassOne(s, Mark(name), sub);
      Regroup([text[0]], text[1..], ReplaceAll(rest, Mark(name), sub));
      assert [text[0]] + text[1..] == text;
    }
  }

  /** Another parameter's mark is passed over. */
  lemma PassMark(other: seq<Byte>, rest: seq<Byte>, name: seq<Byte>, sub: seq<Byte>)
    requires Plain(other) && Plain(name) && other != name
    ensures PassedOver(Mark(other), rest, Mark(name), sub)
  {
    var s, pat, tail := Mark(other) + rest, Mark(name), other + ['}'];
    NotHere(other, rest, name);
    PassOne(s, pat, sub);
    Unbraced(other, rest);
    PassText(tail, rest, name, sub);
    assert ['{'] + tail == Mark(other);
    Regroup(['{'], tail, ReplaceAll(rest, pat, sub));
  }

  lemma HitMark(rest: seq<Byte>, name: seq<Byte>, sub: seq<Byte>)
    ensures ReplaceAll(Mark(name) + rest, Mark(name), sub) == sub + ReplaceAll(rest, Mark(name), sub)
    ensures Contains(Mark(name) + rest, Mark(name))
  {
    assert (Mark(name) + rest)[..|Mark(name)|] == Mark(name);
    assert (Mark(name) + rest)[|Mark(name)|..] == rest;
  }

  /** One part in front of the rest of a template. */
  lemma ReplacePart(p: Part, rest: seq<Byte>, name: seq<Byte>, sub: seq<Byte>)
    requires Plain(if p.Word? then p.text else p.name) && Plain(name)
    ensures ReplaceAll(Body(p) + rest, Mark(name), sub) ==
      Body(Put(p, name, sub)) + ReplaceAll(rest, Mark(name), sub)
    ensures Contains(Body(p) + rest, Mark(name)) <==> p == Slot(name) || Contains(rest, Mark(name))
  {
    if p == Slot(name) {
      HitMark(rest, name, sub);
    } else if p.Slot? {
      PassMark(p.name, rest, name, sub);
    } else {
      PassText(p.text, rest, name, sub);
    }
  }

  lemma RenderHead(p: Part, ps: seq<Part>)
    ensures Render([p] + ps) == ['/'] + (Body(p) + Render(ps))
  {
    assert ([p] + ps)[1..] == ps;
  }

  lemma {:induction false} ReplaceInTemplate(ps: seq<Part>, name: seq<Byte>, sub: seq<Byte>)
    requires Proper(ps) && Plain(name)
    ensures ReplaceAll(Render(ps), Mark(name), sub) == Render(PutAll(ps, name, sub))
    ensures Contains(Render(ps), Mark(name)) <==> Slot(name) in ps
    decreases |ps|
  {
    if ps != [] {
      var p, rest := ps[0], Render(ps[1..]);
      ReplaceInTemplate(ps[1..], name, sub);
      ReplacePart(p, rest, name, sub);
      PassText(['/'], Body(p) + rest, name, sub);
      RenderHead(p, ps[1..]);
      assert ps == [p] + ps[1..];
      RenderHead(Put(p, name, sub), PutAll(ps[1..], name, sub));
    }
  }

  // ------------------------------------- one after another, or all at once

  ghost predicate Distinct(params: seq<Param>) {
    forall i, j :: 0 <= i < j < |params| ==> params[i].name != params[j].name
  }

  ghost predicate Named(params: seq<Param>) {
    forall i :: 0 <= i < |params| ==> Plain(params[i].name)
  }

  /** The value of the first parameter of that name. */
  function Lookup(params: seq<Param>, name: seq<Byte>): (v: Option<seq<Byte>>)
    ensures v.Some? ==> Param(name, v.value) in params
    ensures v.None? ==> forall i :: 0 <= i < |params| ==> params[i].name != name
  {
    if params == [] then None
    else if params[0].name == name then Some(params[0].value)
    else Lookup(params[1..], name)
  }

  function Replaced(p: Part, params: seq<Param>): Part {
    if p.Slot? && Lookup(params, p.name).Some? then Word(Encoded(Lookup(params, p.name).value)) else p
  }

  /** Every place filled at once. */
  function Together(ps: seq<Part>, params: seq<Param>): (r: seq<Part>)
    ensures |r| == |ps| && forall i :: 0 <= i < |ps| ==> r[i] == Replaced(ps[i], params)
  {
    if ps == [] then [] else [Replaced(ps[0], params)] + Together(ps[1..], params)
  }

  /** An encoded value has neither braces nor slashes. */
  lemma EncodedIsPlain(s: seq<Byte>)
    ensures Plain(Encoded(s))
  {
    Percent.OnlyKept(s, Percent.Unreserved);
  }

  lemma SlotsAfterPut(ps: seq<Part>, name: seq<Byte>, value: seq<Byte>, n: seq<Byte>)
    ensures Slot(n) in PutAll(ps, name, value) <==> Slot(n) in ps && n != name
  {
    var rest := PutAll(ps, name, value);
    if i :| 0 <= i < |ps| && ps[i] == Slot(n) && n != name {
      assert rest[i] == Slot(n);
    }
    if i :| 0 <= i < |rest| && rest[i] == Slot(n) {
      assert ps[i] == Slot(n);
    }
  }

  /** A part filled first by one parameter and then by the rest of them. */
  lemma PutThenReplaced(p: Part, params: seq<Param>)
    requires params != []
    ensures Replaced(Put(p, params[0].name, Encoded(params[0].value)), params[1..]) == Replaced(p, params)
  {
  }

  lemma AfterOne(ps: seq<Part>, params: seq<Param>)
    requires Proper(ps) && params != []
    ensures var rest := PutAll(ps, params[0].name, Encoded(params[0].value));
      && Proper(rest) && Together(rest, params[1..]) == Together(ps, params)
      && forall n :: Slot(n) in rest <==> Slot(n) in ps && n != params[0].name
  {
    var name, value := params[0].name, Encoded(params[0].value);
    var rest := PutAll(ps, name, value);
    EncodedIsPlain(params[0].value);
    forall n ensures Slot(n) in rest <==> Slot(n) in ps && n != name {
      SlotsAfterPut(ps, name, value, n);
    }
    forall i | 0 <= i < |ps| ensures Replaced(rest[i], params[1..]) == Replaced(ps[i], params) {
      PutThenReplaced(ps[i], params);
    }
  }

  ghost predicate AllThere(ps: seq<Part>, params: seq<Param>) {
    forall i :: 0 <= i < |params| ==> Slot(params[i].name) in ps
  }

  lemma DistinctTail(ps: seq<Part>, rest: seq<Part>, params: seq<Param>)
    requires params != [] && Slot(params[0].name) in ps
    requires forall n :: Slot(n) in rest <==> Slot(n) in ps && n != params[0].name
    ensures Distinct(params) && AllThere(ps, params) <==> Distinct(params[1..]) && AllThere(rest, params[1..])
  {
    var tail := params[1..];
    assert forall i :: 0 <= i < |tail| ==> tail[i] == params[i + 1];
    if Distinct(tail) && AllThere(rest, tail) {
      forall i | 0 < i < |params| ensures params[i].name != params[0].name && Slot(params[i].name) in ps {
        assert Slot(tail[i - 1].name) in rest;
      }
      forall i, j | 0 < i < j < |params| ensures params[i].name != params[j].name {
        assert tail[i - 1].name != tail[j - 1].name;
      }
    }
  }

  /** Filling one parameter after another succeeds exactly when the names are
      distinct and all of them have a place, and is then filling all at once. */
  lemma {:induction false} FillExactlyWhen(ps: seq<Part>, params: seq<Param>)
    requires Proper(ps) && Named(params)
    ensures Filled(Render(ps), params).Some? <==> Distinct(params) && AllThere(ps, params)
    ensures Filled(Render(ps), params).Some? ==> Filled(Render(ps), params) == Some(Render(Together(ps, params)))
    decreases |params|
  {
    if params == [] {
      assert Together(ps, params) == ps;
    } else {
      var name, value := params[0].name, Encoded(params[0].value);
      ReplaceInTemplate(ps, name, value);
      if Slot(name) in ps {
        var rest := PutAll(ps, name, value);
        AfterOne(ps, params);
        FillExactlyWhen(rest, params[1..]);
        DistinctTail(ps, rest, params);
      }
    }
  }

  lemma SameLookup(one: seq<Param>, two: seq<Param>, n: seq<Byte>)
    requires Distinct(one) && Distinct(two) && forall p :: p in one <==> p in two
    ensures Lookup(one, n) == Lookup(two, n)
  {
    if Lookup(one, n).Some? {
      assert Param(n, Lookup(one, n).value) in two;
    }
    if Lookup(two, n).Some? {
      assert Param(n, Lookup(two, n).value) in one;
    }
  }

  lemma SameThere(ps: seq<Part>, one: seq<Param>, two: seq<Param>)
    requires AllThere(ps, one) && forall p :: p in two ==> p in one
    ensures AllThere(ps, two)
  {
    forall i | 0 <= i < |two| ensures Slot(two[i].name) in ps {
      assert two[i] in one;
    }
  }

  /** The order of the parameters does not matter. */
  lemma AnyOrder(ps: seq<Part>, one: seq<Param>, two: seq<Param>)
    requires Proper(ps) && Named(one) && Named(two) && Distinct(one) && Distinct(two)
    requires forall p :: p in one <==> p in two
    ensures Filled(Render(ps), one) == Filled(Render(ps), two)
  {
    FillExactlyWhen(ps, one);
    FillExactlyWhen(ps, two);
    if AllThere(ps, one) {
      SameThere(ps, one, two);
    }
    if AllThere(ps, two) {
      SameThere(ps, two, one);
    }
    forall i | 0 <= i < |ps| ensures Together(ps, one)[i] == Together(ps, two)[i] {
      if ps[i].Slot? {
        SameLookup(one, two, ps[i].name);
      }
    }
    assert Together(ps, one) == Together(ps, two);
  }

  // -------------------------------------------------- reading it back

  function Texts(ps: seq<Part>): (r: seq<seq<Byte>>)
    requires forall i :: 0 <= i < |ps| ==> ps[i].Word?
    ensures |r| == |ps| && forall i :: 0 <= i < |ps| ==> r[i] == ps[i].text
  {
    if ps == [] then [] else [ps[0].text] + Texts(ps[1..])
  }

  lemma {:induction false} RenderIsPath(ps: seq<Part>)
    requires forall i :: 0 <= i < |ps| ==> ps[i].Word?
    ensures Render(ps) == Path(Texts(ps))
    decreases |ps|
  {
    if ps != [] {
      RenderIsPath(ps[1..]);
      assert Texts(ps)[1..] == Texts(ps[1..]);
    }
  }

  lemma SegmentsOf(ps: seq<Part>)
    requires Proper(ps) && forall i :: 0 <= i < |ps| ==> ps[i].Word?
    ensures Split(Render(ps), '/') == [[]] + Texts(ps)
  {
    RenderIsPath(ps);
    SplitAbsolute(Texts(ps));
  }

  lemma FilledIsWords(ps: seq<Part>, params: seq<Param>)
    requires Proper(ps)
    requires forall i :: 0 <= i < |ps| && ps[i].Slot? ==> Lookup(params, ps[i].name).Some?
    ensures Proper(Together(ps, params)) && forall i :: 0 <= i < |ps| ==> Together(ps, params)[i].Word?
  {
    forall i | 0 <= i < |ps| && ps[i].Slot? ensures Plain(Encoded(Lookup(params, ps[i].name).value)) {
      EncodedIsPlain(Lookup(params, ps[i].name).value);
    }
  }

  lemma FilledSplits(ps: seq<Part>, params: seq<Param>)
    requires Proper(ps) && Named(params) && Distinct(params) && AllThere(ps, params)
    requires forall i :: 0 <= i < |ps| && ps[i].Slot? ==> Lookup(params, ps[i].name).Some?
    ensures forall i :: 0 <= i < |ps| ==> Together(ps, params)[i].Word?
    ensures Filled(Render(ps), params) == Some(Render(Together(ps, params)))
    ensures Split(Render(Together(ps, params)), '/') == [[]] + Texts(Together(ps, params))
  {
    FillExactlyWhen(ps, params);
    FilledIsWords(ps, params);
    SegmentsOf(Together(ps, params));
  }

  lemma SegmentSays(ps: seq<Part>, params: seq<Param>, i: nat, segments: seq<seq<Byte>>)
    requires forall j :: 0 <= j < |ps| ==> Together(ps, params)[j].Word?
    requires segments == [[]] + Texts(Together(ps, params)) && i < |ps|
    ensures segments[i + 1] == Replaced(ps[i], params).text
    ensures ps[i].Slot? && Lookup(params, ps[i].name).Some? ==>
      Percent.Decode(segments[i + 1]) == Lookup(params, ps[i].name).value
  {
    assert Together(ps, params)[i] == Replaced(ps[i], params);
    if ps[i].Slot? && Lookup(params, ps[i].name).Some? {
      ValueDecodes(ps[i], params);
    }
  }

  /** A filled path has a segment for each part, and decoding the segment of a
      parameter's place gives its value back. */
  lemma ValuesComeBack(ps: seq<Part>, params: seq<Param>)
    requires Proper(ps) && Named(params) && Distinct(params) && AllThere(ps, params)
    requires forall i :: 0 <= i < |ps| && ps[i].Slot? ==> Lookup(params, ps[i].name).Some?
    ensures Filled(Render(ps), params).Some?
    ensures var segments := Split(Filled(Render(ps), params).value, '/');
      && |segments| == |ps| + 1 && segments[0] == []
      && (forall i :: 0 <= i < |ps| && ps[i].Word? ==> segments[i + 1] == ps[i].text)
      && (forall i :: 0 <= i < |ps| && ps[i].Slot? ==>
            Percent.Decode(segments[i + 1]) == Lookup(params, ps[i].name).value)
  {
    FilledSplits(ps, params);
    var segments := [[]] + Texts(Together(ps, params));
    forall i | 0 <= i < |ps|
      ensures ps[i].Word? ==> segments[i + 1] == ps[i].text
      ensures ps[i].Slot? ==> Percent.Decode(segments[i + 1]) == Lookup(params, ps[i].name).value
    {
      SegmentSays(ps, params, i, segments);
    }
  }

  lemma ValueDecodes(p: Part, params: seq<Param>)
    requires p.Slot? && Lookup(params, p.name).Some?
    ensures Replaced(p, params).Word?
    ensures Percent.Decode(Replaced(p, params).text) == Lookup(params, p.name).value
  {
    Percent.RoundTrip(Lookup(params, p.name).value, Percent.Unreserved);
  }
}
