/** Regions, addresses, and model ids in paths. */
module BedrockEndpoint {
  import opened Options
  import opened Bytes
  import Percent

  // ------------------------------------------------------------- the code

  predicate Digits(s: seq<Byte>) {
    forall i :: 0 <= i < |s| ==> '0' <= s[i] <= '9'
  }

  predicate Word(s: seq<Byte>) {
    s != [] && forall i :: 0 <= i < |s| ==> 'a' <= s[i] <= 'z'
  }

  predicate Words(ws: seq<seq<Byte>>) {
    forall i :: 0 <= i < |ws| ==> Word(ws[i])
  }

  /** At least two words and a number, joined by hyphens. */
  predicate ValidRegion(region: seq<Byte>) {
    match LastIndex(region, '-')
    case None => false
    case Some(i) =>
      var name, number := region[..i], region[i + 1..];
      number != [] && Digits(number) && |Split(name, '-')| >= 2 && Words(Split(name, '-'))
  }

  const SCHEME: seq<Byte> := "https://"
  const PLAIN: seq<Byte> := "bedrock-runtime."
  const FIPS: seq<Byte> := "bedrock-runtime-fips."
  const SUFFIX: seq<Byte> := ".amazonaws.com"

  function RuntimeBase(region: seq<Byte>): seq<Byte> {
    SCHEME + PLAIN + region + SUFFIX
  }

  predicate EndsWith(s: seq<Byte>, end: seq<Byte>) {
    |s| >= |end| && s[|s| - |end|..] == end
  }

  function WithoutSlash(s: seq<Byte>): seq<Byte> {
    if s != [] && s[|s| - 1] == '/' then s[..|s| - 1] else s
  }

  /** What is between a beginning and an end, both in any letter case. */
  function Between(host: seq<Byte>, first: seq<Byte>, last: seq<Byte>): Option<seq<Byte>> {
    if first <= Lower(host) && EndsWith(Lower(host), last) && |host| >= |first| + |last| then
      Some(host[|first|..|host| - |last|])
    else None
  }

  function IfValid(region: Option<seq<Byte>>): Option<seq<Byte>> {
    if region.Some? && ValidRegion(region.value) then region else None
  }

  /** The region after the first of the two labels that fits. */
  function RegionInHost(host: seq<Byte>): Option<seq<Byte>> {
    if PLAIN <= Lower(host) then IfValid(Between(host, PLAIN, SUFFIX))
    else if FIPS <= Lower(host) then IfValid(Between(host, FIPS, SUFFIX))
    else None
  }

  function RegionOf(url: seq<Byte>): Option<seq<Byte>> {
    if |url| < |SCHEME| || Lower(url[..|SCHEME|]) != SCHEME then None
    else RegionInHost(WithoutSlash(url[|SCHEME|..]))
  }

  /** What of a model id may stand in a path as it is. */
  predicate KeptInPath(b: Byte) {
    ' ' < b < '\U{007F}' && b != '"' && b != '#' && b != '%' && b != '/' && b != '<' && b != '>' &&
    b != '?' && b != '`' && b != '{' && b != '}'
  }

  function TrimSlashes(s: seq<Byte>): (t: seq<Byte>)
    ensures t <= s && (t != [] ==> t[|t| - 1] != '/')
    ensures forall i :: |t| <= i < |s| ==> s[i] == '/'
  {
    if s != [] && s[|s| - 1] == '/' then TrimSlashes(s[..|s| - 1]) else s
  }

  const MODEL: seq<Byte> := "/model/"

  function RuntimeUrl(base: seq<Byte>, path: seq<Byte>): seq<Byte> {
    if !(MODEL <= path) then TrimSlashes(base) + path
    else
      var rest := path[|MODEL|..];
      match LastIndex(rest, '/')
      case None => TrimSlashes(base) + path
      case Some(i) =>
        if i == 0 then TrimSlashes(base) + path
        else TrimSlashes(base) + MODEL + Percent.Encode(rest[..i], KeptInPath) + ['/'] + rest[i + 1..]
  }

  // ------------------------------------------------------------- addresses

  /** `region` as it stands, between a beginning and an end in any case. */
  ghost predicate Around(host: seq<Byte>, first: seq<Byte>, region: seq<Byte>, last: seq<Byte>) {
    && |host| == |first| + |region| + |last|
    && Lower(host[..|first|]) == first
    && host[|first|..|first| + |region|] == region
    && Lower(host[|first| + |region|..]) == last
  }

  lemma LowerSlice(s: seq<Byte>, from: nat, to: nat)
    requires from <= to <= |s|
    ensures Lower(s[from..to]) == Lower(s)[from..to]
  {
  }

  lemma BetweenExactlyWhen(host: seq<Byte>, first: seq<Byte>, region: seq<Byte>, last: seq<Byte>)
    ensures Between(host, first, last) == Some(region) <==> Around(host, first, region, last)
  {
    if |host| >= |first| + |last| {
      LowerSlice(host, 0, |first|);
      LowerSlice(host, |host| - |last|, |host|);
    }
  }

  ghost predicate HostOf(host: seq<Byte>, region: seq<Byte>) {
    Around(host, PLAIN, region, SUFFIX) || Around(host, FIPS, region, SUFFIX)
  }

  lemma LabelsDiffer(lower: seq<Byte>)
    ensures !(PLAIN <= lower && FIPS <= lower)
  {
    assert PLAIN <= lower ==> lower[15] == '.';
    assert FIPS <= lower ==> lower[15] == '-';
  }

  lemma HostExactlyWhen(host: seq<Byte>, region: seq<Byte>)
    ensures RegionInHost(host) == Some(region) <==> ValidRegion(region) && HostOf(host, region)
  {
    LabelsDiffer(Lower(host));
    BetweenExactlyWhen(host, PLAIN, region, SUFFIX);
    BetweenExactlyWhen(host, FIPS, region, SUFFIX);
  }

  /** An address of that region: standard or FIPS, with or without a slash at
      the end, and in any letter case outside the region. */
  ghost predicate AddressOf(url: seq<Byte>, region: seq<Byte>) {
    && |url| >= |SCHEME| && Lower(url[..|SCHEME|]) == SCHEME
    && var rest := url[|SCHEME|..];
    HostOf(rest, region) || (rest != [] && rest[|rest| - 1] == '/' && HostOf(rest[..|rest| - 1], region))
  }

  lemma NoSlashAtEnd(host: seq<Byte>, first: seq<Byte>, region: seq<Byte>, last: seq<Byte>)
    requires Around(host, first, region, last) && last != [] && last[|last| - 1] != '/'
    ensures WithoutSlash(host) == host
  {
    var tail := host[|first| + |region|..];
    assert tail[|tail| - 1] == host[|host| - 1];
    assert Lower(tail)[|tail| - 1] == LowerByte(host[|host| - 1]);
  }

  lemma HostHasNoSlashAtEnd(host: seq<Byte>, region: seq<Byte>)
    requires HostOf(host, region)
    ensures WithoutSlash(host) == host
  {
    assert SUFFIX[|SUFFIX| - 1] == 'm';
    if Around(host, PLAIN, region, SUFFIX) {
      NoSlashAtEnd(host, PLAIN, region, SUFFIX);
    } else {
      NoSlashAtEnd(host, FIPS, region, SUFFIX);
    }
  }

  /** The region found in an address is the one it is an address of. */
  lemma RegionExactlyWhen(url: seq<Byte>, region: seq<Byte>)
    ensures RegionOf(url) == Some(region) <==> ValidRegion(region) && AddressOf(url, region)
  {
    if |url| >= |SCHEME| {
      var rest := url[|SCHEME|..];
      HostExactlyWhen(WithoutSlash(rest), region);
      if HostOf(rest, region) {
        HostHasNoSlashAtEnd(rest, region);
      }
    }
  }

  lemma MadeAround(first: seq<Byte>, region: seq<Byte>, last: seq<Byte>)
    requires Lower(first) == first && Lower(last) == last
    ensures Around(first + region + last, first, region, last)
  {
    var host := first + region + last;
    assert host[..|first|] == first && host[|first| + |region|..] == last;
    assert host[|first|..|first| + |region|] == region;
  }

  lemma Parts(scheme: seq<Byte>, first: seq<Byte>, region: seq<Byte>, last: seq<Byte>)
    ensures var url := scheme + first + region + last;
      |url| >= |scheme| && url[..|scheme|] == scheme && url[|scheme|..] == first + region + last
  {
  }

  lemma BaseHost(region: seq<Byte>)
    ensures HostOf(PLAIN + region + SUFFIX, region)
  {
    LowerWhole(PLAIN);
    LowerWhole(SUFFIX);
    MadeAround(PLAIN, region, SUFFIX);
  }

  lemma BaseParts(region: seq<Byte>)
    ensures RegionOf(RuntimeBase(region)) == RegionInHost(WithoutSlash(PLAIN + region + SUFFIX))
  {
    LowerWhole(SCHEME);
    Parts(SCHEME, PLAIN, region, SUFFIX);
  }

  /** The address made for a region is an address of that region; and only a
      valid region comes back from one. */
  lemma RegionRoundTrip(region: seq<Byte>)
    ensures RegionOf(RuntimeBase(region)) == Some(region) <==> ValidRegion(region)
  {
    var host := PLAIN + region + SUFFIX;
    BaseHost(region);
    BaseParts(region);
    HostHasNoSlashAtEnd(host, region);
    HostExactlyWhen(host, region);
  }

  /** Words with a hyphen between each two. */
  function Hyphened(ws: seq<seq<Byte>>): seq<Byte> {
    if ws == [] then [] else if |ws| == 1 then ws[0] else ws[0] + ['-'] + Hyphened(ws[1..])
  }

  lemma {:induction false} SplitOfWords(ws: seq<seq<Byte>>)
    requires ws != [] && Words(ws)
    ensures Split(Hyphened(ws), '-') == ws
    decreases |ws|
  {
    assert Word(ws[0]) && '-' !in ws[0];
    if |ws| == 1 {
      assert ws == [ws[0]];
    } else {
      SplitFirst(ws[0], '-', Hyphened(ws[1..]));
      SplitOfWords(ws[1..]);
      assert [ws[0]] + ws[1..] == ws;
    }
  }

  lemma {:induction false} WordsOfSplit(name: seq<Byte>)
    ensures Hyphened(Split(name, '-')) == name
    decreases |name|
  {
    var i := Index(name, '-');
    if i < |name| {
      var more := Split(name[i + 1..], '-');
      WordsOfSplit(name[i + 1..]);
      assert ([name[..i]] + more)[1..] == more;
      assert name == name[..i] + ['-'] + name[i + 1..];
    }
  }

  lemma {:induction false} LastHyphen(name: seq<Byte>, number: seq<Byte>)
    requires '-' !in number
    ensures LastIndex(name + ['-'] + number, '-') == Some(|name|)
    decreases |number|
  {
    var s := name + ['-'] + number;
    if number != [] {
      var init := number[..|number| - 1];
      assert s[..|s| - 1] == name + ['-'] + init;
      assert s[|s| - 1] == number[|number| - 1];
      LastHyphen(name, init);
    }
  }

  ghost predicate MadeOf(region: seq<Byte>, ws: seq<seq<Byte>>, number: seq<Byte>) {
    region == Hyphened(ws) + ['-'] + number && |ws| >= 2 && Words(ws) && number != [] && Digits(number)
  }

  lemma MadeIsValid(region: seq<Byte>, ws: seq<seq<Byte>>, number: seq<Byte>)
    requires MadeOf(region, ws, number)
    ensures ValidRegion(region)
  {
    var name := Hyphened(ws);
    SplitOfWords(ws);
    LastHyphen(name, number);
    assert region[..|name|] == name && region[|name| + 1..] == number;
  }

  lemma ValidIsMade(region: seq<Byte>) returns (ws: seq<seq<Byte>>, number: seq<Byte>)
    requires ValidRegion(region)
    ensures MadeOf(region, ws, number)
  {
    var i := LastIndex(region, '-').value;
    ws, number := Split(region[..i], '-'), region[i + 1..];
    WordsOfSplit(region[..i]);
  }

  /** A region is valid exactly if it is two lower-case words or more and a number,
      with hyphens between them. */
  lemma RegionShapeExactlyWhen(region: seq<Byte>)
    ensures ValidRegion(region) <==> exists ws, number :: MadeOf(region, ws, number)
  {
    if ValidRegion(region) {
      var ws, number := ValidIsMade(region);
    } else {
      forall ws, number | MadeOf(region, ws, number) ensures false {
        MadeIsValid(region, ws, number);
      }
    }
  }

  /** The address of a region. */
  lemma RuntimeBaseSays(region: seq<Byte>)
    ensures RuntimeBase(region) == "https://bedrock-runtime." + region + ".amazonaws.com"
  {
    assert SCHEME + PLAIN == "https://bedrock-runtime.";
  }

  /** What of a model id is written as a triplet, by number: controls and the space,
      everything beyond ASCII, and ten more. */
  lemma EscapedByNumber(b: Byte)
    ensures var v := Value(b);
      !KeptInPath(b) <==>
        || v <= 32 || v >= 127 || v == 34 || v == 35 || v == 37 || v == 47 || v == 60 || v == 62
        || v == 63 || v == 96 || v == 123 || v == 125
  {
  }

  predicate HostByte(b: Byte) {
    'a' <= b <= 'z' || '0' <= b <= '9' || b == '-' || b == '.'
  }

  lemma {:induction false} SplitWordsBytes(name: seq<Byte>)
    requires Words(Split(name, '-'))
    ensures forall i :: 0 <= i < |name| ==> 'a' <= name[i] <= 'z' || name[i] == '-'
    decreases |name|
  {
    var i := Index(name, '-');
    var parts := Split(name, '-');
    assert Word(parts[0]) && parts[0] == name[..i];
    if i < |name| {
      assert Words(Split(name[i + 1..], '-')) by {
        assert parts[1..] == Split(name[i + 1..], '-');
      }
      SplitWordsBytes(name[i + 1..]);
      assert name == name[..i] + ['-'] + name[i + 1..];
    }
  }

  /** A valid region adds no more than one label to the host: it cannot start
      a path, a query, a port or another host. */
  lemma RegionIsOneLabel(region: seq<Byte>)
    requires ValidRegion(region)
    ensures forall i :: 0 <= i < |region| ==> HostByte(region[i]) && region[i] != '.'
    ensures 'a' <= region[0] <= 'z' && '0' <= region[|region| - 1] <= '9'
  {
    var i := LastIndex(region, '-').value;
    SplitWordsBytes(region[..i]);
    assert region == region[..i] + ['-'] + region[i + 1..];
    assert Word(Split(region[..i], '-')[0]);
  }

  // ------------------------------------------------------------- model ids

  lemma {:induction false} LastIndexAt(before: seq<Byte>, b: Byte, after: seq<Byte>)
    requires b !in after
    ensures LastIndex(before + [b] + after, b) == Some(|before|)
    decreases |after|
  {
    var s := before + [b] + after;
    if after == [] {
    } else {
      assert s[..|s| - 1] == before + [b] + after[..|after| - 1];
      LastIndexAt(before, b, after[..|after| - 1]);
    }
  }

  function ModelPath(id: seq<Byte>, action: seq<Byte>): seq<Byte> {
    MODEL + (id + ['/'] + action)
  }

  lemma UrlOfModel(base: seq<Byte>, id: seq<Byte>, action: seq<Byte>)
    requires id != [] && '/' !in action
    ensures RuntimeUrl(base, ModelPath(id, action)) ==
      TrimSlashes(base) + MODEL + Percent.Encode(id, KeptInPath) + ['/'] + action
  {
    var path, rest := ModelPath(id, action), id + ['/'] + action;
    assert MODEL <= path && path[|MODEL|..] == rest;
    LastIndexAt(id, '/', action);
    assert rest[..|id|] == id && rest[|id| + 1..] == action;
  }

  /** Every path either is a model's, or is appended as it is. */
  lemma EveryPath(base: seq<Byte>, path: seq<Byte>)
    returns (shaped: bool, id: seq<Byte>, action: seq<Byte>)
    ensures shaped ==> path == ModelPath(id, action) && id != [] && '/' !in action
    ensures !shaped ==> RuntimeUrl(base, path) == TrimSlashes(base) + path
  {
    shaped, id, action := false, [], [];
    if MODEL <= path {
      var rest := path[|MODEL|..];
      var last := LastIndex(rest, '/');
      if last.Some? && last.value > 0 {
        ShapeOf(path, MODEL, rest, last.value);
        shaped, id, action := true, rest[..last.value], rest[last.value + 1..];
      }
    }
  }

  lemma ShapeOf(path: seq<Byte>, first: seq<Byte>, rest: seq<Byte>, i: nat)
    requires first <= path && rest == path[|first|..] && i < |rest| && rest[i] == '/'
    ensures path == first + (rest[..i] + ['/'] + rest[i + 1..])
  {
  }

  lemma EncodedId(id: seq<Byte>)
    ensures var segment := Percent.Encode(id, KeptInPath);
      Percent.Decode(segment) == id && '/' !in segment && '?' !in segment && '#' !in segment
  {
    Percent.RoundTrip(id, KeptInPath);
    Percent.OnlyKept(id, KeptInPath);
  }

  /** Whatever the model id, the address gets four segments: nothing, `model`,
      one that decodes to the id, and the action. No byte of the id starts a
      query or a fragment. */
  lemma ModelIdIsOneSegment(base: seq<Byte>, id: seq<Byte>, action: seq<Byte>)
    returns (path: seq<Byte>, segment: seq<Byte>)
    requires id != [] && '/' !in action
    ensures RuntimeUrl(base, ModelPath(id, action)) == TrimSlashes(base) + path
    ensures Split(path, '/') == [[], "model", segment, action]
    ensures Percent.Decode(segment) == id && '?' !in segment && '#' !in segment
  {
    EncodedId(id);
    segment := Percent.Encode(id, KeptInPath);
    path := UrlEndsIn(base, id, action, segment);
    ModelPathSplits(segment, action);
  }

  lemma UrlEndsIn(base: seq<Byte>, id: seq<Byte>, action: seq<Byte>, segment: seq<Byte>)
    returns (path: seq<Byte>)
    requires id != [] && '/' !in action && segment == Percent.Encode(id, KeptInPath)
    ensures path == MODEL + segment + ['/'] + action
    ensures RuntimeUrl(base, ModelPath(id, action)) == TrimSlashes(base) + path
  {
    path := MODEL + segment + ['/'] + action;
    UrlOfModel(base, id, action);
    Onto(TrimSlashes(base), MODEL, segment, action);
  }

  lemma ModelPathSplits(segment: seq<Byte>, action: seq<Byte>)
    requires '/' !in segment && '/' !in action
    ensures Split(MODEL + segment + ['/'] + action, '/') == [[], "model", segment, action]
  {
    SplitThree("model", segment, action);
    assert ['/'] + "model" + ['/'] == MODEL;
    assert MODEL + segment + ['/'] + action == ['/'] + "model" + ['/'] + segment + ['/'] + action;
  }

  lemma Onto(base: seq<Byte>, first: seq<Byte>, segment: seq<Byte>, action: seq<Byte>)
    ensures base + first + segment + ['/'] + action == base + (first + segment + ['/'] + action)
  {
  }
}
