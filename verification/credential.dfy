/** Whether an upstream's credential is well written, and what is then sent. */
module Credential {
  import opened Options
  import opened Bytes
  import opened Seqs
  import BedrockEndpoint

  type Text = seq<Byte>

  datatype Protocol = Anthropic | OpenaiChat | OpenaiResponses | Gemini | Chatgpt | Bedrock

  datatype Header = Header(name: Text, value: Text)

  datatype Oauth = Oauth(refresh: Text, endpoint: Text)

  datatype Aws = Aws(
    keyId: Option<Text>, secret: Option<Text>, session: Option<Text>,
    profile: Option<Text>, region: Option<Text>)

  /** An upstream as configured; `protocol` is the one in effect. */
  datatype Provider = Provider(
    disabled: bool, protocol: Option<Protocol>, baseUrl: Text,
    key: Option<Text>, oauth: Option<Oauth>, aws: Option<Aws>,
    headers: seq<Header>, forwardClientIdentity: bool)

  /** Trimming, expanding environment variables, and what is known of hosts. */
  datatype Env = Env(
    trim: Text -> Text, resolve: Text -> Option<Text>,
    claude: Text -> bool, cloudCode: Text -> bool, codexBackend: Text -> bool)

  datatype Error =
    | EmptyKey | KeyAndOauth | EmptyOauth | ClaudeSubscription | GoogleSubscription
    | ChatgptWithoutLogin | ChatgptClientIdentity | IdentityHeader(name: Text)
    | TooManyHeaders | BadHeaderName(name: Text) | ReservedHeader(name: Text)
    | DuplicateHeader(name: Text) | BadHeaderValue(name: Text)
    | UnknownPlaceholder(name: Text, placeholder: Text) | TokenWithoutOauth(name: Text)
    | KeyAndAuthHeader(name: Text) | OauthAndAuthHeader(name: Text) | NoToken
    | BedrockOauth | KeyAndAws | BedrockNoCredential | AwsNotBedrock | AwsEmpty
    | AwsProfileAndKeys | AwsEmptyProfile | AwsSignedHeader(name: Text)
    | AwsNoRegion | AwsBadRegion(region: Text) | AwsRegionMismatch(given: Text, host: Text)
    | Unresolved(value: Text)

  const ACCESS_TOKEN: Text := "{{access_token}}"

  const MAX_HEADERS := 32
  const MAX_HEADER_NAME := 128
  const MAX_HEADER_VALUE := 4096

  predicate Reserved(lower: Text) {
    lower == "host" || lower == "content-length" || lower == "transfer-encoding" || lower == "connection" ||
    lower == "keep-alive" || lower == "te" || lower == "trailer" || lower == "upgrade" ||
    lower == "proxy-connection" || lower == "proxy-authorization"
  }

  /** The headers that signing with AWS access keys writes. */
  predicate Signed(lower: Text) {
    lower == "authorization" || lower == "x-amz-date" || lower == "x-amz-content-sha256" ||
    lower == "x-amz-security-token"
  }

  /** The headers that say who a request comes from. */
  predicate Identity(lower: Text) {
    lower == "originator" || lower == "user-agent" || lower == "session-id" || lower == "session_id" ||
    lower == "version" || lower == "x-oai-attestation" || lower == "x-codex-installation-id" ||
    lower == "x-codex-turn-metadata"
  }

  datatype Auth = Auth(name: Text, prefix: Text)

  function AuthHeader(protocol: Option<Protocol>): Auth {
    match protocol
    case Some(Gemini) => Auth("x-goog-api-key", "")
    case Some(OpenaiChat) => Auth("authorization", "Bearer ")
    case Some(OpenaiResponses) => Auth("authorization", "Bearer ")
    case Some(Chatgpt) => Auth("authorization", "Bearer ")
    case Some(Bedrock) => Auth("authorization", "Bearer ")
    case Some(Anthropic) => Auth("x-api-key", "")
    case None => Auth("x-api-key", "")
  }

  // ---------------------------------------------------------- placeholders

  predicate At(s: Text, pat: Text, i: nat) {
    i + |pat| <= |s| && s[i..i + |pat|] == pat
  }

  /** The first place of `pat` at or after `from`. */
  function FindFrom(s: Text, pat: Text, from: nat): (r: Option<nat>)
    requires from <= |s|
    ensures r.Some? ==> from <= r.value && At(s, pat, r.value)
    ensures forall i :: from <= i && (r.Some? ==> i < r.value) ==> !At(s, pat, i)
    decreases |s| - from
  {
    if At(s, pat, from) then Some(from)
    else if from == |s| then None
    else FindFrom(s, pat, from + 1)
  }

  const OPENING: Text := "{{"
  const CLOSING: Text := "}}"

  datatype Span = Span(from: nat, to: nat)

  /** The next `{{…}}`, up to the first `}}` after its beginning. */
  function Hole(s: Text, from: nat): (r: Option<Span>)
    requires from <= |s|
    ensures r.Some? ==> from <= r.value.from < r.value.to <= |s|
  {
    match FindFrom(s, OPENING, from)
    case None => None
    case Some(i) =>
      match FindFrom(s, CLOSING, i)
      case None => None
      case Some(j) => Some(Span(i, j + |CLOSING|))
  }

  function Holes(s: Text, from: nat): (holes: seq<Text>)
    requires from <= |s|
    decreases |s| - from
  {
    var h := Hole(s, from);
    if h.None? then [] else [s[h.value.from..h.value.to]] + Holes(s, h.value.to)
  }

  method Placeholders(value: Text) returns (out: seq<Text>)
    ensures out == Holes(value, 0)
  {
    out := [];
    var at := 0;
    var hole := Hole(value, at);
    while hole.Some?
      invariant at <= |value| && hole == Hole(value, at)
      invariant out + Holes(value, at) == Holes(value, 0)
      decreases |value| - at
    {
      ghost var before, rest := out, Holes(value, hole.value.to);
      var found := value[hole.value.from..hole.value.to];
      out := out + [found];
      Regroup(before, [found], rest);
      at := hole.value.to;
      hole := Hole(value, at);
    }
  }

  /** The next placeholder goes from the first `{{` to the first `}}` after that. */
  lemma HoleGoes(s: Text, from: nat, i: nat, j: nat)
    requires from <= i <= j && At(s, OPENING, i) && forall k :: from <= k < i ==> !At(s, OPENING, k)
    requires At(s, CLOSING, j) && forall k :: i <= k < j ==> !At(s, CLOSING, k)
    ensures Holes(s, from) == [s[i..j + 2]] + Holes(s, j + 2)
  {
    assert FindFrom(s, OPENING, from) == Some(i);
    assert FindFrom(s, CLOSING, i) == Some(j);
  }

  /** None is left exactly if no `{{` has a `}}` behind it. */
  lemma NoHoleLeft(s: Text, from: nat)
    requires from <= |s|
    ensures Holes(s, from) == [] <==> forall i, j :: from <= i <= j && At(s, OPENING, i) ==> !At(s, CLOSING, j)
  {
    var i := FindFrom(s, OPENING, from);
    if i.Some? {
      var j := FindFrom(s, CLOSING, i.value);
      if j.Some? {
        assert At(s, OPENING, i.value) && At(s, CLOSING, j.value);
      }
    }
  }

  function FirstUnknown(holes: seq<Text>): Option<Text> {
    if holes == [] then None
    else if holes[0] != ACCESS_TOKEN then Some(holes[0])
    else FirstUnknown(holes[1..])
  }

  // ------------------------------------------------------------ the checks

  predicate Uses(p: Provider) {
    exists i :: 0 <= i < |p.headers| && Contains(p.headers[i].value, ACCESS_TOKEN)
  }

  predicate NameByte(b: Byte) {
    'a' <= b <= 'z' || 'A' <= b <= 'Z' || '0' <= b <= '9' || b == '-' || b == '_' || b == '.' || b == '~'
  }

  predicate ValidName(name: Text) {
    name != [] && |name| <= MAX_HEADER_NAME && forall i :: 0 <= i < |name| ==> NameByte(name[i])
  }

  predicate ValidValue(value: Text) {
    |value| <= MAX_HEADER_VALUE && CR !in value && LF !in value
  }

  function LowerName(env: Env, h: Header): Text {
    Lower(env.trim(h.name))
  }

  /** What is wrong with one header, given the names before it. */
  function HeaderFault(env: Env, p: Provider, seen: seq<Text>, h: Header): Option<Error> {
    var lower, unknown := LowerName(env, h), FirstUnknown(Holes(h.value, 0));
    if !ValidName(env.trim(h.name)) then Some(BadHeaderName(h.name))
    else if Reserved(lower) then Some(ReservedHeader(h.name))
    else if p.protocol == Some(Chatgpt) && Identity(lower) then Some(IdentityHeader(h.name))
    else if p.aws.Some? && Signed(lower) then Some(AwsSignedHeader(h.name))
    else if lower in seen then Some(DuplicateHeader(h.name))
    else if !ValidValue(h.value) then Some(BadHeaderValue(h.name))
    else if unknown.Some? then Some(UnknownPlaceholder(h.name, unknown.value))
    else if Contains(h.value, ACCESS_TOKEN) && p.oauth.None? then Some(TokenWithoutOauth(h.name))
    else if lower == AuthHeader(p.protocol).name && p.key.Some? then Some(KeyAndAuthHeader(h.name))
    else if lower == AuthHeader(p.protocol).name && p.oauth.Some? && !Uses(p) then Some(OauthAndAuthHeader(h.name))
    else None
  }

  function HeadersFault(env: Env, p: Provider, hs: seq<Header>, seen: seq<Text>): Option<Error> {
    if hs == [] then None
    else
      var fault := HeaderFault(env, p, seen, hs[0]);
      if fault.Some? then fault else HeadersFault(env, p, hs[1..], seen + [LowerName(env, hs[0])])
  }

  predicate Blank(env: Env, s: Option<Text>) {
    s.None? || env.trim(s.value) == []
  }

  function AwsFault(env: Env, p: Provider, aws: Aws): Option<Error> {
    var host := BedrockEndpoint.RegionOf(p.baseUrl);
    var given := if aws.region.Some? then Some(env.trim(aws.region.value)) else None;
    var keys := aws.keyId.Some? || aws.secret.Some? || aws.session.Some?;
    if p.protocol != Some(Bedrock) then Some(AwsNotBedrock)
    else if p.key.Some? then Some(KeyAndAws)
    else if aws.profile.Some? && keys then Some(AwsProfileAndKeys)
    else if aws.profile.Some? && Blank(env, aws.profile) then Some(AwsEmptyProfile)
    else if aws.profile.None? && !p.disabled &&
      (Blank(env, aws.keyId) || Blank(env, aws.secret) || (aws.session.Some? && Blank(env, aws.session))) then
      Some(AwsEmpty)
    else if given.Some? && !BedrockEndpoint.ValidRegion(given.value) then Some(AwsBadRegion(given.value))
    else if given.Some? && host.Some? && host != given then Some(AwsRegionMismatch(given.value, host.value))
    else if given.None? && host.None? then Some(AwsNoRegion)
    else None
  }

  function BedrockFault(env: Env, p: Provider): Option<Error> {
    var fault := if p.aws.Some? then AwsFault(env, p, p.aws.value) else None;
    if fault.Some? then fault
    else if p.protocol == Some(Bedrock) && p.oauth.Some? then Some(BedrockOauth)
    else if p.protocol == Some(Bedrock) && p.key.None? && p.aws.None? &&
      BedrockEndpoint.RegionOf(p.baseUrl).Some? then Some(BedrockNoCredential)
    else None
  }

  function OauthFault(env: Env, p: Provider, o: Oauth): Option<Error> {
    if p.key.Some? then Some(KeyAndOauth)
    else if (env.trim(o.refresh) == [] && !p.disabled) || env.trim(o.endpoint) == [] then Some(EmptyOauth)
    else if env.claude(p.baseUrl) || env.claude(o.endpoint) then Some(ClaudeSubscription)
    else if env.cloudCode(p.baseUrl) then Some(GoogleSubscription)
    else None
  }

  /** What is wrong before the headers are looked at. */
  function AccountFault(env: Env, p: Provider): Option<Error> {
    var chatgpt := p.protocol == Some(Chatgpt);
    var bedrock := BedrockFault(env, p);
    var oauth := if p.oauth.Some? then OauthFault(env, p, p.oauth.value) else None;
    if p.key.Some? && Blank(env, p.key) && !p.disabled then Some(EmptyKey)
    else if bedrock.Some? then bedrock
    else if oauth.Some? then oauth
    else if chatgpt && env.codexBackend(p.baseUrl) && p.oauth.None? && !p.disabled then Some(ChatgptWithoutLogin)
    else if chatgpt && p.forwardClientIdentity then Some(ChatgptClientIdentity)
    else if |p.headers| > MAX_HEADERS then Some(TooManyHeaders)
    else None
  }

  function Fault(env: Env, p: Provider): Option<Error> {
    var fault := AccountFault(env, p);
    if fault.Some? then fault else HeadersFault(env, p, p.headers, [])
  }

  /** The loop over one header's placeholders. */
  method CheckPlaceholders(value: Text) returns (unknown: Option<Text>)
    ensures unknown == FirstUnknown(Holes(value, 0))
  {
    var holes := Placeholders(value);
    for i := 0 to |holes|
      invariant FirstUnknown(holes[i..]) == FirstUnknown(holes)
    {
      if holes[i] != ACCESS_TOKEN {
        return Some(holes[i]);
      }
      assert holes[i..][1..] == holes[i + 1..];
    }
    return None;
  }

  method CheckHeader(env: Env, p: Provider, seen: seq<Text>, h: Header) returns (fault: Option<Error>)
    ensures fault == HeaderFault(env, p, seen, h)
  {
    var name := env.trim(h.name);
    if !ValidName(name) {
      return Some(BadHeaderName(h.name));
    }
    var lower := Lower(name);
    if Reserved(lower) {
      return Some(ReservedHeader(h.name));
    }
    if p.protocol == Some(Chatgpt) && Identity(lower) {
      return Some(IdentityHeader(h.name));
    }
    if p.aws.Some? && Signed(lower) {
      return Some(AwsSignedHeader(h.name));
    }
    if lower in seen {
      return Some(DuplicateHeader(h.name));
    }
    if !ValidValue(h.value) {
      return Some(BadHeaderValue(h.name));
    }
    var unknown := CheckPlaceholders(h.value);
    if unknown.Some? {
      return Some(UnknownPlaceholder(h.name, unknown.value));
    }
    if Contains(h.value, ACCESS_TOKEN) && p.oauth.None? {
      return Some(TokenWithoutOauth(h.name));
    }
    if lower == AuthHeader(p.protocol).name {
      if p.key.Some? {
        return Some(KeyAndAuthHeader(h.name));
      }
      if p.oauth.Some? && !Uses(p) {
        return Some(OauthAndAuthHeader(h.name));
      }
    }
    return None;
  }

  method CheckCredential(env: Env, p: Provider) returns (fault: Option<Error>)
    ensures fault == Fault(env, p)
  {
    fault := AccountFault(env, p);
    if fault.Some? {
      return;
    }
    var seen := [];
    for i := 0 to |p.headers|
      invariant HeadersFault(env, p, p.headers[i..], seen) == HeadersFault(env, p, p.headers, [])
    {
      assert p.headers[i..][1..] == p.headers[i + 1..];
      fault := CheckHeader(env, p, seen, p.headers[i]);
      if fault.Some? {
        return;
      }
      seen := seen + [LowerName(env, p.headers[i])];
    }
    return None;
  }

  // ------------------------------------------------------------ what is sent

  datatype Sent = Sent(headers: seq<Header>) | Failed(error: Error)

  function Then(first: Sent, more: Sent): Sent {
    if first.Failed? then first
    else if more.Failed? then more
    else Sent(first.headers + more.headers)
  }

  /** One configured header, its value expanded. */
  function SentOne(env: Env, h: Header, token: Option<Text>): Sent {
    var v := env.resolve(h.value);
    if v.None? then Failed(Unresolved(h.value))
    else if !Contains(v.value, ACCESS_TOKEN) then Sent([Header(env.trim(h.name), v.value)])
    else if token.None? then Failed(NoToken)
    else Sent([Header(env.trim(h.name), ReplaceAll(v.value, ACCESS_TOKEN, token.value))])
  }

  function SentAll(env: Env, hs: seq<Header>, token: Option<Text>): Sent {
    if hs == [] then Sent([])
    else Then(SentAll(env, hs[..|hs| - 1], token), SentOne(env, hs[|hs| - 1], token))
  }

  function SentKey(env: Env, p: Provider): Sent {
    var auth := AuthHeader(p.protocol);
    if p.key.None? then Sent([])
    else
      var v := env.resolve(p.key.value);
      if v.None? then Failed(Unresolved(p.key.value)) else Sent([Header(auth.name, auth.prefix + v.value)])
  }

  function SentToken(p: Provider, token: Option<Text>): Sent {
    var auth := AuthHeader(p.protocol);
    if p.oauth.None? || Uses(p) then Sent([])
    else if token.None? then Failed(NoToken)
    else Sent([Header(auth.name, auth.prefix + token.value)])
  }

  function Outbound(env: Env, p: Provider, token: Option<Text>): Sent {
    Then(Then(SentKey(env, p), SentToken(p, token)), SentAll(env, p.headers, token))
  }

  method SendAuth(env: Env, p: Provider, token: Option<Text>) returns (r: Sent)
    ensures r == Then(SentKey(env, p), SentToken(p, token))
  {
    var auth := AuthHeader(p.protocol);
    var out := [];
    if p.key.Some? {
      var v := env.resolve(p.key.value);
      if v.None? {
        return Failed(Unresolved(p.key.value));
      }
      out := out + [Header(auth.name, auth.prefix + v.value)];
    }
    if p.oauth.Some? && !Uses(p) {
      if token.None? {
        return Failed(NoToken);
      }
      out := out + [Header(auth.name, auth.prefix + token.value)];
    }
    return Sent(out);
  }

  method SendOne(env: Env, h: Header, token: Option<Text>) returns (r: Sent)
    ensures r == SentOne(env, h, token)
  {
    var v := env.resolve(h.value);
    if v.None? {
      return Failed(Unresolved(h.value));
    }
    var value := v.value;
    if Contains(value, ACCESS_TOKEN) {
      if token.None? {
        return Failed(NoToken);
      }
      value := ReplaceAll(value, ACCESS_TOKEN, token.value);
    }
    return Sent([Header(env.trim(h.name), value)]);
  }

  method OutboundHeaders(env: Env, p: Provider, token: Option<Text>) returns (r: Sent)
    ensures r == Outbound(env, p, token)
  {
    var before := SendAuth(env, p, token);
    if before.Failed? {
      return before;
    }
    var sent := [];
    for i := 0 to |p.headers|
      invariant SentAll(env, p.headers[..i], token) == Sent(sent)
    {
      assert p.headers[..i + 1][..i] == p.headers[..i];
      StillFailed(env, p.headers, i + 1, token);
      var one := SendOne(env, p.headers[i], token);
      if one.Failed? {
        return one;
      }
      sent := sent + one.headers;
    }
    assert p.headers[..|p.headers|] == p.headers;
    return Sent(before.headers + sent);
  }

  /** A failure at one header is the failure of all of them. */
  lemma {:induction false} StillFailed(env: Env, hs: seq<Header>, n: nat, token: Option<Text>)
    requires n <= |hs|
    ensures SentAll(env, hs[..n], token).Failed? ==> SentAll(env, hs, token) == SentAll(env, hs[..n], token)
    decreases |hs|
  {
    if n < |hs| {
      var init := hs[..|hs| - 1];
      StillFailed(env, init, n, token);
      assert init[..n] == hs[..n];
    } else {
      assert hs[..n] == hs;
    }
  }

  // ---------------------------------------------------- what accepting means

  /** A header that is fine whatever stands before it. */
  predicate Fine(env: Env, p: Provider, h: Header) {
    HeaderFault(env, p, [], h).None?
  }

  /** A well-formed name that is neither the gateway's, nor one that signing writes
      or that states an identity where that matters. */
  predicate NameFine(env: Env, p: Provider, h: Header) {
    var lower := LowerName(env, h);
    && ValidName(env.trim(h.name)) && !Reserved(lower)
    && (p.protocol == Some(Chatgpt) ==> !Identity(lower)) && (p.aws.Some? ==> !Signed(lower))
  }

  /** A value on one line and not too long whose placeholders are all the token's,
      and a login where there are any. */
  predicate ValueFine(p: Provider, h: Header) {
    && ValidValue(h.value) && (forall hole :: hole in Holes(h.value, 0) ==> hole == ACCESS_TOKEN)
    && (Contains(h.value, ACCESS_TOKEN) ==> p.oauth.Some?)
  }

  /** The protocol's own header only where the account does not make it. */
  predicate OwnFine(env: Env, p: Provider, h: Header) {
    LowerName(env, h) == AuthHeader(p.protocol).name ==> p.key.None? && (p.oauth.Some? ==> Uses(p))
  }

  /** A header is fine, whatever the order of the checks, exactly when all this is. */
  lemma FineExactlyWhen(env: Env, p: Provider, h: Header)
    ensures Fine(env, p, h) <==> NameFine(env, p, h) && ValueFine(p, h) && OwnFine(env, p, h)
  {
    AllKnown(Holes(h.value, 0));
  }

  lemma {:induction false} AllKnown(holes: seq<Text>)
    ensures FirstUnknown(holes).None? <==> forall hole :: hole in holes ==> hole == ACCESS_TOKEN
    decreases |holes|
  {
    if holes != [] {
      AllKnown(holes[1..]);
      assert holes[0] in holes && forall hole :: hole in holes <==> hole == holes[0] || hole in holes[1..];
    }
  }

  ghost predicate AllFine(env: Env, p: Provider, hs: seq<Header>) {
    forall i :: 0 <= i < |hs| ==> Fine(env, p, hs[i])
  }

  ghost predicate NamesApart(env: Env, hs: seq<Header>) {
    forall i, j :: 0 <= i < j < |hs| ==> LowerName(env, hs[i]) != LowerName(env, hs[j])
  }

  ghost predicate NotSeen(env: Env, hs: seq<Header>, seen: seq<Text>) {
    forall i :: 0 <= i < |hs| ==> LowerName(env, hs[i]) !in seen
  }

  lemma OneHeader(env: Env, p: Provider, seen: seq<Text>, h: Header)
    ensures HeaderFault(env, p, seen, h).None? <==> Fine(env, p, h) && LowerName(env, h) !in seen
  {
  }

  lemma NamesStep(env: Env, hs: seq<Header>, seen: seq<Text>)
    requires hs != []
    ensures NamesApart(env, hs) && NotSeen(env, hs, seen) <==>
      && NamesApart(env, hs[1..]) && NotSeen(env, hs[1..], seen + [LowerName(env, hs[0])])
      && LowerName(env, hs[0]) !in seen
  {
    var rest, more := hs[1..], seen + [LowerName(env, hs[0])];
    assert forall i :: 0 < i < |hs| ==> hs[i] == rest[i - 1];
    if NamesApart(env, rest) && NotSeen(env, rest, more) && LowerName(env, hs[0]) !in seen {
      forall i | 0 < i < |hs| ensures LowerName(env, hs[i]) !in more {
        assert LowerName(env, rest[i - 1]) !in more;
      }
      assert forall i :: 0 < i < |hs| ==> LowerName(env, hs[i]) !in more;
    }
  }

  /** The headers pass exactly when each passes by itself and no two names are
      the same but for their case. */
  lemma {:induction false} HeadersPassExactlyWhen(env: Env, p: Provider, hs: seq<Header>, seen: seq<Text>)
    ensures HeadersFault(env, p, hs, seen).None? <==>
      AllFine(env, p, hs) && NamesApart(env, hs) && NotSeen(env, hs, seen)
    decreases |hs|
  {
    if hs != [] {
      var rest := hs[1..];
      OneHeader(env, p, seen, hs[0]);
      NamesStep(env, hs, seen);
      HeadersPassExactlyWhen(env, p, rest, seen + [LowerName(env, hs[0])]);
      assert AllFine(env, p, hs) <==> Fine(env, p, hs[0]) && AllFine(env, p, rest) by {
        assert forall i :: 0 < i < |hs| ==> hs[i] == rest[i - 1];
        assert forall i :: 0 <= i < |rest| ==> rest[i] == hs[i + 1];
      }
    }
  }

  /** A credential is accepted exactly when nothing is wrong with the account,
      each header is fine by itself, and no name is there twice. */
  lemma AcceptedExactlyWhen(env: Env, p: Provider)
    ensures Fault(env, p).None? <==>
      AccountFault(env, p).None? && AllFine(env, p, p.headers) && NamesApart(env, p.headers)
  {
    HeadersPassExactlyWhen(env, p, p.headers, []);
  }

  lemma {:induction false} NamesSent(env: Env, hs: seq<Header>, token: Option<Text>)
    requires SentAll(env, hs, token).Sent?
    ensures var sent := SentAll(env, hs, token).headers;
      |sent| == |hs| && forall i :: 0 <= i < |hs| ==> sent[i].name == env.trim(hs[i].name)
    decreases |hs|
  {
    if hs != [] {
      NamesSent(env, hs[..|hs| - 1], token);
    }
  }

  // ------------------------------------------------------- the values sent

  lemma {:induction false} ContainsAt(s: Text, pat: Text)
    ensures Contains(s, pat) <==> exists i: nat :: At(s, pat, i)
    decreases |s|
  {
    if |s| >= |pat| && s[..|pat|] == pat {
      assert At(s, pat, 0);
    } else if |s| >= |pat| && s != [] {
      ContainsAt(s[1..], pat);
      forall i: nat ensures At(s[1..], pat, i) <==> i + 1 <= |s| && At(s, pat, i + 1) {
        assert i + |pat| <= |s[1..]| ==> s[1..][i..i + |pat|] == s[i + 1..i + 1 + |pat|];
      }
      forall i: nat | At(s, pat, i) ensures i > 0 && At(s[1..], pat, i - 1) {
        assert i > 0 ==> s[1..][i - 1..i - 1 + |pat|] == s[i..i + |pat|];
      }
    }
  }

  /** These texts with `sep` between each two. */
  function Join(parts: seq<Text>, sep: Text): Text {
    if parts == [] then [] else if |parts| == 1 then parts[0] else parts[0] + (sep + Join(parts[1..], sep))
  }

  lemma TokenLetters()
    ensures |ACCESS_TOKEN| == 16 && ACCESS_TOKEN[0] == '{' && ACCESS_TOKEN[1] == '{'
    ensures forall k :: 2 <= k < 16 ==> ACCESS_TOKEN[k] != '{'
  {
  }

  lemma AtBytes(s: Text, pat: Text, i: nat)
    ensures At(s, pat, i) <==> i + |pat| <= |s| && forall k :: 0 <= k < |pat| ==> s[i + k] == pat[k]
  {
    if i + |pat| <= |s| {
      var place := s[i..i + |pat|];
      assert forall k :: 0 <= k < |pat| ==> place[k] == s[i + k];
    }
  }

  lemma AtInFront(a: Text, b: Text, pat: Text, i: nat)
    requires i + |pat| <= |a|
    ensures At(a + b, pat, i) <==> At(a, pat, i)
  {
    AtBytes(a + b, pat, i);
    AtBytes(a, pat, i);
  }

  lemma AtBehind(a: Text, b: Text, pat: Text, i: nat)
    requires i >= |a|
    ensures At(a + b, pat, i) <==> At(b, pat, i - |a|)
  {
    AtBytes(a + b, pat, i);
    AtBytes(b, pat, i - |a|);
  }

  /** No place of the placeholder begins within a text in front of one. */
  lemma NotBefore(text: Text, rest: Text)
    requires text != [] && !Contains(text, ACCESS_TOKEN)
    ensures !At(text + (ACCESS_TOKEN + rest), ACCESS_TOKEN, 0)
  {
    var s, n := text + (ACCESS_TOKEN + rest), |text|;
    TokenLetters();
    ContainsAt(text, ACCESS_TOKEN);
    if n >= 16 {
      AtInFront(text, ACCESS_TOKEN + rest, ACCESS_TOKEN, 0);
    } else {
      var k := if n == 1 then 2 else n;
      assert s[k] == '{' && ACCESS_TOKEN[k] != '{';
      AtBytes(s, ACCESS_TOKEN, 0);
    }
  }

  lemma ReplaceStep(s: Text, token: Text)
    requires s != [] && !At(s, ACCESS_TOKEN, 0)
    ensures ReplaceAll(s, ACCESS_TOKEN, token) == [s[0]] + ReplaceAll(s[1..], ACCESS_TOKEN, token)
  {
    if |s| >= 16 {
      assert s[..16] == s[0..0 + 16];
    }
  }

  lemma {:induction false} ReplaceFirst(text: Text, rest: Text, token: Text)
    requires !Contains(text, ACCESS_TOKEN)
    ensures ReplaceAll(text + (ACCESS_TOKEN + rest), ACCESS_TOKEN, token)
         == text + (token + ReplaceAll(rest, ACCESS_TOKEN, token))
    decreases |text|
  {
    var s := text + (ACCESS_TOKEN + rest);
    if text == [] {
      assert s[..16] == ACCESS_TOKEN && s[16..] == rest;
    } else {
      var more := token + ReplaceAll(rest, ACCESS_TOKEN, token);
      NotBefore(text, rest);
      ReplaceStep(s, token);
      assert s[1..] == text[1..] + (ACCESS_TOKEN + rest);
      ReplaceFirst(text[1..], rest, token);
      Regroup([text[0]], text[1..], more);
      assert [text[0]] + text[1..] == text;
    }
  }

  lemma {:induction false} ReplaceNone(text: Text, token: Text)
    requires !Contains(text, ACCESS_TOKEN)
    ensures ReplaceAll(text, ACCESS_TOKEN, token) == text
    decreases |text|
  {
    if |text| >= 16 {
      ReplaceNone(text[1..], token);
    }
  }

  /** Replacing puts the token in the place of each placeholder, and nowhere else. */
  lemma {:induction false} ReplacedBetween(parts: seq<Text>, token: Text)
    requires parts != [] && forall i :: 0 <= i < |parts| ==> !Contains(parts[i], ACCESS_TOKEN)
    ensures ReplaceAll(Join(parts, ACCESS_TOKEN), ACCESS_TOKEN, token) == Join(parts, token)
    decreases |parts|
  {
    if |parts| == 1 {
      ReplaceNone(parts[0], token);
    } else {
      ReplaceFirst(parts[0], Join(parts[1..], ACCESS_TOKEN), token);
      ReplacedBetween(parts[1..], token);
    }
  }

  /** Ends in the beginning of a placeholder. */
  ghost predicate EndsOpen(text: Text) {
    exists k :: 0 < k < |ACCESS_TOKEN| && k <= |text| && text[|text| - k..] == ACCESS_TOKEN[..k]
  }

  /** With a token free of braces, and no text that ends in the beginning of a
      placeholder, none is left. */
  lemma {:induction false} NoneLeft(parts: seq<Text>, token: Text)
    requires parts != [] && '{' !in token
    requires forall i :: 0 <= i < |parts| ==> !Contains(parts[i], ACCESS_TOKEN)
    requires forall i :: 0 <= i < |parts| - 1 ==> !EndsOpen(parts[i])
    ensures !Contains(Join(parts, token), ACCESS_TOKEN)
    decreases |parts|
  {
    if |parts| > 1 {
      var rest := Join(parts[1..], token);
      NoneLeft(parts[1..], token);
      NoneAcross(parts[0], token, rest);
    }
  }

  lemma StraddlesIfOpen(text: Text, more: Text, i: nat)
    requires i < |text| < i + |ACCESS_TOKEN| && At(text + more, ACCESS_TOKEN, i)
    ensures EndsOpen(text)
  {
    var k := |text| - i;
    AtBytes(text + more, ACCESS_TOKEN, i);
    assert text[|text| - k..] == ACCESS_TOKEN[..k];
  }

  lemma NoneAcross(text: Text, token: Text, rest: Text)
    requires '{' !in token && !EndsOpen(text)
    requires !Contains(text, ACCESS_TOKEN) && !Contains(rest, ACCESS_TOKEN)
    ensures !Contains(text + (token + rest), ACCESS_TOKEN)
  {
    var s := text + (token + rest);
    ContainsAt(s, ACCESS_TOKEN);
    forall i: nat ensures !At(s, ACCESS_TOKEN, i) {
      NotHere(text, token, rest, i);
    }
  }

  lemma NotHere(text: Text, token: Text, rest: Text, i: nat)
    requires '{' !in token && !EndsOpen(text)
    requires !Contains(text, ACCESS_TOKEN) && !Contains(rest, ACCESS_TOKEN)
    ensures !At(text + (token + rest), ACCESS_TOKEN, i)
  {
    TokenLetters();
    ContainsAt(text, ACCESS_TOKEN);
    ContainsAt(rest, ACCESS_TOKEN);
    if i + |ACCESS_TOKEN| <= |text| {
      AtInFront(text, token + rest, ACCESS_TOKEN, i);
    } else if i < |text| {
      if At(text + (token + rest), ACCESS_TOKEN, i) {
        StraddlesIfOpen(text, token + rest, i);
      }
    } else {
      AtBehind(text, token + rest, ACCESS_TOKEN, i);
      AtBytes(token + rest, ACCESS_TOKEN, i - |text|);
      if i >= |text| + |token| {
        AtBehind(token, rest, ACCESS_TOKEN, i - |text|);
      } else {
        assert (token + rest)[i - |text|] == token[i - |text|] != '{';
      }
    }
  }

  lemma JoinHolds(parts: seq<Text>)
    requires |parts| > 1
    ensures Contains(Join(parts, ACCESS_TOKEN), ACCESS_TOKEN)
  {
    var rest := Join(parts[1..], ACCESS_TOKEN);
    var s := parts[0] + (ACCESS_TOKEN + rest);
    AtBehind(parts[0], ACCESS_TOKEN + rest, ACCESS_TOKEN, |parts[0]|);
    AtInFront(ACCESS_TOKEN, rest, ACCESS_TOKEN, 0);
    ContainsAt(s, ACCESS_TOKEN);
  }

  /** What becomes of one configured header: its trimmed name, and its expanded
      value with the token in the place of each placeholder. */
  lemma SentValue(env: Env, h: Header, token: Option<Text>, parts: seq<Text>)
    requires env.resolve(h.value) == Some(Join(parts, ACCESS_TOKEN)) && parts != []
    requires forall i :: 0 <= i < |parts| ==> !Contains(parts[i], ACCESS_TOKEN)
    ensures SentOne(env, h, token) ==
      if |parts| == 1 then Sent([Header(env.trim(h.name), parts[0])])
      else if token.None? then Failed(NoToken)
      else Sent([Header(env.trim(h.name), Join(parts, token.value))])
  {
    if |parts| > 1 {
      JoinHolds(parts);
      if token.Some? {
        ReplacedBetween(parts, token.value);
      }
    }
  }

  /** A value that is the placeholder alone is sent as the token. */
  lemma TokenAlone(env: Env, h: Header, token: Text)
    requires env.resolve(h.value) == Some(ACCESS_TOKEN)
    ensures SentOne(env, h, Some(token)) == Sent([Header(env.trim(h.name), token)])
  {
    TokenLetters();
    assert ACCESS_TOKEN[..16] == ACCESS_TOKEN && ACCESS_TOKEN[16..] == [];
    assert Contains(ACCESS_TOKEN, ACCESS_TOKEN);
    assert ReplaceAll([], ACCESS_TOKEN, token) == [];
    assert ReplaceAll(ACCESS_TOKEN, ACCESS_TOKEN, token) == token + [] == token;
  }

  lemma {:induction false} OneByOne(env: Env, hs: seq<Header>, token: Option<Text>)
    requires SentAll(env, hs, token).Sent?
    ensures var sent := SentAll(env, hs, token).headers;
      |sent| == |hs| && forall i :: 0 <= i < |hs| ==> SentOne(env, hs[i], token) == Sent([sent[i]])
    decreases |hs|
  {
    if hs != [] {
      OneByOne(env, hs[..|hs| - 1], token);
    }
  }

  /** What goes out, in order: the protocol's prefix and the resolved key; the
      prefix and the token; and each configured header as sent by itself. */
  lemma OutboundSays(env: Env, p: Provider, token: Option<Text>)
    requires Outbound(env, p, token).Sent?
    ensures var out, n, auth := Outbound(env, p, token).headers, AuthsSent(p), AuthHeader(p.protocol);
      && |out| == n + |p.headers|
      && (p.key.Some? ==>
            env.resolve(p.key.value).Some?
            && out[0] == Header(auth.name, auth.prefix + env.resolve(p.key.value).value))
      && (p.oauth.Some? && !Uses(p) ==> token.Some? && out[n - 1] == Header(auth.name, auth.prefix + token.value))
      && (forall i :: 0 <= i < |p.headers| ==> SentOne(env, p.headers[i], token) == Sent([out[n + i]]))
  {
    OneByOne(env, p.headers, token);
  }

  /** Two protocols have headers of their own; all others but Anthropic's send a
      bearer token. */
  lemma BearerExactlyWhen(protocol: Option<Protocol>)
    ensures var auth := AuthHeader(protocol);
      && (auth.prefix != [] <==> auth.name == "authorization") && (auth.prefix != [] ==> auth.prefix == "Bearer ")
      && (auth.name == "x-goog-api-key" <==> protocol == Some(Gemini))
      && (auth.name == "x-api-key" <==> protocol == None || protocol == Some(Anthropic))
  {
    assert |"authorization"| == 13 && |"x-api-key"| == 9 && |"x-goog-api-key"| == 14;
  }

  /** How many headers go out with the key or the token in them. */
  function AuthsSent(p: Provider): nat {
    (if p.key.Some? then 1 else 0) + (if p.oauth.Some? && !Uses(p) then 1 else 0)
  }

  lemma ShapeOfSent(env: Env, p: Provider, token: Option<Text>)
    requires Outbound(env, p, token).Sent?
    ensures var out, n := Outbound(env, p, token).headers, AuthsSent(p);
      && |out| == n + |p.headers|
      && (forall i :: 0 <= i < n ==> out[i].name == AuthHeader(p.protocol).name)
      && (forall i :: 0 <= i < |p.headers| ==> out[n + i].name == env.trim(p.headers[i].name))
  {
    NamesSent(env, p.headers, token);
  }

  lemma AuthIsLower(protocol: Option<Protocol>)
    ensures Lower(AuthHeader(protocol).name) == AuthHeader(protocol).name
  {
    LowerWhole("x-goog-api-key");
    LowerWhole("authorization");
    LowerWhole("x-api-key");
  }

  lemma AuthIsAllowed(protocol: Option<Protocol>)
    ensures !Reserved(AuthHeader(protocol).name) && !Identity(AuthHeader(protocol).name)
  {
    var name := AuthHeader(protocol).name;
    assert |name| == 14 ==> name[0] == 'x';
    assert |name| != 14 ==> |name| == 13 || |name| == 9;
  }

  ghost predicate Apart(out: seq<Header>) {
    forall i, j :: 0 <= i < j < |out| ==> Lower(out[i].name) != Lower(out[j].name)
  }

  ghost predicate NoneIs(env: Env, hs: seq<Header>, lower: Text) {
    forall i :: 0 <= i < |hs| ==> LowerName(env, hs[i]) != lower
  }

  /** No two of the headers sent have the same name exactly when no two of the
      configured ones have, at most one is made from the account, and then none
      of the configured ones is the protocol's own. */
  lemma ApartExactlyWhen(env: Env, p: Provider, token: Option<Text>)
    requires Outbound(env, p, token).Sent?
    ensures Apart(Outbound(env, p, token).headers) <==>
      && NamesApart(env, p.headers) && AuthsSent(p) <= 1
      && (AuthsSent(p) == 1 ==> NoneIs(env, p.headers, AuthHeader(p.protocol).name))
  {
    var out, n, hs := Outbound(env, p, token).headers, AuthsSent(p), p.headers;
    ShapeOfSent(env, p, token);
    AuthIsLower(p.protocol);
    assert forall i :: 0 <= i < |hs| ==> Lower(out[n + i].name) == LowerName(env, hs[i]);
    if n == 2 {
      assert Lower(out[0].name) == Lower(out[1].name);
    }
    if Apart(out) {
      forall i, j | 0 <= i < j < |hs| ensures LowerName(env, hs[i]) != LowerName(env, hs[j]) {
        assert Lower(out[n + i].name) != Lower(out[n + j].name);
      }
      if n == 1 {
        forall i | 0 <= i < |hs| ensures LowerName(env, hs[i]) != AuthHeader(p.protocol).name {
          assert Lower(out[0].name) != Lower(out[n + i].name);
        }
      }
    }
    if NamesApart(env, hs) && n <= 1 && (n == 1 ==> NoneIs(env, hs, AuthHeader(p.protocol).name)) {
      forall i, j | 0 <= i < j < |out| ensures Lower(out[i].name) != Lower(out[j].name) {
        assert Lower(out[j].name) == LowerName(env, hs[j - n]);
        if i >= n {
          assert Lower(out[i].name) == LowerName(env, hs[i - n]);
        }
      }
    }
  }

  /** One kind of credential at most, and the one the protocol takes. */
  predicate OneKind(p: Provider) {
    && !(p.key.Some? && p.oauth.Some?) && !(p.key.Some? && p.aws.Some?) && !(p.oauth.Some? && p.aws.Some?)
    && (p.aws.Some? ==> p.protocol == Some(Bedrock))
    && (p.oauth.Some? ==> p.protocol != Some(Bedrock))
  }

  /** Nothing that is written down is blank; a disabled upstream may still wait
      for its secrets. */
  predicate FilledIn(env: Env, p: Provider) {
    && (p.oauth.Some? ==> env.trim(p.oauth.value.endpoint) != [])
    && (p.aws.Some? && p.aws.value.profile.Some? ==> env.trim(p.aws.value.profile.value) != [])
    && (!p.disabled && p.key.Some? ==> env.trim(p.key.value) != [])
    && (!p.disabled && p.oauth.Some? ==> env.trim(p.oauth.value.refresh) != [])
    && (!p.disabled && p.aws.Some? && p.aws.value.profile.None? ==>
          && !Blank(env, p.aws.value.keyId) && !Blank(env, p.aws.value.secret)
          && (p.aws.value.session.Some? ==> !Blank(env, p.aws.value.session)))
  }

  /** AWS access keys come from one place, for a region that is known. */
  predicate AwsKnown(env: Env, p: Provider, aws: Aws) {
    var host := BedrockEndpoint.RegionOf(p.baseUrl);
    && (aws.profile.Some? ==> aws.keyId.None? && aws.secret.None? && aws.session.None?)
    && (aws.region.None? ==> host.Some?)
    && (aws.region.Some? ==>
          var given := env.trim(aws.region.value);
          BedrockEndpoint.ValidRegion(given) && (host.Some? ==> host.value == given))
  }

  /** The addresses that take one kind of credential only, or none of these. */
  predicate HostAllows(env: Env, p: Provider) {
    && (p.oauth.Some? ==> !env.claude(p.baseUrl) && !env.claude(p.oauth.value.endpoint) && !env.cloudCode(p.baseUrl))
    && (p.protocol == Some(Bedrock) && BedrockEndpoint.RegionOf(p.baseUrl).Some? ==> p.key.Some? || p.aws.Some?)
    && (p.protocol == Some(Chatgpt) && env.codexBackend(p.baseUrl) && !p.disabled ==> p.oauth.Some?)
    && (p.protocol == Some(Chatgpt) ==> !p.forwardClientIdentity)
  }

  /** The account passes, whatever the order of the checks, exactly when all of
      this holds. */
  lemma AccountPassesExactlyWhen(env: Env, p: Provider)
    ensures AccountFault(env, p).None? <==>
      && OneKind(p) && FilledIn(env, p) && HostAllows(env, p)
      && (p.aws.Some? ==> AwsKnown(env, p, p.aws.value))
      && |p.headers| <= MAX_HEADERS
  {
  }

  lemma AccountMakesOne(env: Env, p: Provider)
    requires AccountFault(env, p).None?
    ensures AuthsSent(p) <= 1
    ensures p.aws.Some? ==> AuthsSent(p) == 0
  {
  }

  lemma NoSecondAuth(env: Env, p: Provider)
    requires Fault(env, p).None? && AuthsSent(p) == 1
    ensures NoneIs(env, p.headers, AuthHeader(p.protocol).name)
  {
    AcceptedExactlyWhen(env, p);
    forall i | 0 <= i < |p.headers| ensures LowerName(env, p.headers[i]) != AuthHeader(p.protocol).name {
      assert Fine(env, p, p.headers[i]);
    }
  }

  /** Whatever an accepted upstream sends: no name twice in any letter case, so
      the protocol's own header once at most; none of the gateway's headers;
      none that signing writes when it signs; and nothing that says who is
      asking when it is a ChatGPT account. */
  lemma AcceptedSendsWell(env: Env, p: Provider, token: Option<Text>)
    requires Fault(env, p).None? && Outbound(env, p, token).Sent?
    ensures Apart(Outbound(env, p, token).headers)
    ensures forall h :: h in Outbound(env, p, token).headers ==>
      && !Reserved(Lower(h.name))
      && (p.aws.Some? ==> !Signed(Lower(h.name)))
      && (p.protocol == Some(Chatgpt) ==> !Identity(Lower(h.name)))
  {
    var out, n := Outbound(env, p, token).headers, AuthsSent(p);
    AcceptedExactlyWhen(env, p);
    AccountMakesOne(env, p);
    if n == 1 {
      NoSecondAuth(env, p);
    }
    ApartExactlyWhen(env, p, token);
    ShapeOfSent(env, p, token);
    AuthIsLower(p.protocol);
    AuthIsAllowed(p.protocol);
    forall k | 0 <= k < |out|
      ensures !Reserved(Lower(out[k].name))
      ensures p.aws.Some? ==> !Signed(Lower(out[k].name))
      ensures p.protocol == Some(Chatgpt) ==> !Identity(Lower(out[k].name))
    {
      if k >= n {
        var h := p.headers[k - n];
        assert out[n + (k - n)].name == env.trim(h.name);
        assert Fine(env, p, h);
      }
    }
  }

  /** A value that has the placeholder in it once it is expanded. */
  predicate Wants(env: Env, h: Header) {
    var v := env.resolve(h.value);
    v.Some? && Contains(v.value, ACCESS_TOKEN)
  }

  /** Without oauth, an accepted upstream lacks a token only when a value from
      the environment brings the placeholder in. */
  lemma OnlyTheEnvironmentWantsAToken(env: Env, p: Provider) returns (i: nat)
    requires Fault(env, p).None? && p.oauth.None? && Outbound(env, p, None) == Failed(NoToken)
    ensures i < |p.headers| && Wants(env, p.headers[i]) && !Contains(p.headers[i].value, ACCESS_TOKEN)
  {
    AcceptedExactlyWhen(env, p);
    i := TokenWanted(env, p.headers);
    assert Fine(env, p, p.headers[i]);
  }

  lemma {:induction false} TokenWanted(env: Env, hs: seq<Header>) returns (i: nat)
    requires SentAll(env, hs, None) == Failed(NoToken)
    ensures i < |hs| && Wants(env, hs[i])
    decreases |hs|
  {
    if SentAll(env, hs[..|hs| - 1], None).Failed? {
      i := TokenWanted(env, hs[..|hs| - 1]);
    } else {
      i := |hs| - 1;
    }
  }
}
