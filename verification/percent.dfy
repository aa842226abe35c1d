/** Percent-encoding, sections 2.1 and 2.3 of RFC 3986. */
module Percent {
  import opened Options
  import opened Bytes

  predicate Unreserved(b: Byte) {
    'A' <= b <= 'Z' || 'a' <= b <= 'z' || '0' <= b <= '9' || b == '-' || b == '.' || b == '_' || b == '~'
  }

  function Digit(n: nat): (d: Byte)
    requires n < 16
    ensures '0' <= d <= '9' || 'A' <= d <= 'F'
  {
    if n < 10 then ('0' as int + n) as char else ('A' as int + n - 10) as char
  }

  /** A hex digit of either case. */
  function DigitValue(b: Byte): (v: Option<nat>)
    ensures v.Some? ==> v.value < 16
  {
    if '0' <= b <= '9' then Some(b as int - '0' as int)
    else if 'A' <= b <= 'F' then Some(b as int - 'A' as int + 10)
    else if 'a' <= b <= 'f' then Some(b as int - 'a' as int + 10)
    else None
  }

  function Triplet(b: Byte): seq<Byte> {
    ['%', Digit(Value(b) / 16), Digit(Value(b) % 16)]
  }

  /** Every byte that may not stay is written as a triplet. */
  function Encode(s: seq<Byte>, keep: Byte -> bool): seq<Byte> {
    if s == [] then [] else (if keep(s[0]) then [s[0]] else Triplet(s[0])) + Encode(s[1..], keep)
  }

  /** Triplets become bytes; anything else stands for itself. */
  function Decode(s: seq<Byte>): seq<Byte>
    decreases |s|
  {
    if s == [] then []
    else if s[0] == '%' && |s| >= 3 && DigitValue(s[1]).Some? && DigitValue(s[2]).Some? then
      [(DigitValue(s[1]).value * 16 + DigitValue(s[2]).value) as char] + Decode(s[3..])
    else [s[0]] + Decode(s[1..])
  }

  lemma TripletDecodes(b: Byte, rest: seq<Byte>)
    ensures Decode(Triplet(b) + rest) == [b] + Decode(rest)
  {
    var s := Triplet(b) + rest;
    assert s[3..] == rest;
    assert DigitValue(s[1]) == Some(Value(b) / 16) && DigitValue(s[2]) == Some(Value(b) % 16);
  }

  /** Decoding gives back what was encoded, unless `%` itself was let through. */
  lemma {:induction false} RoundTrip(s: seq<Byte>, keep: Byte -> bool)
    requires !keep('%')
    ensures Decode(Encode(s, keep)) == s
    decreases |s|
  {
    if s != [] {
      RoundTrip(s[1..], keep);
      if keep(s[0]) {
        assert ([s[0]] + Encode(s[1..], keep))[1..] == Encode(s[1..], keep);
      } else {
        TripletDecodes(s[0], Encode(s[1..], keep));
      }
    }
  }

  /** An encoded text holds kept bytes, `%` and upper-case hex digits only. */
  lemma {:induction false} OnlyKept(s: seq<Byte>, keep: Byte -> bool)
    ensures forall b :: b in Encode(s, keep) ==> keep(b) || b == '%' || '0' <= b <= '9' || 'A' <= b <= 'F'
    decreases |s|
  {
    if s != [] {
      OnlyKept(s[1..], keep);
    }
  }

  /** The bytes that section 2.3 leaves alone, by their numbers: the digits, the
      letters of both cases, and four more. */
  lemma UnreservedByNumber(b: Byte)
    ensures var v := Value(b);
      Unreserved(b) <==>
        48 <= v <= 57 || 65 <= v <= 90 || 97 <= v <= 122 || v == 45 || v == 46 || v == 95 || v == 126
  {
  }

  /** Encoding changes nothing exactly if all of it may stay. */
  lemma {:induction false} StaysExactlyWhen(s: seq<Byte>, keep: Byte -> bool)
    ensures Encode(s, keep) == s <==> forall i :: 0 <= i < |s| ==> keep(s[i])
    ensures |Encode(s, keep)| >= |s|
    decreases |s|
  {
    if s != [] {
      StaysExactlyWhen(s[1..], keep);
      if keep(s[0]) {
        assert Encode(s, keep)[1..] == Encode(s[1..], keep);
        assert forall i :: 0 < i < |s| ==> s[i] == s[1..][i - 1];
      } else {
        assert |Encode(s, keep)| > |s|;
      }
    }
  }
}
