/** Well-formed UTF-8, as section 4 of RFC 3629 has it. */
module Utf8 {
  import opened Protocol

  predicate Continuation(b: byte) {
    0x80 <= b <= 0xBF
  }

  /** Length of the sequence that a lead byte and its second byte start, or 0. */
  function SequenceLength(lead: byte, second: byte): nat {
    if lead < 0x80 then 1
    else if 0xC2 <= lead <= 0xDF then if Continuation(second) then 2 else 0
    else if lead == 0xE0 then if 0xA0 <= second <= 0xBF then 3 else 0
    else if lead == 0xED then if 0x80 <= second <= 0x9F then 3 else 0
    else if 0xE1 <= lead <= 0xEF then if Continuation(second) then 3 else 0
    else if lead == 0xF0 then if 0x90 <= second <= 0xBF then 4 else 0
    else if lead == 0xF4 then if 0x80 <= second <= 0x8F then 4 else 0
    else if 0xF1 <= lead <= 0xF3 then if Continuation(second) then 4 else 0
    else 0
  }

  function FirstLength(s: Bytes): (n: nat)
    requires s != []
    ensures n <= 4
  {
    SequenceLength(s[0], if |s| > 1 then s[1] else 0)
  }

  predicate Valid(s: Bytes) {
    s != [] ==>
      var n := FirstLength(s);
      && 0 < n <= |s|
      && (forall i | 1 <= i < n :: Continuation(s[i]))
      && Valid(s[n..])
  }

  // ---- the same by characters -------------------------------------------------------------

  /** The code points that are characters: all but the surrogates. */
  predicate Scalar(c: nat) {
    c < 0xD800 || 0xE000 <= c < 0x11_0000
  }

  /** The bytes of a character: its bits, six to each continuation byte. */
  function Encoded(c: nat): (s: Bytes)
    requires Scalar(c)
    ensures 1 <= |s| <= 4
  {
    if c < 0x80 then [c as byte]
    else if c < 0x800 then [(0xC0 + c / 0x40) as byte, (0x80 + c % 0x40) as byte]
    else if c < 0x1_0000 then
      [(0xE0 + c / 0x1000) as byte, (0x80 + c / 0x40 % 0x40) as byte, (0x80 + c % 0x40) as byte]
    else
      [(0xF0 + c / 0x4_0000) as byte, (0x80 + c / 0x1000 % 0x40) as byte,
       (0x80 + c / 0x40 % 0x40) as byte, (0x80 + c % 0x40) as byte]
  }

  function EncodedAll(cs: seq<nat>): Bytes
    requires forall c | c in cs :: Scalar(c)
  {
    if cs == [] then [] else Encoded(cs[0]) + EncodedAll(cs[1..])
  }

  /** The bytes of a character are one well-formed sequence. */
  lemma {:induction false} EncodedIsFirst(c: nat, rest: Bytes)
    requires Scalar(c)
    ensures var s := Encoded(c) + rest;
            FirstLength(s) == |Encoded(c)| && forall i | 1 <= i < |Encoded(c)| :: Continuation(s[i])
  {
    var s := Encoded(c);
    assert (s + rest)[0] == s[0];
    assert |s| > 1 ==> (s + rest)[1] == s[1];
  }

  lemma {:induction false} EncodedIsValid(cs: seq<nat>)
    requires forall c | c in cs :: Scalar(c)
    ensures Valid(EncodedAll(cs))
  {
    if cs != [] {
      var s := Encoded(cs[0]) + EncodedAll(cs[1..]);
      forall c | c in cs[1..] ensures Scalar(c) {
        assert c in cs;
      }
      EncodedIsValid(cs[1..]);
      EncodedIsFirst(cs[0], EncodedAll(cs[1..]));
      assert s[|Encoded(cs[0])|..] == EncodedAll(cs[1..]);
    }
  }

  /** Three groups of six bits, taken apart again. */
  lemma Groups(a: nat, b: nat, c: nat, d: nat)
    requires b < 0x40 && c < 0x40 && d < 0x40
    ensures var n := a * 0x4_0000 + b * 0x1000 + c * 0x40 + d;
            && n / 0x40 == a * 0x1000 + b * 0x40 + c && n % 0x40 == d
            && n / 0x1000 == a * 0x40 + b && n / 0x40 % 0x40 == c
            && n / 0x4_0000 == a && n / 0x1000 % 0x40 == b
  {
  }

  function Payload(b: byte): nat {
    b as nat % 0x40
  }

  lemma PayloadOf(b: byte)
    requires Continuation(b)
    ensures Payload(b) < 0x40 && b as nat == 0x80 + Payload(b)
  {
  }

  /** The character that a well-formed first sequence encodes. */
  lemma {:induction false} FirstIsEncoded(s: Bytes) returns (c: nat)
    requires s != [] && 0 < FirstLength(s) <= |s|
    requires forall i | 1 <= i < FirstLength(s) :: Continuation(s[i])
    ensures Scalar(c) && Encoded(c) == s[..FirstLength(s)]
  {
    var n := FirstLength(s);
    if n == 1 {
      c := s[0] as nat;
    } else if n == 2 {
      c := TwoBytes(s[0], s[1]);
      assert s[..2] == [s[0], s[1]];
    } else if n == 3 {
      c := ThreeBytes(s[0], s[1], s[2]);
      assert s[..3] == [s[0], s[1], s[2]];
    } else {
      c := FourBytes(s[0], s[1], s[2], s[3]);
      assert s[..4] == [s[0], s[1], s[2], s[3]];
    }
  }

  lemma TwoBytes(s0: byte, s1: byte) returns (c: nat)
    requires SequenceLength(s0, s1) == 2
    ensures Scalar(c) && Encoded(c) == [s0, s1]
  {
    PayloadOf(s1);
    var a, b := s0 as nat - 0xC0, Payload(s1);
    c := a * 0x40 + b;
    Groups(0, 0, a, b);
  }

  lemma ThreeBytes(s0: byte, s1: byte, s2: byte) returns (c: nat)
    requires SequenceLength(s0, s1) == 3 && Continuation(s2)
    ensures Scalar(c) && Encoded(c) == [s0, s1, s2]
  {
    PayloadOf(s1);
    PayloadOf(s2);
    var a, b, d := s0 as nat - 0xE0, Payload(s1), Payload(s2);
    c := a * 0x1000 + b * 0x40 + d;
    Groups(0, a, b, d);
  }

  lemma FourBytes(s0: byte, s1: byte, s2: byte, s3: byte) returns (c: nat)
    requires SequenceLength(s0, s1) == 4 && Continuation(s2) && Continuation(s3)
    ensures Scalar(c) && Encoded(c) == [s0, s1, s2, s3]
  {
    PayloadOf(s1);
    PayloadOf(s2);
    PayloadOf(s3);
    var a, b, d, f := s0 as nat - 0xF0, Payload(s1), Payload(s2), Payload(s3);
    c := a * 0x4_0000 + b * 0x1000 + d * 0x40 + f;
    Groups(a, b, d, f);
  }

  /** Text is well formed exactly when it is the bytes of some characters. */
  lemma {:induction false} ValidExactly(s: Bytes) returns (cs: seq<nat>)
    requires Valid(s)
    ensures (forall c | c in cs :: Scalar(c)) && EncodedAll(cs) == s
    decreases |s|
  {
    if s == [] {
      cs := [];
    } else {
      var n := FirstLength(s);
      var c := FirstIsEncoded(s);
      var rest := ValidExactly(s[n..]);
      cs := [c] + rest;
      assert cs[1..] == rest && s == s[..n] + s[n..];
    }
  }
}
