/** The query strings of upload and cancel requests: how either sender prints them and how the
    receiver reads them back. Text is its UTF-8 bytes. */
module Query {
  import opened Protocol
  import Utf8

  const PERCENT: byte := 0x25
  const PLUS: byte := 0x2B
  const SPACE: byte := 0x20
  const AMP: byte := 0x26
  const EQUALS: byte := 0x3D

  // ---- decoding one component -------------------------------------------------------

  function HexDigit(b: byte): Option<nat> {
    if 0x30 <= b <= 0x39 then Some(b as nat - 0x30)
    else if 0x41 <= b <= 0x46 then Some(b as nat - 0x41 + 10)
    else if 0x61 <= b <= 0x66 then Some(b as nat - 0x61 + 10)
    else None
  }

  /** `u8::from_str_radix` on two bytes: two hex digits, or a plus sign and one. */
  function FromHex(a: byte, b: byte): (r: Option<nat>)
    ensures r.Some? ==> r.value < 256
  {
    match (HexDigit(a), HexDigit(b))
    case (Some(h), Some(l)) => HexRange(a); HexRange(b); Some(16 * h + l)
    case (None, Some(l)) => HexRange(b); if a == PLUS then Some(l) else None
    case _ => None
  }

  lemma HexRange(b: byte)
    ensures HexDigit(b).Some? ==> HexDigit(b).value < 16
  {
  }

  /** The two bytes after a percent sign do not end on a character boundary, so slicing the
      string there panics. */
  predicate Splits(s: Bytes) {
    |s| > 2 && s[0] == PERCENT && (Utf8.Continuation(s[1]) || (|s| > 3 && Utf8.Continuation(s[3])))
  }

  predicate Escape(s: Bytes) {
    |s| > 2 && s[0] == PERCENT && !Splits(s) && FromHex(s[1], s[2]).Some?
  }

  function Prepend(b: byte, r: Option<Bytes>): Option<Bytes> {
    if r.None? then None else Some([b] + r.value)
  }

  /** `url_decode`; `None` is the panic. */
  function Decode(s: Bytes): Option<Bytes> {
    if s == [] then Some([])
    else if Splits(s) then None
    else if Escape(s) then Prepend(FromHex(s[1], s[2]).value as byte, Decode(s[3..]))
    else Prepend(if s[0] == PLUS then SPACE else s[0], Decode(s[1..]))
  }

  /** The loop of `url_decode`. It ends, and never reads beyond the input. */
  method UrlDecode(s: Bytes) returns (r: Option<Bytes>)
    ensures r == Decode(s)
    ensures r.None? <==> Cuts(s)
  {
    PanicsExactly(s);
    var out: Bytes := [];
    var i := 0;
    assert s[0..] == s;
    assert Decode(s) == Joined(out, Decode(s[0..])) by { JoinedNothing(Decode(s)); }
    while i < |s|
      invariant i <= |s|
      invariant Decode(s) == Joined(out, Decode(s[i..]))
    {
      var rest := s[i..];
      assert rest[1..] == s[i + 1..];
      if s[i] == PERCENT && i + 2 < |s| {
        assert rest[3..] == s[i + 3..];
        if Utf8.Continuation(s[i + 1]) || (i + 3 < |s| && Utf8.Continuation(s[i + 3])) {
          assert Splits(rest);
          return None;
        }
        var b := FromHex(s[i + 1], s[i + 2]);
        if b.Some? {
          JoinedPrepend(out, b.value as byte, Decode(s[i + 3..]));
          out := out + [b.value as byte];
          i := i + 3;
        } else {
          JoinedPrepend(out, s[i], Decode(s[i + 1..]));
          out := out + [s[i]];
          i := i + 1;
        }
      } else {
        var b := if s[i] == PLUS then SPACE else s[i];
        JoinedPrepend(out, b, Decode(s[i + 1..]));
        out := out + [b];
        i := i + 1;
      }
    }
    assert s[i..] == [] && out + [] == out;
    r := Some(out);
  }

  function Joined(out: Bytes, r: Option<Bytes>): Option<Bytes> {
    if r.None? then None else Some(out + r.value)
  }

  lemma JoinedNothing(r: Option<Bytes>)
    ensures Joined([], r) == r
  {
    if r.Some? {
      assert [] + r.value == r.value;
    }
  }

  lemma JoinedPrepend(out: Bytes, b: byte, r: Option<Bytes>)
    ensures Joined(out, Prepend(b, r)) == Joined(out + [b], r)
  {
    if r.Some? {
      assert out + ([b] + r.value) == (out + [b]) + r.value;
    }
  }

  lemma {:induction false} DecodeShrinks(s: Bytes)
    ensures Decode(s).Some? ==> |Decode(s).value| <= |s|
  {
    if s != [] {
      if Escape(s) { DecodeShrinks(s[3..]); } else { DecodeShrinks(s[1..]); }
    }
  }

  /** No plus sign, and no percent sign that starts an escape or splits a character. */
  ghost predicate Literal(s: Bytes) {
    forall i | 0 <= i < |s| :: s[i] != PLUS && !Escape(s[i..]) && !Splits(s[i..])
  }

  lemma LiteralTail(s: Bytes)
    requires s != []
    ensures Literal(s) <==> s[0] != PLUS && !Escape(s) && !Splits(s) && Literal(s[1..])
  {
    assert s[0..] == s;
    forall i | 0 <= i < |s| - 1 ensures s[1..][i..] == s[i + 1..] {
    }
    if s[0] != PLUS && !Escape(s) && !Splits(s) && Literal(s[1..]) {
      forall i | 0 <= i < |s| ensures s[i] != PLUS && !Escape(s[i..]) && !Splits(s[i..]) {
        if i > 0 {
          assert s[1..][i - 1..] == s[i..];
          assert s[1..][i - 1] == s[i];
        }
      }
    }
    if Literal(s) {
      forall i | 0 <= i < |s[1..]| ensures s[1..][i] != PLUS && !Escape(s[1..][i..]) && !Splits(s[1..][i..]) {
        assert s[1..][i..] == s[i + 1..];
      }
    }
  }

  /** A text that was not escaped is read back as itself if and only if it is literal. */
  lemma {:induction false} ReadAsItself(s: Bytes)
    ensures Decode(s) == Some(s) <==> Literal(s)
  {
    if s != [] {
      LiteralTail(s);
      DecodeShrinks(s[1..]);
      if Escape(s) {
        DecodeShrinks(s[3..]);
      } else if !Splits(s) {
        ReadAsItself(s[1..]);
        assert s == [s[0]] + s[1..];
        if Decode(s) == Some(s) {
          assert Decode(s).value[1..] == Decode(s[1..]).value;
        }
      }
    }
  }

  // ---- single escapes -----------------------------------------------------------------

  const LOWER := "0123456789abcdef"
  const UPPER := "0123456789ABCDEF"

  /** The hex digits, of both cases. */
  lemma {:induction false} HexDigitExactly(b: byte, v: nat)
    requires v < 16
    ensures HexDigit(b) == Some(v) <==> b as int == LOWER[v] as int || b as int == UPPER[v] as int
  {
  }

  /** A percent sign and two hex digits are one byte, whatever the case of the digits; a plus sign
      in place of the first digit counts as none. */
  lemma {:induction false} EscapeRead(a: byte, b: byte, rest: Bytes)
    requires HexDigit(b).Some? && (HexDigit(a).Some? || a == PLUS)
    requires rest == [] || !Utf8.Continuation(rest[0])
    ensures var value := (if a == PLUS then 0 else 16 * HexDigit(a).value) + HexDigit(b).value;
            value < 256 && Decode([PERCENT, a, b] + rest) == Prepend(value as byte, Decode(rest))
  {
    HexRange(a);
    HexRange(b);
    var s := [PERCENT, a, b] + rest;
    assert s[3..] == rest;
    assert rest != [] ==> s[3] == rest[0];
  }

  /** Any other byte stands for itself, a plus sign for a blank, and a percent sign without two
      such digits after it for a percent sign. */
  lemma {:induction false} ByteRead(b: byte, rest: Bytes)
    requires b == PERCENT ==> |rest| < 2 || (!Splits([b] + rest) && FromHex(rest[0], rest[1]).None?)
    ensures Decode([b] + rest) == Prepend(if b == 0x2B then 0x20 else b, Decode(rest))
  {
    var s := [b] + rest;
    assert s[1..] == rest;
    if |rest| >= 2 {
      assert s[1] == rest[0] && s[2] == rest[1];
    }
  }

  // ---- where decoding panics --------------------------------------------------------

  /** Somewhere a percent sign is followed by two bytes that cut a character. */
  ghost predicate Cuts(s: Bytes) {
    exists i :: 0 <= i < |s| && Splits(s[i..])
  }

  /** No percent sign among the `n` bytes a pass consumes after the first one. */
  lemma CutsTail(s: Bytes, n: nat)
    requires 0 < n <= |s| && !Splits(s)
    requires forall i | 0 < i < n :: s[i] != PERCENT
    ensures Cuts(s) <==> Cuts(s[n..])
  {
    if Cuts(s) {
      var i :| 0 <= i < |s| && Splits(s[i..]);
      assert s[0..] == s;
      assert s[i] == s[i..][0];
      assert s[i..] == s[n..][i - n..];
    }
    if Cuts(s[n..]) {
      var i :| 0 <= i < |s[n..]| && Splits(s[n..][i..]);
      assert s[n..][i..] == s[i + n..];
    }
  }

  /** Decoding panics if and only if some percent sign is followed by a cut: none can hide
      inside an effective escape. */
  lemma {:induction false} PanicsExactly(s: Bytes)
    ensures Decode(s).None? <==> Cuts(s)
  {
    if s == [] {
    } else if Splits(s) {
      assert s[0..] == s;
    } else {
      var n := if Escape(s) then 3 else 1;
      CutsTail(s, n);
      PanicsExactly(s[n..]);
    }
  }

  /** Well-formed text on which it does: a percent sign, a letter, and a letter of two bytes. */
  lemma {:induction false} PanicsOnText()
    ensures var s: Bytes := [0x25, 0x61, 0xC3, 0xA9]; Utf8.Valid(s) && Decode(s) == None
  {
    var s: Bytes := [0x25, 0x61, 0xC3, 0xA9];
    assert s[1..][1..] == [0xC3, 0xA9];
    assert Utf8.FirstLength(s) == 1 && Utf8.FirstLength(s[1..]) == 1 && Utf8.FirstLength([0xC3, 0xA9]) == 2;
    assert [0xC3, 0xA9][2..] == [];
    assert Utf8.Valid([0xC3, 0xA9]);
    assert Utf8.Valid(s[1..]);
    assert s[0..] == s && Splits(s[0..]);
    PanicsExactly(s);
  }

  // ---- escaping, as Go prints -------------------------------------------------------

  predicate Unreserved(b: byte) {
    || 0x30 <= b <= 0x39 || 0x41 <= b <= 0x5A || 0x61 <= b <= 0x7A
    || b == 0x2D || b == 0x2E || b == 0x5F || b == 0x7E
  }

  function UpperHex(n: nat): (b: byte)
    requires n < 16
    ensures HexDigit(b) == Some(n) && Unreserved(b)
  {
    if n < 10 then (0x30 + n) as byte else (0x41 + n - 10) as byte
  }

  function EscapeByte(b: byte): Bytes {
    if Unreserved(b) then [b]
    else if b == SPACE then [PLUS]
    else [PERCENT, UpperHex(b as nat / 16), UpperHex(b as nat % 16)]
  }

  /** `url.QueryEscape`. */
  function EscapeAll(s: Bytes): Bytes {
    if s == [] then [] else EscapeByte(s[0]) + EscapeAll(s[1..])
  }

  /** A letter, a digit or one of "-._~". */
  predicate StandsAlone(b: byte) {
    var c := b as int;
    || 'a' as int <= c <= 'z' as int || 'A' as int <= c <= 'Z' as int || '0' as int <= c <= '9' as int
    || c == '-' as int || c == '.' as int || c == '_' as int || c == '~' as int
  }

  /** Those stay, a blank is a plus sign, any other byte is a percent sign and its two upper-case
      digits. */
  lemma {:induction false} EscapeExactly(b: byte)
    ensures if StandsAlone(b) then EscapeAll([b]) == [b]
            else if b as int == ' ' as int then Spells(EscapeAll([b]), "+")
            else Spells(EscapeAll([b]), ['%', UPPER[b as int / 16], UPPER[b as int % 16]])
  {
    var rest: Bytes := [b][1..];
    assert rest == [];
    assert EscapeAll([b]) == EscapeByte(b) + EscapeAll(rest);
    assert EscapeAll([b]) == EscapeByte(b);
  }

  /** What escaping produces: unreserved characters, plus and percent signs. */
  lemma {:induction false} EscapedAlphabet(s: Bytes)
    ensures forall b | b in EscapeAll(s) :: Unreserved(b) || b == PLUS || b == PERCENT
  {
    if s != [] {
      EscapedAlphabet(s[1..]);
    }
  }

  lemma EscapedByteRead(b: byte, tail: Bytes)
    requires forall c | c in tail :: c < 0x80
    ensures Decode(EscapeByte(b) + tail) == Prepend(b, Decode(tail))
  {
    var e := EscapeByte(b) + tail;
    if Unreserved(b) || b == SPACE {
      assert e[1..] == tail;
    } else {
      var h, l := b as nat / 16, b as nat % 16;
      assert e[0] == PERCENT && e[1] == UpperHex(h) && e[2] == UpperHex(l) && e[3..] == tail;
      assert |e| > 3 ==> e[3] in tail;
      assert FromHex(e[1], e[2]) == Some(16 * h + l);
    }
  }

  /** Decoding undoes escaping, for every text. */
  lemma {:induction false} DecodeEscaped(s: Bytes)
    ensures Decode(EscapeAll(s)) == Some(s)
  {
    if s != [] {
      DecodeEscaped(s[1..]);
      EscapedAlphabet(s[1..]);
      EscapedByteRead(s[0], EscapeAll(s[1..]));
      assert s == [s[0]] + s[1..];
    } else {
      assert Decode([]) == Some([]);
    }
  }

  // ---- a whole query ----------------------------------------------------------------

  /** `split(sep)`: the pieces between separators; at least one. */
  function Split(s: Bytes, sep: byte): (r: seq<Bytes>)
    ensures r != []
  {
    if s == [] then [[]]
    else
      var rest := Split(s[1..], sep);
      if s[0] == sep then [[]] + rest else [[s[0]] + rest[0]] + rest[1..]
  }

  lemma {:induction false} SplitPiece(s: Bytes, sep: byte)
    requires sep !in s
    ensures Split(s, sep) == [s]
  {
    if s != [] {
      SplitPiece(s[1..], sep);
      assert s == [s[0]] + s[1..];
    }
  }

  lemma {:induction false} SplitJoined(a: Bytes, b: Bytes, sep: byte)
    ensures Split(a + [sep] + b, sep) == Split(a, sep) + Split(b, sep)
  {
    var s, y := a + [sep] + b, Split(b, sep);
    if a == [] {
      assert s[1..] == b;
    } else {
      var x := Split(a[1..], sep);
      assert s[0] == a[0] && s[1..] == a[1..] + [sep] + b;
      SplitJoined(a[1..], b, sep);
      SplitHead(x, y, a[0]);
    }
  }

  lemma SplitHead(x: seq<Bytes>, y: seq<Bytes>, c: byte)
    requires x != []
    ensures [[]] + (x + y) == ([[]] + x) + y
    ensures [[c] + (x + y)[0]] + (x + y)[1..] == ([[c] + x[0]] + x[1..]) + y
  {
    assert (x + y)[1..] == x[1..] + y;
  }

  /** Position of the first equals sign, or the length. */
  function FirstEquals(s: Bytes): (i: nat)
    ensures i <= |s| && (i < |s| ==> s[i] == EQUALS)
    ensures forall k | 0 <= k < i :: s[k] != EQUALS
  {
    if s == [] || s[0] == EQUALS then 0 else 1 + FirstEquals(s[1..])
  }

  datatype Pair = Nothing | Panics | Is(key: Bytes, value: Bytes)

  /** `split_once('=')` and decoding; a piece without an equals sign is skipped. */
  function ParsePair(piece: Bytes): Pair {
    var i := FirstEquals(piece);
    if i == |piece| then Nothing
    else match (Decode(piece[..i]), Decode(piece[i + 1..]))
      case (Some(k), Some(v)) => Is(k, v)
      case _ => Panics
  }

  /** Collected into a map, later pieces winning; `None` if any piece panics. */
  function Params(pieces: seq<Bytes>): Option<map<Bytes, Bytes>> {
    if pieces == [] then Some(map[])
    else
      var init, last := Params(pieces[..|pieces| - 1]), ParsePair(pieces[|pieces| - 1]);
      if init.None? || last.Panics? then None
      else if last.Nothing? then init
      else Some(init.value[last.key := last.value])
  }

  /** `query_params`. */
  function QueryParams(query: Bytes): Option<map<Bytes, Bytes>> {
    Params(Split(query, AMP))
  }

  /** A piece without an equals sign gives nothing; one with an equals sign is cut at the first. */
  lemma {:induction false} PieceExactly(piece: Bytes)
    ensures EQUALS !in piece ==> Params([piece]) == Some(map[])
    ensures EQUALS in piece ==>
              exists i :: 0 <= i < |piece| && piece[i] == EQUALS && EQUALS !in piece[..i]
                && var k, v := Decode(piece[..i]), Decode(piece[i + 1..]);
                   Params([piece]) == if k.None? || v.None? then None else Some(map[k.value := v.value])
  {
    hide Decode;
    var i := FirstEquals(piece);
    ParamsOfPiece(piece);
    assert i < |piece| ==> piece[i] in piece;
  }

  lemma {:induction false} ParamsOfBoth(a: seq<Bytes>, b: seq<Bytes>)
    ensures Params(a + b) ==
            if Params(a).None? || Params(b).None? then None else Some(Params(a).value + Params(b).value)
  {
    hide ParsePair;
    if b == [] {
      assert a + b == a;
      assert Params(a).Some? ==> Params(a).value + map[] == Params(a).value;
    } else {
      var init, last := b[..|b| - 1], ParsePair(b[|b| - 1]);
      ParamsOfBoth(a, init);
      assert (a + b)[..|a + b| - 1] == a + init;
      assert (a + b)[|a + b| - 1] == b[|b| - 1];
      if Params(a).Some? && Params(init).Some? && last.Is? {
        var x, y := Params(a).value, Params(init).value;
        assert (x + y)[last.key := last.value] == x + y[last.key := last.value];
      }
    }
  }

  lemma ParamsOfOne(piece: Bytes, k: Bytes, v: Bytes)
    requires ParsePair(piece) == Is(k, v)
    ensures Params([piece]) == Some(map[k := v])
  {
    assert [piece][..0] == [];
  }

  lemma PairOf(k: Bytes, v: Bytes)
    requires EQUALS !in k
    ensures FirstEquals(k + [EQUALS] + v) == |k|
    ensures (k + [EQUALS] + v)[..|k|] == k && (k + [EQUALS] + v)[|k| + 1..] == v
  {
    var s := k + [EQUALS] + v;
    assert s[|k|] == EQUALS;
    forall i | 0 <= i < |k| ensures s[i] != EQUALS {
      assert s[i] in k;
    }
  }

  // ---- what the Go sender prints ----------------------------------------------------

  function GoPair(p: (Bytes, Bytes)): Bytes {
    EscapeAll(p.0) + [EQUALS] + EscapeAll(p.1)
  }

  /** `url.Values.Encode` of the pairs in the order it puts them. */
  function GoQuery(pairs: seq<(Bytes, Bytes)>): Bytes {
    if pairs == [] then []
    else if |pairs| == 1 then GoPair(pairs[0])
    else GoQuery(pairs[..|pairs| - 1]) + [AMP] + GoPair(pairs[|pairs| - 1])
  }

  function MapOf(pairs: seq<(Bytes, Bytes)>): map<Bytes, Bytes> {
    if pairs == [] then map[]
    else MapOf(pairs[..|pairs| - 1])[pairs[|pairs| - 1].0 := pairs[|pairs| - 1].1]
  }

  /** An escaped text holds neither separator. */
  lemma NoSeparators(s: Bytes)
    ensures AMP !in EscapeAll(s) && EQUALS !in EscapeAll(s)
  {
    EscapedAlphabet(s);
  }

  lemma GoPairRead(p: (Bytes, Bytes))
    ensures Split(GoPair(p), AMP) == [GoPair(p)] && Params([GoPair(p)]) == Some(map[p.0 := p.1])
  {
    hide EscapeAll, Decode, Split, Params;
    NoSeparators(p.0);
    NoSeparators(p.1);
    DecodeEscaped(p.0);
    DecodeEscaped(p.1);
    PairOf(EscapeAll(p.0), EscapeAll(p.1));
    ParamsOfOne(GoPair(p), p.0, p.1);
    SplitPiece(GoPair(p), AMP);
  }

  lemma OnePairRead(p: (Bytes, Bytes))
    ensures QueryParams(GoPair(p)) == Some(map[p.0 := p.1])
  {
    GoPairRead(p);
  }

  lemma NextPairRead(query: Bytes, m: map<Bytes, Bytes>, p: (Bytes, Bytes))
    requires QueryParams(query) == Some(m)
    ensures QueryParams(query + [AMP] + GoPair(p)) == Some(m[p.0 := p.1])
  {
    GoPairRead(p);
    hide Params, Split, GoPair;
    SplitJoined(query, GoPair(p), AMP);
    ParamsOfBoth(Split(query, AMP), [GoPair(p)]);
    assert m + map[p.0 := p.1] == m[p.0 := p.1];
  }

  lemma NothingRead()
    ensures QueryParams([]) == Some(map[])
  {
    var pieces: seq<Bytes> := [[]];
    assert pieces[..0] == [];
    assert Split([], AMP) == pieces;
  }

  /** Every key and value of a form-encoded query is recovered, whatever bytes they hold. */
  lemma {:induction false} GoQueryRead(pairs: seq<(Bytes, Bytes)>)
    ensures QueryParams(GoQuery(pairs)) == Some(MapOf(pairs))
  {
    hide QueryParams, GoPair;
    if pairs == [] {
      NothingRead();
    } else {
      var init, last := pairs[..|pairs| - 1], pairs[|pairs| - 1];
      if |pairs| == 1 {
        assert init == [] && MapOf(init) == map[];
        OnePairRead(last);
      } else {
        GoQueryRead(init);
        NextPairRead(GoQuery(init), MapOf(init), last);
      }
    }
  }

  // ---- what the Rust sender prints --------------------------------------------------

  const SESSION_ID: Bytes := [0x73, 0x65, 0x73, 0x73, 0x69, 0x6F, 0x6E, 0x49, 0x64]
  const FILE_ID: Bytes := [0x66, 0x69, 0x6C, 0x65, 0x49, 0x64]
  const TOKEN: Bytes := [0x74, 0x6F, 0x6B, 0x65, 0x6E]

  function Segment(k: Bytes, v: Bytes): Bytes {
    k + [EQUALS] + v
  }

  /** `?sessionId=...&fileId=...&token=...`, with the values as they are. */
  function RustQuery(sid: Bytes, fid: Bytes, tok: Bytes): Bytes {
    Segment(SESSION_ID, sid) + [AMP] + Segment(FILE_ID, fid) + [AMP] + Segment(TOKEN, tok)
  }

  predicate KeyOk(k: Bytes) {
    forall b | b in k :: b != AMP && b != EQUALS && b != PLUS && b != PERCENT
  }

  lemma KeysOk()
    ensures KeyOk(SESSION_ID) && KeyOk(FILE_ID) && KeyOk(TOKEN)
    ensures SESSION_ID != FILE_ID && SESSION_ID != TOKEN && FILE_ID != TOKEN
  {
    assert |SESSION_ID| == 9 && |FILE_ID| == 6 && |TOKEN| == 5;
  }

  /** The bytes of a text of characters below 0x80. */
  predicate Spells(s: Bytes, text: string) {
    |s| == |text| && forall i | 0 <= i < |s| :: s[i] as int == text[i] as int
  }

  lemma {:induction false} KeysSpelled()
    ensures Spells(SESSION_ID, "sessionId") && Spells(FILE_ID, "fileId") && Spells(TOKEN, "token")
    ensures Spells([PERCENT, PLUS, SPACE, AMP, EQUALS], "%+ &=")
  {
  }

  lemma KeyReadsAsItself(k: Bytes)
    requires KeyOk(k)
    ensures Decode(k) == Some(k)
  {
    forall i | 0 <= i < |k| ensures k[i] != PLUS && !Escape(k[i..]) && !Splits(k[i..]) {
      assert k[i..][0] == k[i] && k[i] in k;
    }
    ReadAsItself(k);
  }

  /** Nothing that would have to be escaped. */
  ghost predicate Plain(v: Bytes) {
    AMP !in v && Literal(v)
  }

  lemma {:induction false} SplitLengths(s: Bytes, sep: byte)
    ensures forall p | p in Split(s, sep) :: |p| <= |s|
    ensures |Split(s, sep)[0]| <= |s|
  {
    if s != [] {
      SplitLengths(s[1..], sep);
      var rest := Split(s[1..], sep);
      forall p | p in Split(s, sep) ensures |p| <= |s| {
        if s[0] == sep {
          assert p == [] || p in rest;
        } else {
          assert p == [s[0]] + rest[0] || p in rest[1..];
          assert p in rest[1..] ==> p in rest;
        }
      }
    }
  }

  lemma PairShort(piece: Bytes)
    ensures ParsePair(piece).Is? ==> |ParsePair(piece).value| <= |piece|
  {
    if FirstEquals(piece) < |piece| {
      DecodeShrinks(piece[FirstEquals(piece) + 1..]);
    }
  }

  /** No value is longer than the text it was read from. */
  lemma {:induction false} ParamsShort(pieces: seq<Bytes>, n: nat)
    requires forall p | p in pieces :: |p| <= n
    ensures Params(pieces).Some? ==> forall k | k in Params(pieces).value :: |Params(pieces).value[k]| <= n
  {
    hide ParsePair;
    if pieces != [] {
      var init, last := pieces[..|pieces| - 1], pieces[|pieces| - 1];
      assert forall p | p in init :: p in pieces;
      assert last in pieces;
      ParamsShort(init, n);
      PairShort(last);
    }
  }

  /** A segment whose value has no separator is one pair. */
  lemma WholeSegment(k: Bytes, v: Bytes)
    requires KeyOk(k) && AMP !in v
    ensures Params(Split(Segment(k, v), AMP)) == if Decode(v).None? then None else Some(map[k := Decode(v).value])
  {
    KeyReadsAsItself(k);
    hide Decode, Params;
    PairOf(k, v);
    SplitPiece(Segment(k, v), AMP);
    ParamsOfPiece(Segment(k, v));
  }

  lemma ParamsOfPiece(piece: Bytes)
    ensures Params([piece]) == match ParsePair(piece)
                               case Nothing => Some(map[])
                               case Panics => None
                               case Is(k, v) => Some(map[k := v])
  {
    assert [piece][..0] == [];
  }

  /** One that has a separator in its value still sets its key, but only to shorter values. */
  lemma BrokenSegment(k: Bytes, v: Bytes)
    requires KeyOk(k) && AMP in v && Params(Split(Segment(k, v), AMP)).Some?
    ensures var m := Params(Split(Segment(k, v), AMP)).value;
            k in m && forall key | key in m :: |m[key]| < |v|
  {
    hide Decode, Params, Split;
    var i := FirstAmp(v);
    var v0, v1 := v[..i], v[i + 1..];
    assert v == v0 + [AMP] + v1;
    assert Segment(k, v) == Segment(k, v0) + [AMP] + v1;
    SplitJoined(Segment(k, v0), v1, AMP);
    WholeSegment(k, v0);
    ParamsOfBoth(Split(Segment(k, v0), AMP), Split(v1, AMP));
    DecodeShrinks(v0);
    SplitLengths(v1, AMP);
    ParamsShort(Split(v1, AMP), |v1|);
  }

  lemma FirstAmp(v: Bytes) returns (i: nat)
    requires AMP in v
    ensures i < |v| && v[i] == AMP && AMP !in v[..i]
    decreases |v|
  {
    if AMP in v[..|v| - 1] {
      i := FirstAmp(v[..|v| - 1]);
      assert v[..|v| - 1][..i] == v[..i];
    } else {
      i := |v| - 1;
    }
  }

  /** A segment that gives its own key exactly its value has a plain one, and gives nothing else. */
  lemma {:induction false} SegmentGives(k: Bytes, v: Bytes, m: map<Bytes, Bytes>)
    requires KeyOk(k) && Params(Split(Segment(k, v), AMP)) == Some(m)
    ensures k in m
    ensures m[k] == v ==> Plain(v) && m == map[k := v]
  {
    hide Decode, Params, Split;
    if AMP in v {
      BrokenSegment(k, v);
    } else {
      WholeSegment(k, v);
      ReadAsItself(v);
    }
  }

  lemma PlainSegment(k: Bytes, v: Bytes)
    requires KeyOk(k) && Plain(v)
    ensures Params(Split(Segment(k, v), AMP)) == Some(map[k := v])
  {
    WholeSegment(k, v);
    ReadAsItself(v);
  }

  lemma RustQueryParts(sid: Bytes, fid: Bytes, tok: Bytes)
    ensures var a, b, c := Params(Split(Segment(SESSION_ID, sid), AMP)), Params(Split(Segment(FILE_ID, fid), AMP)),
                           Params(Split(Segment(TOKEN, tok), AMP));
            QueryParams(RustQuery(sid, fid, tok)) ==
            if a.None? || b.None? || c.None? then None else Some(a.value + b.value + c.value)
  {
    hide Params, Split, Segment;
    var x, y, z := Segment(SESSION_ID, sid), Segment(FILE_ID, fid), Segment(TOKEN, tok);
    SplitJoined(x + [AMP] + y, z, AMP);
    SplitJoined(x, y, AMP);
    ParamsOfBoth(Split(x, AMP) + Split(y, AMP), Split(z, AMP));
    ParamsOfBoth(Split(x, AMP), Split(y, AMP));
  }

  /** The unescaped query is recovered exactly, all three values and nothing else, if and only
      if none of the values holds an ampersand, a plus sign or an escape. Session ids, file ids
      and tokens are letters and digits, so theirs is. */
  lemma {:induction false} RustQueryReadExactly(sid: Bytes, fid: Bytes, tok: Bytes)
    ensures QueryParams(RustQuery(sid, fid, tok)) == Some(map[SESSION_ID := sid, FILE_ID := fid, TOKEN := tok])
            <==> Plain(sid) && Plain(fid) && Plain(tok)
  {
    hide QueryParams, RustQuery, Params, Split, Segment, Plain, KeyOk;
    var want := map[SESSION_ID := sid, FILE_ID := fid, TOKEN := tok];
    KeysOk();
    RustQueryParts(sid, fid, tok);
    if Plain(sid) && Plain(fid) && Plain(tok) {
      PlainSegment(SESSION_ID, sid);
      PlainSegment(FILE_ID, fid);
      PlainSegment(TOKEN, tok);
      assert map[SESSION_ID := sid] + map[FILE_ID := fid] + map[TOKEN := tok] == want;
    }
    if QueryParams(RustQuery(sid, fid, tok)) == Some(want) {
      var a, b, c := Params(Split(Segment(SESSION_ID, sid), AMP)).value,
        Params(Split(Segment(FILE_ID, fid), AMP)).value, Params(Split(Segment(TOKEN, tok), AMP)).value;
      SegmentGives(TOKEN, tok, c);
      assert (a + b + c)[TOKEN] == c[TOKEN];
      SegmentGives(FILE_ID, fid, b);
      assert (a + b + c)[FILE_ID] == b[FILE_ID];
      SegmentGives(SESSION_ID, sid, a);
      assert (a + b + c)[SESSION_ID] == a[SESSION_ID];
    }
  }

  /** Letters and digits are plain. */
  lemma {:induction false} AlphanumericIsPlain(v: Bytes)
    requires forall b | b in v :: Unreserved(b)
    ensures Plain(v)
  {
    forall i | 0 <= i < |v| ensures v[i] != PLUS && !Escape(v[i..]) && !Splits(v[i..]) {
      assert v[i..][0] == v[i] && v[i] in v;
    }
  }
}
