/** The wire codec between Rust and the app (app/rust/src/frb_generated.rs): fixed-width
    integers in native byte order, i32 length prefixes, options, nested vectors. A decoder that
    panics is `Fail`. */
module Sse {
  import opened Protocol
  import opened Api
  import Utf8

  datatype Parse<T> = Fail | Got(value: T, rest: Bytes)

  /** The machine's byte order. */
  datatype Endian = Little | Big

  // ---- fixed-width integers ---------------------------------------------------------

  function Pow256(w: nat): nat {
    if w == 0 then 1 else 256 * Pow256(w - 1)
  }

  /** The low byte of `n` is first in little-endian order and last in big-endian order. */
  function EncUint(e: Endian, w: nat, n: nat): (s: Bytes)
    ensures |s| == w
  {
    if w == 0 then []
    else if e.Little? then [(n % 256) as byte] + EncUint(e, w - 1, n / 256)
    else EncUint(e, w - 1, n / 256) + [(n % 256) as byte]
  }

  function UintOf(e: Endian, s: Bytes): nat {
    if s == [] then 0
    else if e.Little? then s[0] as nat + 256 * UintOf(e, s[1..])
    else 256 * UintOf(e, s[..|s| - 1]) + s[|s| - 1] as nat
  }

  lemma {:induction false} UintRoundTrip(e: Endian, w: nat, n: nat)
    requires n < Pow256(w)
    ensures UintOf(e, EncUint(e, w, n)) == n
  {
    if w > 0 {
      UintRoundTrip(e, w - 1, n / 256);
      var s := EncUint(e, w, n);
      if e.Little? {
        assert s[1..] == EncUint(e, w - 1, n / 256);
      } else {
        assert s[..w - 1] == EncUint(e, w - 1, n / 256);
      }
    }
  }

  lemma {:induction false} UintBound(e: Endian, s: Bytes)
    ensures UintOf(e, s) < Pow256(|s|)
  {
    if s != [] {
      if e.Little? { UintBound(e, s[1..]); } else { UintBound(e, s[..|s| - 1]); }
    }
  }

  function DecUint(e: Endian, w: nat, s: Bytes): Parse<nat> {
    if |s| < w then Fail else Got(UintOf(e, s[..w]), s[w..])
  }

  lemma DecUintOfEnc(e: Endian, w: nat, n: nat, rest: Bytes)
    requires n < Pow256(w)
    ensures DecUint(e, w, EncUint(e, w, n) + rest) == Got(n, rest)
  {
    UintRoundTrip(e, w, n);
    var s := EncUint(e, w, n) + rest;
    assert s[..w] == EncUint(e, w, n) && s[w..] == rest;
  }

  lemma Widths()
    ensures Pow256(1) == 0x100 && Pow256(2) == 0x1_0000 && Pow256(4) == 0x1_0000_0000
    ensures Pow256(8) == 0x1_0000_0000_0000_0000
  {
    assert Pow256(2) == 256 * Pow256(1);
    assert Pow256(4) == 256 * 256 * Pow256(2);
    assert Pow256(6) == 256 * 256 * Pow256(4);
    assert Pow256(8) == 256 * 256 * Pow256(6);
  }

  function Unsigned(modulus: int, n: int): int {
    if n < 0 then n + modulus else n
  }

  function Signed(modulus: int, u: int): int {
    if 2 * u < modulus then u else u - modulus
  }

  function EncU16(e: Endian, n: u16): Bytes { EncUint(e, 2, n as nat) }
  function EncU32(e: Endian, n: u32): Bytes { EncUint(e, 4, n as nat) }
  function EncI32(e: Endian, n: i32): Bytes { EncUint(e, 4, Unsigned(0x1_0000_0000, n as int)) }
  function EncI64(e: Endian, n: i64): Bytes { EncUint(e, 8, Unsigned(0x1_0000_0000_0000_0000, n as int)) }
  function EncBool(b: bool): Bytes { [if b then 1 else 0] }

  function DecU16(e: Endian, s: Bytes): Parse<u16> {
    if |s| < 2 then Fail else
      UintBound(e, s[..2]); Widths();
      Got(UintOf(e, s[..2]) as u16, s[2..])
  }

  function DecU32(e: Endian, s: Bytes): Parse<u32> {
    if |s| < 4 then Fail else
      UintBound(e, s[..4]); Widths();
      Got(UintOf(e, s[..4]) as u32, s[4..])
  }

  function DecI32(e: Endian, s: Bytes): Parse<i32> {
    if |s| < 4 then Fail else
      UintBound(e, s[..4]); Widths();
      Got(Signed(0x1_0000_0000, UintOf(e, s[..4])) as i32, s[4..])
  }

  function DecI64(e: Endian, s: Bytes): Parse<i64> {
    if |s| < 8 then Fail else
      UintBound(e, s[..8]); Widths();
      Got(Signed(0x1_0000_0000_0000_0000, UintOf(e, s[..8])) as i64, s[8..])
  }

  /** Any byte but 0 reads as true. */
  function DecBool(s: Bytes): Parse<bool> {
    if s == [] then Fail else Got(s[0] != 0, s[1..])
  }

  function DecU8(s: Bytes): Parse<byte> {
    if s == [] then Fail else Got(s[0], s[1..])
  }

  lemma U16RoundTrip(e: Endian, n: u16, rest: Bytes)
    ensures DecU16(e, EncU16(e, n) + rest) == Got(n, rest)
  {
    Widths();
    DecUintOfEnc(e, 2, n as nat, rest);
  }

  lemma U32RoundTrip(e: Endian, n: u32, rest: Bytes)
    ensures DecU32(e, EncU32(e, n) + rest) == Got(n, rest)
  {
    Widths();
    DecUintOfEnc(e, 4, n as nat, rest);
  }

  lemma I32RoundTrip(e: Endian, n: i32, rest: Bytes)
    ensures DecI32(e, EncI32(e, n) + rest) == Got(n, rest)
  {
    Widths();
    DecUintOfEnc(e, 4, Unsigned(0x1_0000_0000, n as int), rest);
  }

  lemma {:induction false} I64RoundTrip(e: Endian, n: i64, rest: Bytes)
    ensures DecI64(e, EncI64(e, n) + rest) == Got(n, rest)
  {
    Widths();
    DecUintOfEnc(e, 8, Unsigned(0x1_0000_0000_0000_0000, n as int), rest);
  }

  lemma BoolRoundTrip(b: bool, rest: Bytes)
    ensures DecBool(EncBool(b) + rest) == Got(b, rest)
  {
  }

  lemma Assoc(a: Bytes, b: Bytes, c: Bytes)
    ensures (a + b) + c == a + (b + c)
  {
  }

  // ---- vectors ----------------------------------------------------------------------

  /** `len as i32`: the low 32 bits. */
  function AsI32(n: nat): i32 {
    Signed(0x1_0000_0000, n % 0x1_0000_0000) as i32
  }

  function EncItems<T>(enc: T -> Bytes, xs: seq<T>): Bytes {
    if xs == [] then [] else EncItems(enc, xs[..|xs| - 1]) + enc(xs[|xs| - 1])
  }

  function EncVec<T>(e: Endian, enc: T -> Bytes, xs: seq<T>): Bytes {
    EncI32(e, AsI32(|xs|)) + EncItems(enc, xs)
  }

  function DecItems<T>(dec: Bytes -> Parse<T>, n: nat, s: Bytes): Parse<seq<T>> {
    if n == 0 then Got([], s)
    else match DecItems(dec, n - 1, s)
      case Fail => Fail
      case Got(init, rest) =>
        (match dec(rest)
         case Fail => Fail
         case Got(x, rest') => Got(init + [x], rest'))
  }

  /** A negative length asks for more capacity than there is, which panics. */
  function DecVec<T>(e: Endian, dec: Bytes -> Parse<T>, s: Bytes): Parse<seq<T>> {
    match DecI32(e, s)
    case Fail => Fail
    case Got(len, rest) => if len < 0 then Fail else DecItems(dec, len as nat, rest)
  }

  ghost predicate RoundTrips<T(!new)>(enc: T -> Bytes, dec: Bytes -> Parse<T>, xs: seq<T>) {
    forall x, rest | x in xs :: dec(enc(x) + rest) == Got(x, rest)
  }

  lemma {:induction false} ItemsRoundTrip<T(!new)>(enc: T -> Bytes, dec: Bytes -> Parse<T>, xs: seq<T>, rest: Bytes)
    requires RoundTrips(enc, dec, xs)
    ensures DecItems(dec, |xs|, EncItems(enc, xs) + rest) == Got(xs, rest)
  {
    if xs == [] {
      assert [] + rest == rest;
    } else {
      var init, last := xs[..|xs| - 1], xs[|xs| - 1];
      assert RoundTrips(enc, dec, init);
      ItemsRoundTrip(enc, dec, init, enc(last) + rest);
      assert EncItems(enc, xs) + rest == EncItems(enc, init) + (enc(last) + rest);
      assert last in xs;
      assert init + [last] == xs;
    }
  }

  lemma PrefixRead<T>(e: Endian, enc: T -> Bytes, xs: seq<T>, rest: Bytes)
    ensures DecI32(e, EncVec(e, enc, xs) + rest) == Got(AsI32(|xs|), EncItems(enc, xs) + rest)
  {
    hide EncI32, DecI32, AsI32, EncItems;
    I32RoundTrip(e, AsI32(|xs|), EncItems(enc, xs) + rest);
    Assoc(EncI32(e, AsI32(|xs|)), EncItems(enc, xs), rest);
  }

  lemma AsI32Range(n: nat)
    ensures n < 0x8000_0000 ==> AsI32(n) as int == n
    ensures n >= 0x8000_0000 ==> AsI32(n) < 0 || AsI32(n) as int < n
  {
  }

  lemma VecRoundTrip<T(!new)>(e: Endian, enc: T -> Bytes, dec: Bytes -> Parse<T>, xs: seq<T>, rest: Bytes)
    requires RoundTrips(enc, dec, xs) && |xs| < 0x8000_0000
    ensures DecVec(e, dec, EncVec(e, enc, xs) + rest) == Got(xs, rest)
  {
    hide EncVec, DecI32, AsI32;
    PrefixRead(e, enc, xs, rest);
    AsI32Range(|xs|);
    ItemsRoundTrip(enc, dec, xs, rest);
  }

  lemma {:induction false} DecItemsLength<T>(dec: Bytes -> Parse<T>, n: nat, s: Bytes)
    ensures DecItems(dec, n, s).Got? ==> |DecItems(dec, n, s).value| == n
  {
    if n > 0 {
      DecItemsLength(dec, n - 1, s);
    }
  }

  /** The length prefix is what limits a vector: it survives the trip if and only if its length
      fits an i32. */
  lemma {:induction false} VecRoundTripsExactly<T(!new)>(e: Endian, enc: T -> Bytes, dec: Bytes -> Parse<T>, xs: seq<T>, rest: Bytes)
    requires RoundTrips(enc, dec, xs)
    ensures DecVec(e, dec, EncVec(e, enc, xs) + rest) == Got(xs, rest) <==> |xs| < 0x8000_0000
  {
    hide EncVec, DecI32, AsI32, EncItems;
    AsI32Range(|xs|);
    if |xs| < 0x8000_0000 {
      VecRoundTrip(e, enc, dec, xs, rest);
    } else {
      PrefixRead(e, enc, xs, rest);
      if AsI32(|xs|) >= 0 {
        DecItemsLength(dec, AsI32(|xs|) as nat, EncItems(enc, xs) + rest);
      }
    }
  }

  lemma {:induction false} ItemsFailOn<T>(dec: Bytes -> Parse<T>, k: nat, n: nat, s: Bytes)
    requires DecItems(dec, k, s).Fail? && k <= n
    ensures DecItems(dec, n, s).Fail?
    decreases n
  {
    if k < n {
      ItemsFailOn(dec, k, n - 1, s);
    }
  }

  // ---- strings and options ----------------------------------------------------------

  predicate Sendable(s: Str) {
    Utf8.Valid(s) && |s| < 0x8000_0000
  }

  function EncByte(b: byte): Bytes { [b] }

  function EncStr(e: Endian, s: Str): Bytes {
    EncVec(e, EncByte, s)
  }

  /** Bytes that are not UTF-8 panic. */
  function DecStr(e: Endian, s: Bytes): Parse<Str> {
    match DecVec(e, DecU8, s)
    case Fail => Fail
    case Got(inner, rest) => if Utf8.Valid(inner) then Got(inner, rest) else Fail
  }

  lemma {:induction false} StrRoundTrip(e: Endian, s: Str, rest: Bytes)
    requires Sendable(s)
    ensures DecStr(e, EncStr(e, s) + rest) == Got(s, rest)
  {
    forall b, r | b in s ensures DecU8(EncByte(b) + r) == Got(b, r) {
    }
    VecRoundTrip(e, EncByte, DecU8, s, rest);
  }

  function EncOption(e: Endian, o: Option<Str>): Bytes {
    EncBool(o.Some?) + if o.Some? then EncStr(e, o.value) else []
  }

  function DecOption(e: Endian, s: Bytes): Parse<Option<Str>> {
    match DecBool(s)
    case Fail => Fail
    case Got(some, rest) =>
      if !some then Got(None, rest)
      else match DecStr(e, rest)
        case Fail => Fail
        case Got(v, rest') => Got(Some(v), rest')
  }

  lemma {:induction false} OptionRoundTrip(e: Endian, o: Option<Str>, rest: Bytes)
    requires o.Some? ==> Sendable(o.value)
    ensures DecOption(e, EncOption(e, o) + rest) == Got(o, rest)
  {
    if o.Some? {
      StrRoundTrip(e, o.value, rest);
      assert EncOption(e, o) + rest == [1] + (EncStr(e, o.value) + rest);
    } else {
      assert EncOption(e, o) + rest == [0] + rest;
    }
  }

  // ---- structs ----------------------------------------------------------------------

  function PhaseIndex(p: SendPhase): i32 {
    match p
    case WaitingApproval => 0
    case Uploading => 1
    case Done => 2
    case Failed => 3
    case Canceled => 4
  }

  function DecPhase(e: Endian, s: Bytes): Parse<SendPhase> {
    match DecI32(e, s)
    case Fail => Fail
    case Got(n, rest) =>
      if n == 0 then Got(WaitingApproval, rest)
      else if n == 1 then Got(Uploading, rest)
      else if n == 2 then Got(Done, rest)
      else if n == 3 then Got(Failed, rest)
      else if n == 4 then Got(Canceled, rest)
      else Fail
  }

  lemma {:induction false} PhaseRoundTrip(e: Endian, p: SendPhase, rest: Bytes)
    ensures DecPhase(e, EncI32(e, PhaseIndex(p)) + rest) == Got(p, rest)
  {
    I32RoundTrip(e, PhaseIndex(p), rest);
  }

  /** Sequencing of two decoders. */
  function Then<A, B>(p: Parse<A>, k: (A, Bytes) -> Parse<B>): Parse<B> {
    match p
    case Fail => Fail
    case Got(v, rest) => k(v, rest)
  }

  function EncSendEvent(e: Endian, x: SendEvent): Bytes {
    EncI32(e, PhaseIndex(x.phase)) + (EncU32(e, x.fileIndex) + (EncU32(e, x.fileCount) + (EncStr(e, x.fileName) +
    (EncI64(e, x.sentBytes) + (EncI64(e, x.totalBytes) + EncOption(e, x.message))))))
  }

  function DecSendEvent(e: Endian, s: Bytes): Parse<SendEvent> {
    Then(DecPhase(e, s), (phase: SendPhase, s1: Bytes) =>
    Then(DecU32(e, s1), (index: u32, s2: Bytes) =>
    Then(DecU32(e, s2), (count: u32, s3: Bytes) =>
    Then(DecStr(e, s3), (name: Str, s4: Bytes) =>
    Then(DecI64(e, s4), (sent: i64, s5: Bytes) =>
    Then(DecI64(e, s5), (total: i64, s6: Bytes) =>
    Then(DecOption(e, s6), (message: Option<Str>, s7: Bytes) =>
      Got(SendEvent(phase, index, count, name, sent, total, message), s7))))))))
  }

  lemma {:induction false} SendEventRoundTrip(e: Endian, x: SendEvent, rest: Bytes)
    requires Sendable(x.fileName) && (x.message.Some? ==> Sendable(x.message.value))
    ensures DecSendEvent(e, EncSendEvent(e, x) + rest) == Got(x, rest)
  {
    hide EncI32, EncU32, EncStr, EncI64, EncOption, DecPhase, DecU32, DecStr, DecI64, DecOption;
    var s6 := EncOption(e, x.message) + rest;
    var s5 := EncI64(e, x.totalBytes) + s6;
    var s4 := EncI64(e, x.sentBytes) + s5;
    var s3 := EncStr(e, x.fileName) + s4;
    var s2 := EncU32(e, x.fileCount) + s3;
    var s1 := EncU32(e, x.fileIndex) + s2;
    assert EncSendEvent(e, x) + rest == EncI32(e, PhaseIndex(x.phase)) + s1;
    PhaseRoundTrip(e, x.phase, s1);
    U32RoundTrip(e, x.fileIndex, s2);
    U32RoundTrip(e, x.fileCount, s3);
    StrRoundTrip(e, x.fileName, s4);
    I64RoundTrip(e, x.sentBytes, s5);
    I64RoundTrip(e, x.totalBytes, s6);
    OptionRoundTrip(e, x.message, rest);
  }

  function EncFileItem(e: Endian, x: FileItem): Bytes {
    EncStr(e, x.id) + (EncStr(e, x.name) + EncI64(e, x.size))
  }

  function DecFileItem(e: Endian, s: Bytes): Parse<FileItem> {
    Then(DecStr(e, s), (id: Str, s1: Bytes) =>
    Then(DecStr(e, s1), (name: Str, s2: Bytes) =>
    Then(DecI64(e, s2), (size: i64, s3: Bytes) =>
      Got(FileItem(id, name, size), s3))))
  }

  predicate ItemSendable(x: FileItem) {
    Sendable(x.id) && Sendable(x.name)
  }

  lemma FileItemRoundTrip(e: Endian, x: FileItem, rest: Bytes)
    requires ItemSendable(x)
    ensures DecFileItem(e, EncFileItem(e, x) + rest) == Got(x, rest)
  {
    hide EncStr, EncI64, DecStr, DecI64;
    var s2 := EncI64(e, x.size) + rest;
    var s1 := EncStr(e, x.name) + s2;
    assert EncFileItem(e, x) + rest == EncStr(e, x.id) + s1;
    StrRoundTrip(e, x.id, s1);
    StrRoundTrip(e, x.name, s2);
    I64RoundTrip(e, x.size, rest);
  }

  function FileItemEncoder(e: Endian): FileItem -> Bytes {
    (x: FileItem) => EncFileItem(e, x)
  }

  function FileItemDecoder(e: Endian): Bytes -> Parse<FileItem> {
    (s: Bytes) => DecFileItem(e, s)
  }

  function EncFiles(e: Endian, xs: seq<FileItem>): Bytes {
    EncVec(e, FileItemEncoder(e), xs)
  }

  function DecFiles(e: Endian, s: Bytes): Parse<seq<FileItem>> {
    DecVec(e, FileItemDecoder(e), s)
  }

  lemma {:induction false} FilesRoundTrip(e: Endian, xs: seq<FileItem>, rest: Bytes)
    requires |xs| < 0x8000_0000 && forall x | x in xs :: ItemSendable(x)
    ensures DecFiles(e, EncFiles(e, xs) + rest) == Got(xs, rest)
  {
    var enc, dec := FileItemEncoder(e), FileItemDecoder(e);
    forall x, r | x in xs ensures dec(enc(x) + r) == Got(x, r) {
      FileItemRoundTrip(e, x, r);
    }
    VecRoundTrip(e, enc, dec, xs, rest);
  }

  function EncApproval(e: Endian, x: ApprovalRequest): Bytes {
    EncStr(e, x.senderAlias) + (EncStr(e, x.senderFingerprint) + (EncBool(x.isNewDevice) + EncFiles(e, x.files)))
  }

  function DecApproval(e: Endian, s: Bytes): Parse<ApprovalRequest> {
    Then(DecStr(e, s), (alias: Str, s1: Bytes) =>
    Then(DecStr(e, s1), (fingerprint: Str, s2: Bytes) =>
    Then(DecBool(s2), (isNew: bool, s3: Bytes) =>
    Then(DecFiles(e, s3), (files: seq<FileItem>, s4: Bytes) =>
      Got(ApprovalRequest(alias, fingerprint, isNew, files), s4)))))
  }

  /** An approval request, with its vector of structs inside. */
  lemma {:induction false} ApprovalRoundTrip(e: Endian, x: ApprovalRequest, rest: Bytes)
    requires Sendable(x.senderAlias) && Sendable(x.senderFingerprint)
    requires |x.files| < 0x8000_0000 && forall f | f in x.files :: ItemSendable(f)
    ensures DecApproval(e, EncApproval(e, x) + rest) == Got(x, rest)
  {
    hide EncStr, DecStr, EncFiles, DecFiles, DecBool, EncBool;
    var s3 := EncFiles(e, x.files) + rest;
    var s2 := EncBool(x.isNewDevice) + s3;
    var s1 := EncStr(e, x.senderFingerprint) + s2;
    assert EncApproval(e, x) + rest == EncStr(e, x.senderAlias) + s1;
    StrRoundTrip(e, x.senderAlias, s1);
    StrRoundTrip(e, x.senderFingerprint, s2);
    BoolRoundTrip(x.isNewDevice, s3);
    FilesRoundTrip(e, x.files, rest);
  }

  function EncSnapshot(e: Endian, x: DeviceSnapshot): Bytes {
    EncStr(e, x.alias) + (EncStr(e, x.deviceType) + (EncStr(e, x.fingerprint) + (EncStr(e, x.ip) + EncU16(e, x.port))))
  }

  function DecSnapshot(e: Endian, s: Bytes): Parse<DeviceSnapshot> {
    Then(DecStr(e, s), (alias: Str, s1: Bytes) =>
    Then(DecStr(e, s1), (deviceType: Str, s2: Bytes) =>
    Then(DecStr(e, s2), (fingerprint: Str, s3: Bytes) =>
    Then(DecStr(e, s3), (ip: Str, s4: Bytes) =>
    Then(DecU16(e, s4), (port: u16, s5: Bytes) =>
      Got(DeviceSnapshot(alias, deviceType, fingerprint, ip, port), s5))))))
  }

  predicate SnapshotSendable(x: DeviceSnapshot) {
    Sendable(x.alias) && Sendable(x.deviceType) && Sendable(x.fingerprint) && Sendable(x.ip)
  }

  lemma SnapshotRoundTrip(e: Endian, x: DeviceSnapshot, rest: Bytes)
    requires SnapshotSendable(x)
    ensures DecSnapshot(e, EncSnapshot(e, x) + rest) == Got(x, rest)
  {
    hide EncStr, DecStr, EncU16, DecU16;
    var s4 := EncU16(e, x.port) + rest;
    var s3 := EncStr(e, x.ip) + s4;
    var s2 := EncStr(e, x.fingerprint) + s3;
    var s1 := EncStr(e, x.deviceType) + s2;
    assert EncSnapshot(e, x) + rest == EncStr(e, x.alias) + s1;
    StrRoundTrip(e, x.alias, s1);
    StrRoundTrip(e, x.deviceType, s2);
    StrRoundTrip(e, x.fingerprint, s3);
    StrRoundTrip(e, x.ip, s4);
    U16RoundTrip(e, x.port, rest);
  }

  function SnapshotEncoder(e: Endian): DeviceSnapshot -> Bytes {
    (x: DeviceSnapshot) => EncSnapshot(e, x)
  }

  function SnapshotDecoder(e: Endian): Bytes -> Parse<DeviceSnapshot> {
    (s: Bytes) => DecSnapshot(e, s)
  }

  function EncSnapshots(e: Endian, xs: seq<DeviceSnapshot>): Bytes {
    EncVec(e, SnapshotEncoder(e), xs)
  }

  function DecSnapshots(e: Endian, s: Bytes): Parse<seq<DeviceSnapshot>> {
    DecVec(e, SnapshotDecoder(e), s)
  }

  /** The device list as the app receives it. */
  lemma {:induction false} SnapshotsRoundTrip(e: Endian, xs: seq<DeviceSnapshot>, rest: Bytes)
    requires |xs| < 0x8000_0000 && forall x | x in xs :: SnapshotSendable(x)
    ensures DecSnapshots(e, EncSnapshots(e, xs) + rest) == Got(xs, rest)
  {
    var enc, dec := SnapshotEncoder(e), SnapshotDecoder(e);
    forall x, r | x in xs ensures dec(enc(x) + r) == Got(x, r) {
      SnapshotRoundTrip(e, x, r);
    }
    VecRoundTrip(e, enc, dec, xs, rest);
  }
}
