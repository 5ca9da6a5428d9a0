/** The bytes themselves: where each field of a value stands in its encoding, and how wide it is. */
module SseLayout {
  import opened Protocol
  import opened Api
  import opened Sse

  /** The two byte orders on two bytes; longer numbers nest them. */
  lemma {:induction false} ByteOrder(a: byte, b: byte)
    ensures UintOf(Little, [a, b]) == a as nat + 256 * b as nat
    ensures UintOf(Big, [a, b]) == 256 * a as nat + b as nat
  {
    var none: Bytes := [];
    assert [a, b][1..] == [b] && [b][1..] == none && [a, b][..1] == [a] && [a][..0] == none;
    assert UintOf(Little, none) == 0 && UintOf(Big, none) == 0;
    assert UintOf(Little, [b]) == b as nat && UintOf(Big, [a]) == a as nat;
  }

  /** Four bytes that hold `n`. */
  predicate Holds4(e: Endian, s: Bytes, n: int) {
    |s| == 4 && UintOf(e, s) == n
  }

  /** Eight bytes that hold `n` in two's complement. */
  predicate Holds8(e: Endian, s: Bytes, n: int) {
    |s| == 8 && UintOf(e, s) == if n < 0 then n + 0x1_0000_0000_0000_0000 else n
  }

  lemma U32Bytes(e: Endian, n: u32)
    ensures Holds4(e, EncU32(e, n), n as int)
  {
    Widths();
    UintRoundTrip(e, 4, n as nat);
  }

  lemma I32Bytes(e: Endian, n: i32)
    requires n >= 0
    ensures Holds4(e, EncI32(e, n), n as int)
  {
    Widths();
    UintRoundTrip(e, 4, n as nat);
  }

  lemma I64Bytes(e: Endian, n: i64)
    ensures Holds8(e, EncI64(e, n), n as int)
  {
    Widths();
    UintRoundTrip(e, 8, Unsigned(0x1_0000_0000_0000_0000, n as int));
  }

  lemma {:induction false} ByteItems(s: Bytes)
    ensures EncItems(EncByte, s) == s
  {
    if s != [] {
      ByteItems(s[..|s| - 1]);
    }
  }

  /** A string is its length in four bytes and then its own bytes. */
  lemma {:induction false} StrLayout(e: Endian, s: Str) returns (len: Bytes)
    requires |s| < 0x8000_0000
    ensures EncStr(e, s) == len + s && Holds4(e, len, |s|)
  {
    len := EncI32(e, AsI32(|s|));
    AsI32Range(|s|);
    I32Bytes(e, AsI32(|s|));
    ByteItems(s);
  }

  /** The event: phase by its index, file index and file count in four bytes each, name, bytes sent
      and bytes in all in eight, and a flag before the message. */
  lemma {:induction false} SendEventLayout(e: Endian, x: SendEvent)
      returns (phase: Bytes, index: Bytes, count: Bytes, len: Bytes, sent: Bytes, total: Bytes, message: Bytes)
    requires |x.fileName| < 0x8000_0000
    ensures EncSendEvent(e, x) == phase + index + count + len + x.fileName + sent + total + message
    ensures Holds4(e, phase, match x.phase
                             case WaitingApproval => 0
                             case Uploading => 1
                             case Done => 2
                             case Failed => 3
                             case Canceled => 4)
    ensures Holds4(e, index, x.fileIndex as int) && Holds4(e, count, x.fileCount as int) && Holds4(e, len, |x.fileName|)
    ensures Holds8(e, sent, x.sentBytes as int) && Holds8(e, total, x.totalBytes as int)
    ensures message == if x.message.Some? then [1] + EncStr(e, x.message.value) else [0]
  {
    hide EncStr, Holds4, Holds8, EncU32, EncI32, EncI64;
    phase, index, count := EncI32(e, PhaseIndex(x.phase)), EncU32(e, x.fileIndex), EncU32(e, x.fileCount);
    sent, total, message := EncI64(e, x.sentBytes), EncI64(e, x.totalBytes), EncOption(e, x.message);
    I32Bytes(e, PhaseIndex(x.phase));
    U32Bytes(e, x.fileIndex);
    U32Bytes(e, x.fileCount);
    I64Bytes(e, x.sentBytes);
    I64Bytes(e, x.totalBytes);
    len := StrLayout(e, x.fileName);
  }

  lemma {:induction false} FileItemLayout(e: Endian, x: FileItem) returns (idLen: Bytes, nameLen: Bytes, size: Bytes)
    requires |x.id| < 0x8000_0000 && |x.name| < 0x8000_0000
    ensures EncFileItem(e, x) == idLen + x.id + nameLen + x.name + size
    ensures Holds4(e, idLen, |x.id|) && Holds4(e, nameLen, |x.name|) && Holds8(e, size, x.size as int)
  {
    hide EncStr, Holds4, Holds8;
    idLen := StrLayout(e, x.id);
    nameLen := StrLayout(e, x.name);
    size := EncI64(e, x.size);
    I64Bytes(e, x.size);
  }

  /** The request: alias, fingerprint, one byte for a new device, and the items behind their number. */
  lemma {:induction false} ApprovalLayout(e: Endian, x: ApprovalRequest)
      returns (aliasLen: Bytes, fpLen: Bytes, number: Bytes, items: Bytes)
    requires |x.senderAlias| < 0x8000_0000 && |x.senderFingerprint| < 0x8000_0000 && |x.files| < 0x8000_0000
    ensures EncApproval(e, x) ==
            aliasLen + x.senderAlias + fpLen + x.senderFingerprint + [if x.isNewDevice then 1 else 0] + number + items
    ensures Holds4(e, aliasLen, |x.senderAlias|) && Holds4(e, fpLen, |x.senderFingerprint|) && Holds4(e, number, |x.files|)
    ensures items == EncItems(FileItemEncoder(e), x.files)
  {
    hide EncStr, Holds4, EncI32;
    aliasLen := StrLayout(e, x.senderAlias);
    fpLen := StrLayout(e, x.senderFingerprint);
    AsI32Range(|x.files|);
    number, items := EncI32(e, AsI32(|x.files|)), EncItems(FileItemEncoder(e), x.files);
    I32Bytes(e, AsI32(|x.files|));
  }

  lemma {:induction false} SnapshotLayout(e: Endian, x: DeviceSnapshot)
      returns (aliasLen: Bytes, typeLen: Bytes, fpLen: Bytes, ipLen: Bytes, port: Bytes)
    requires |x.alias| < 0x8000_0000 && |x.deviceType| < 0x8000_0000
    requires |x.fingerprint| < 0x8000_0000 && |x.ip| < 0x8000_0000
    ensures EncSnapshot(e, x) ==
            aliasLen + x.alias + typeLen + x.deviceType + fpLen + x.fingerprint + ipLen + x.ip + port
    ensures Holds4(e, aliasLen, |x.alias|) && Holds4(e, typeLen, |x.deviceType|)
    ensures Holds4(e, fpLen, |x.fingerprint|) && Holds4(e, ipLen, |x.ip|)
    ensures |port| == 2 && UintOf(e, port) == x.port as nat
  {
    hide EncStr, Holds4;
    aliasLen := StrLayout(e, x.alias);
    typeLen := StrLayout(e, x.deviceType);
    fpLen := StrLayout(e, x.fingerprint);
    ipLen := StrLayout(e, x.ip);
    port := EncU16(e, x.port);
    Widths();
    UintRoundTrip(e, 2, x.port as nat);
  }
}
