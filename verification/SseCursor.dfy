/** The codec as the generated code runs it: a serializer that appends to its buffer and a
    deserializer that advances a cursor over one, with a loop per vector. */
module SseCursor {
  import opened Protocol
  import opened Api
  import opened Sse
  import Utf8

  class Serializer {
    const e: Endian
    var buffer: Bytes

    constructor (e: Endian)
      ensures this.e == e && buffer == []
    {
      this.e, buffer := e, [];
    }

    method Write(bytes: Bytes)
      modifies this
      ensures buffer == old(buffer) + bytes
    {
      buffer := buffer + bytes;
    }

    method WriteStr(s: Str)
      modifies this
      ensures buffer == old(buffer) + EncStr(e, s)
    {
      Write(EncI32(e, AsI32(|s|)));
      assert s[..0] == [];
      for i := 0 to |s|
        invariant buffer == old(buffer) + EncI32(e, AsI32(|s|)) + EncItems(EncByte, s[..i])
      {
        Write([s[i]]);
        assert s[..i + 1][..i] == s[..i];
      }
      assert s[..|s|] == s;
    }

    method WriteOption(o: Option<Str>)
      modifies this
      ensures buffer == old(buffer) + EncOption(e, o)
    {
      Write(EncBool(o.Some?));
      if o.Some? {
        WriteStr(o.value);
      }
    }

    method WriteSendEvent(x: SendEvent)
      modifies this
      ensures buffer == old(buffer) + EncSendEvent(e, x)
    {
      hide EncI32, EncU32, EncStr, EncI64, EncOption;
      Write(EncI32(e, PhaseIndex(x.phase)));
      Write(EncU32(e, x.fileIndex));
      Write(EncU32(e, x.fileCount));
      WriteStr(x.fileName);
      Write(EncI64(e, x.sentBytes));
      Write(EncI64(e, x.totalBytes));
      WriteOption(x.message);
    }

    method WriteFileItem(x: FileItem)
      modifies this
      ensures buffer == old(buffer) + EncFileItem(e, x)
    {
      WriteStr(x.id);
      WriteStr(x.name);
      Write(EncI64(e, x.size));
    }

    method WriteFiles(xs: seq<FileItem>)
      modifies this
      ensures buffer == old(buffer) + EncFiles(e, xs)
    {
      hide EncI32, EncFileItem, AsI32;
      Write(EncI32(e, AsI32(|xs|)));
      assert xs[..0] == [];
      for i := 0 to |xs|
        invariant buffer == old(buffer) + EncI32(e, AsI32(|xs|)) + EncItems(FileItemEncoder(e), xs[..i])
      {
        WriteFileItem(xs[i]);
        assert xs[..i + 1][..i] == xs[..i];
      }
      assert xs[..|xs|] == xs;
    }

    method WriteApproval(x: ApprovalRequest)
      modifies this
      ensures buffer == old(buffer) + EncApproval(e, x)
    {
      hide EncStr, EncFiles;
      WriteStr(x.senderAlias);
      WriteStr(x.senderFingerprint);
      Write(EncBool(x.isNewDevice));
      WriteFiles(x.files);
    }
  }

  class Deserializer {
    const e: Endian
    const data: Bytes
    var cursor: nat

    constructor (e: Endian, data: Bytes)
      ensures this.e == e && this.data == data && cursor == 0 && Rest() == data
    {
      this.e, this.data, cursor := e, data, 0;
      new;
      assert data[0..] == data;
    }

    function Rest(): Bytes
      reads this
    {
      if cursor <= |data| then data[cursor..] else []
    }

    /** What a decoding method returned, and where it left the cursor, is what `p` says. */
    ghost predicate Reads<T>(r: Option<T>, p: Parse<T>)
      reads this
    {
      match p
      case Fail => r.None?
      case Got(v, rest) => r == Some(v) && Rest() == rest
    }

    method ReadU8() returns (r: Option<byte>)
      modifies this
      ensures Reads(r, DecU8(old(Rest())))
    {
      if cursor >= |data| {
        return None;
      }
      r := Some(data[cursor]);
      cursor := cursor + 1;
    }

    method ReadBool() returns (r: Option<bool>)
      modifies this
      ensures Reads(r, DecBool(old(Rest())))
    {
      var b := ReadU8();
      r := if b.Some? then Some(b.value != 0) else None;
    }

    method Take(w: nat) returns (r: Option<Bytes>)
      modifies this
      ensures r.Some? <==> w <= |old(Rest())|
      ensures r.Some? ==> r.value == old(Rest())[..w] && Rest() == old(Rest())[w..]
    {
      if w > |Rest()| {
        return None;
      }
      if cursor > |data| {
        return Some([]);
      }
      r := Some(data[cursor..cursor + w]);
      cursor := cursor + w;
    }

    method ReadI32() returns (r: Option<i32>)
      modifies this
      ensures Reads(r, DecI32(e, old(Rest())))
    {
      var s := Take(4);
      if s.None? {
        return None;
      }
      UintBound(e, s.value);
      Widths();
      r := Some(Signed(0x1_0000_0000, UintOf(e, s.value)) as i32);
    }

    method ReadU32() returns (r: Option<u32>)
      modifies this
      ensures Reads(r, DecU32(e, old(Rest())))
    {
      var s := Take(4);
      if s.None? {
        return None;
      }
      UintBound(e, s.value);
      Widths();
      r := Some(UintOf(e, s.value) as u32);
    }

    method ReadI64() returns (r: Option<i64>)
      modifies this
      ensures Reads(r, DecI64(e, old(Rest())))
    {
      var s := Take(8);
      if s.None? {
        return None;
      }
      UintBound(e, s.value);
      Widths();
      r := Some(Signed(0x1_0000_0000_0000_0000, UintOf(e, s.value)) as i64);
    }

    method ReadBytes() returns (r: Option<Bytes>)
      modifies this
      ensures Reads(r, DecVec(e, DecU8, old(Rest())))
    {
      hide DecI32, DecU8;
      var len := ReadI32();
      if len.None? || len.value < 0 {
        return None;
      }
      ghost var start := Rest();
      var ans: Bytes := [];
      var n := len.value as nat;
      for idx := 0 to n
        invariant DecItems(DecU8, idx, start) == Got(ans, Rest())
      {
        var b := ReadU8();
        if b.None? {
          ItemsFailOn(DecU8, idx + 1, n, start);
          return None;
        }
        ans := ans + [b.value];
      }
      r := Some(ans);
    }

    method ReadStr() returns (r: Option<Str>)
      modifies this
      ensures Reads(r, DecStr(e, old(Rest())))
    {
      var inner := ReadBytes();
      if inner.None? || !Utf8.Valid(inner.value) {
        return None;
      }
      r := inner;
    }

    method ReadOption() returns (r: Option<Option<Str>>)
      modifies this
      ensures Reads(r, DecOption(e, old(Rest())))
    {
      hide DecStr, DecBool;
      var some := ReadBool();
      if some.None? {
        return None;
      }
      if !some.value {
        return Some(None);
      }
      var v := ReadStr();
      r := if v.Some? then Some(Some(v.value)) else None;
    }

    method ReadPhase() returns (r: Option<SendPhase>)
      modifies this
      ensures Reads(r, DecPhase(e, old(Rest())))
    {
      hide DecI32;
      var inner := ReadI32();
      if inner.None? {
        return None;
      }
      match inner.value {
        case 0 => r := Some(WaitingApproval);
        case 1 => r := Some(Uploading);
        case 2 => r := Some(Done);
        case 3 => r := Some(Failed);
        case 4 => r := Some(Canceled);
        case _ => r := None;
      }
    }

    method ReadSendEvent() returns (r: Option<SendEvent>)
      modifies this
      ensures Reads(r, DecSendEvent(e, old(Rest())))
    {
      hide DecPhase, DecU32, DecStr, DecI64, DecOption;
      var phase := ReadPhase();
      if phase.None? { return None; }
      var index := ReadU32();
      if index.None? { return None; }
      var count := ReadU32();
      if count.None? { return None; }
      var name := ReadStr();
      if name.None? { return None; }
      var sent := ReadI64();
      if sent.None? { return None; }
      var total := ReadI64();
      if total.None? { return None; }
      var message := ReadOption();
      if message.None? { return None; }
      r := Some(SendEvent(phase.value, index.value, count.value, name.value, sent.value, total.value, message.value));
    }

    method ReadFileItem() returns (r: Option<FileItem>)
      modifies this
      ensures Reads(r, DecFileItem(e, old(Rest())))
    {
      hide DecStr, DecI64;
      var id := ReadStr();
      if id.None? { return None; }
      var name := ReadStr();
      if name.None? { return None; }
      var size := ReadI64();
      if size.None? { return None; }
      r := Some(FileItem(id.value, name.value, size.value));
    }

    method ReadFiles() returns (r: Option<seq<FileItem>>)
      modifies this
      ensures Reads(r, DecFiles(e, old(Rest())))
    {
      hide DecI32, DecFileItem;
      var len := ReadI32();
      if len.None? || len.value < 0 {
        return None;
      }
      ghost var start := Rest();
      var ans: seq<FileItem> := [];
      var n := len.value as nat;
      for idx := 0 to n
        invariant DecItems(FileItemDecoder(e), idx, start) == Got(ans, Rest())
      {
        var x := ReadFileItem();
        if x.None? {
          ItemsFailOn(FileItemDecoder(e), idx + 1, n, start);
          return None;
        }
        ans := ans + [x.value];
      }
      r := Some(ans);
    }

    method ReadApproval() returns (r: Option<ApprovalRequest>)
      modifies this
      ensures Reads(r, DecApproval(e, old(Rest())))
    {
      hide DecStr, DecBool, DecFiles;
      var alias := ReadStr();
      if alias.None? { return None; }
      var fingerprint := ReadStr();
      if fingerprint.None? { return None; }
      var isNew := ReadBool();
      if isNew.None? { return None; }
      var files := ReadFiles();
      if files.None? { return None; }
      r := Some(ApprovalRequest(alias.value, fingerprint.value, isNew.value, files.value));
    }
  }

  /** One value across the boundary and whatever follows it: the reader gets the value back
      and stops exactly where it ended. */
  method SendOver(e: Endian, x: SendEvent, y: ApprovalRequest) returns (a: Option<SendEvent>, b: Option<ApprovalRequest>)
    requires Sendable(x.fileName) && (x.message.Some? ==> Sendable(x.message.value))
    requires Sendable(y.senderAlias) && Sendable(y.senderFingerprint)
    requires |y.files| < 0x8000_0000 && forall f | f in y.files :: ItemSendable(f)
    ensures a == Some(x) && b == Some(y)
  {
    hide EncSendEvent, EncApproval, DecSendEvent, DecApproval, Sendable, ItemSendable;
    var out := new Serializer(e);
    out.WriteSendEvent(x);
    out.WriteApproval(y);
    assert out.buffer == EncSendEvent(e, x) + EncApproval(e, y);
    var input := new Deserializer(e, out.buffer);
    SendEventRoundTrip(e, x, EncApproval(e, y));
    a := input.ReadSendEvent();
    assert EncApproval(e, y) + [] == EncApproval(e, y);
    ApprovalRoundTrip(e, y, []);
    b := input.ReadApproval();
  }
}
