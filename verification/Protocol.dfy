/** The schema both implementations share. */
module Protocol {

  /** Strings carry file ids, tokens and names; file contents are bytes. */
  newtype byte = x: int | 0 <= x < 256
  type Bytes = seq<byte>

  datatype Option<T> = None | Some(value: T)

  /** What pieces of these sizes come to. */
  function Sum(sizes: seq<nat>): nat {
    if sizes == [] then 0 else Sum(sizes[..|sizes| - 1]) + sizes[|sizes| - 1]
  }

  lemma {:induction false} SumFromFront(sizes: seq<nat>)
    requires sizes != []
    ensures Sum(sizes) == sizes[0] + Sum(sizes[1..])
  {
    var init := sizes[..|sizes| - 1];
    if init != [] {
      SumFromFront(init);
      assert sizes[1..][..|sizes| - 2] == init[1..];
    }
  }

  datatype PeerInfo = PeerInfo(alias: string, deviceType: string, fingerprint: string, port: nat)

  datatype FileMeta = FileMeta(name: string, size: nat, mime: string)

  /** A parsed prepare-upload request. */
  datatype Prepare = Prepare(info: PeerInfo, files: map<string, FileMeta>)

  datatype Announcement = Announcement(app: string, version: string, info: PeerInfo, announce: bool)

  const APP := "easy-send"
  const VERSION := "1.0"

  /** Text before the first dot. */
  function MajorOf(version: string): string {
    if version == "" || version[0] == '.' then "" else [version[0]] + MajorOf(version[1..])
  }

  predicate Compatible(ann: Announcement) {
    ann.app == APP && MajorOf(ann.version) == MajorOf(VERSION)
  }

  /** The announcements that count are this application's, of any version "1" or "1.something". */
  lemma {:induction false} CompatibleExactly(ann: Announcement)
    ensures Compatible(ann) <==>
            ann.app == "easy-send" && (ann.version == "1" || (|ann.version| >= 2 && ann.version[..2] == "1."))
  {
    var v := ann.version;
    assert MajorOf(VERSION) == "1" by {
      assert VERSION[1..] == ".0";
    }
    if v != "" && v[0] != '.' {
      assert v == [v[0]] + v[1..];
      MajorEmpty(v[1..]);
      if v[0] == '1' && v[1..] != "" && v[1] == '.' {
        assert v[..2] == "1.";
      }
    }
  }

  lemma MajorEmpty(version: string)
    ensures MajorOf(version) == "" <==> version == "" || version[0] == '.'
  {
  }
}
