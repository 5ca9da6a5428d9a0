/** The name a received file is stored under: the file-name component of what the
    sender asked for, numbered until it is free in the save folder. */
module Collision {
  import opened Text

  // ---- the name component -----------------------------------------------------------

  /** Position of the last `c` in `s`, or -1. */
  function LastIndex(s: string, c: char): (i: int)
    ensures -1 <= i < |s|
    ensures i >= 0 ==> s[i] == c
    ensures forall k | i < k < |s| :: s[k] != c
  {
    if s == [] then -1
    else if s[|s| - 1] == c then |s| - 1
    else LastIndex(s[..|s| - 1], c)
  }

  /** `Path::file_name` on a path with `/` separators: the last component, skipping empty
      and `.` ones; a path that ends in `..`, or has no component, has no file name. */
  function FileName(path: string): string
    decreases |path|
  {
    var slash := LastIndex(path, '/');
    var last := path[slash + 1..];
    if last == "" || last == "." then
      if slash >= 0 then FileName(path[..slash]) else "unnamed"
    else if last == ".." then "unnamed"
    else last
  }

  /** A name that denotes a direct child of the folder it is joined to. */
  predicate DirectChild(name: string) {
    name != "" && name != "." && name != ".." && '/' !in name
  }

  lemma {:induction false} FileNameIsDirectChild(path: string)
    ensures DirectChild(FileName(path))
    ensures DirectChild(path) ==> FileName(path) == path
    decreases |path|
  {
    var slash := LastIndex(path, '/');
    var last := path[slash + 1..];
    assert '/' !in last;
    if (last == "" || last == ".") && slash >= 0 {
      FileNameIsDirectChild(path[..slash]);
    }
    if DirectChild(path) {
      assert slash == -1;
      assert last == path;
    }
  }

  /** `filepath.Base`: trailing slashes go, then everything up to the last slash. */
  function GoBase(path: string): string
    decreases |path|
  {
    if path == "" then "."
    else if path[|path| - 1] == '/' then
      if |path| == 1 then "/" else GoBase(path[..|path| - 1])
    else path[LastIndex(path, '/') + 1..]
  }

  /** Where the two disagree on the name component, the second one's is no file name at all. */
  lemma {:induction false} BasesAgree(path: string)
    ensures GoBase(path) == FileName(path) <==> DirectChild(GoBase(path))
    ensures !DirectChild(GoBase(path)) ==> GoBase(path) == "." || GoBase(path) == ".." || GoBase(path) == "/"
    ensures GoBase(path) == ".." || GoBase(path) == "/" ==> FileName(path) == "unnamed"
    decreases |path|
  {
    FileNameIsDirectChild(path);
    if path != "" {
      var slash := LastIndex(path, '/');
      if path[|path| - 1] == '/' {
        assert slash == |path| - 1 && path[slash + 1..] == "";
        BasesAgree(path[..slash]);
        assert path[..0] == "";
      } else {
        assert '/' !in path[slash + 1..] && path[slash + 1..] != "";
      }
    }
  }

  /** What is read out of a path: the last component that is not empty and not a dot; nothing if
      that is two dots or there is none. The second implementation only skips trailing slashes. */
  lemma {:induction false} ComponentRead(dir: string, last: string)
    requires DirectChild(last)
    ensures FileName(dir + "/" + last) == last == GoBase(dir + "/" + last)
    ensures FileName(dir + "/") == FileName(dir) && FileName(dir + "/.") == FileName(dir)
    ensures FileName(dir + "/..") == FileName("") == "unnamed"
    ensures dir != "" ==> GoBase(dir + "/") == GoBase(dir)
    ensures GoBase(dir + "/.") == "." && GoBase(dir + "/..") == ".."
  {
    assert dir + "/" + "" == dir + "/" && dir + "/" + "." == dir + "/." && dir + "/" + ".." == dir + "/..";
    LastRead(dir, last);
    LastRead(dir, "");
    LastRead(dir, ".");
    LastRead(dir, "..");
    assert LastIndex("", '/') == -1;
    hide FileName, GoBase;
    assert FileName("") == "unnamed" by { NothingRead(); }
  }

  lemma NothingRead()
    ensures FileName("") == "unnamed"
  {
  }

  lemma LastRead(dir: string, last: string)
    requires '/' !in last
    ensures FileName(dir + "/" + last) ==
      if last == "" || last == "." then FileName(dir) else if last == ".." then "unnamed" else last
    ensures last != "" ==> GoBase(dir + "/" + last) == last
    ensures last == "" && dir != "" ==> GoBase(dir + "/" + last) == GoBase(dir)
  {
    LastSlash(dir, last);
    var path := dir + "/" + last;
    if last != "" {
      assert path[|path| - 1] == last[|last| - 1];
    } else {
      assert path[|path| - 1] == '/' && path[..|path| - 1] == dir;
    }
  }

  lemma LastSlash(dir: string, last: string)
    requires '/' !in last
    ensures var path := dir + "/" + last;
            LastIndex(path, '/') == |dir| && path[|dir| + 1..] == last && path[..|dir|] == dir
  {
    var path := dir + "/" + last;
    assert path[|dir|] == '/';
    forall k | |dir| < k < |path| ensures path[k] != '/' {
      assert path[k] == last[k - |dir| - 1];
    }
  }

  // ---- numbering --------------------------------------------------------------------

  function Stem(name: string): string {
    var dot := LastIndex(name, '.');
    if dot > 0 then name[..dot] else name
  }

  function Ext(name: string): string {
    var dot := LastIndex(name, '.');
    if dot > 0 then name[dot..] else ""
  }

  function GoExt(name: string): string {
    var dot := LastIndex(name, '.');
    if dot >= 0 then name[dot..] else ""
  }

  function GoStem(name: string): string {
    var dot := LastIndex(name, '.');
    if dot >= 0 then name[..dot] else name
  }

  lemma {:induction false} StemAndExt(name: string)
    ensures Stem(name) + Ext(name) == name
    ensures GoStem(name) + GoExt(name) == name
    ensures Ext(name) == GoExt(name) <==> LastIndex(name, '.') != 0
    ensures LastIndex(name, '.') == 0 ==> Stem(name) == name
  {
  }

  /** The `n`-th name tried: the name itself, then `stem (1)ext`, `stem (2)ext`, ... */
  function Candidate(stem: string, ext: string, n: nat): string {
    if n == 0 then stem + ext else stem + " (" + Decimal(n) + ")" + ext
  }

  lemma {:induction false} CandidateInjective(stem: string, ext: string, m: nat, n: nat)
    requires Candidate(stem, ext, m) == Candidate(stem, ext, n)
    ensures m == n
  {
    var a, b := Candidate(stem, ext, m), Candidate(stem, ext, n);
    if m != 0 && n != 0 {
      var i, j := |stem| + 2, |a| - |ext| - 1;
      assert a[i..j] == Decimal(m);
      assert b[i..j] == Decimal(n);
      DecimalInjective(m, n);
    }
  }

  /** The first `n` candidates. */
  ghost function Tried(stem: string, ext: string, n: nat): (r: set<string>)
    ensures forall x :: x in r <==> exists k | 0 <= k < n :: x == Candidate(stem, ext, k)
  {
    set k | 0 <= k < n :: Candidate(stem, ext, k)
  }

  lemma {:induction false} TriedCount(stem: string, ext: string, n: nat)
    ensures |Tried(stem, ext, n)| == n
    ensures Candidate(stem, ext, n) !in Tried(stem, ext, n)
  {
    var c := Candidate(stem, ext, n);
    if c in Tried(stem, ext, n) {
      var k :| 0 <= k < n && c == Candidate(stem, ext, k);
      CandidateInjective(stem, ext, k, n);
    }
    if n == 0 {
      assert Tried(stem, ext, 0) == {};
    } else {
      TriedCount(stem, ext, n - 1);
      assert Tried(stem, ext, n) == Tried(stem, ext, n - 1) + {Candidate(stem, ext, n - 1)};
    }
  }

  /** Candidates run out of taken names: each probe that hits uses up one name of `dir`. */
  lemma ProbeProgress(dir: set<string>, stem: string, ext: string, n: nat)
    requires Candidate(stem, ext, n) in dir
    ensures dir - Tried(stem, ext, n + 1) < dir - Tried(stem, ext, n)
  {
    TriedCount(stem, ext, n);
    assert Candidate(stem, ext, n) in Tried(stem, ext, n + 1);
  }

  /** The first candidate from the `n`-th on that `dir` does not hold. */
  function Probe(dir: set<string>, stem: string, ext: string, n: nat): (r: string)
    ensures r !in dir
    decreases dir - Tried(stem, ext, n)
  {
    var c := Candidate(stem, ext, n);
    if c in dir then
      ProbeProgress(dir, stem, ext, n);
      Probe(dir, stem, ext, n + 1)
    else c
  }

  /** `resolve_collision`. */
  function Resolve(dir: set<string>, name: string): string {
    Probe(dir, Stem(name), Ext(name), 0)
  }

  /** What is there already: the entries of the folder, and the directories that an empty name
      and the two dot names lead to. */
  function Present(dir: set<string>): set<string> {
    dir + {"", ".", ".."}
  }

  /** A base joined to the folder; the slash that stands for a path of slashes disappears. */
  function Joined(base: string): string {
    if base == "/" then "" else base
  }

  function GoResolve(dir: set<string>, base: string): string {
    Probe(Present(dir), GoStem(Joined(base)), GoExt(Joined(base)), 0)
  }

  lemma {:induction false} ProbeIsFirstFree(dir: set<string>, stem: string, ext: string, n: nat) returns (k: nat)
    requires forall i | 0 <= i < n :: Candidate(stem, ext, i) in dir
    ensures n <= k && Probe(dir, stem, ext, n) == Candidate(stem, ext, k)
    ensures forall i | 0 <= i < k :: Candidate(stem, ext, i) in dir
    decreases dir - Tried(stem, ext, n)
  {
    if Candidate(stem, ext, n) in dir {
      ProbeProgress(dir, stem, ext, n);
      k := ProbeIsFirstFree(dir, stem, ext, n + 1);
    } else {
      k := n;
    }
  }

  /** `name` was free, or it is `name` numbered `k` with every earlier number taken, and
      `k` is at most the number of files in the folder. */
  ghost predicate FirstFree(dir: set<string>, name: string, k: nat, path: string) {
    && k <= |dir|
    && path == Candidate(Stem(name), Ext(name), k)
    && path !in dir
    && forall i | 0 <= i < k :: Candidate(Stem(name), Ext(name), i) in dir
  }

  lemma {:induction false} ResolveIsFirstFree(dir: set<string>, name: string)
    ensures exists k: nat :: FirstFree(dir, name, k, Resolve(dir, name))
  {
    var stem, ext := Stem(name), Ext(name);
    var k := ProbeIsFirstFree(dir, stem, ext, 0);
    TriedCount(stem, ext, k);
    assert Tried(stem, ext, k) <= dir;
    CardinalityMonotone(Tried(stem, ext, k), dir);
    assert FirstFree(dir, name, k, Resolve(dir, name));
  }

  // ---- the text of the name ---------------------------------------------------------------

  /** `s` and `e` are the stem and the extension of `name`: the extension is what starts at its
      last dot, but not at one in first position. */
  ghost predicate IsSplit(name: string, s: string, e: string) {
    && name == s + e && (name != "" ==> s != "")
    && if e == "" then name != "" ==> '.' !in name[1..] else e[0] == '.' && '.' !in e[1..]
  }

  /** The same with a dot in first position counting. */
  ghost predicate IsGoSplit(name: string, s: string, e: string) {
    name == s + e && if e == "" then '.' !in name else e[0] == '.' && '.' !in e[1..]
  }

  /** The lowest number that is free in `dir`, between `s` and `e`. */
  ghost predicate IsNumbered(dir: set<string>, s: string, e: string, k: nat, path: string) {
    && 1 <= k && path == s + " (" + Decimal(k) + ")" + e && path !in dir
    && forall i: nat | 1 <= i < k :: s + " (" + Decimal(i) + ")" + e in dir
  }

  lemma SplitIs(name: string)
    ensures IsSplit(name, Stem(name), Ext(name))
    ensures IsGoSplit(name, GoStem(name), GoExt(name))
  {
    StemAndExt(name);
    var dot := LastIndex(name, '.');
    assert forall k | dot < k < |name| :: name[k] != '.';
  }

  /** A name that is free is kept; one that is taken gets the lowest free number, at most the
      number of files in the folder, before its extension. */
  lemma {:induction false} ResolveText(dir: set<string>, name: string)
    ensures name !in dir ==> Resolve(dir, name) == name
    ensures name in dir ==>
              exists s, e, k: nat :: IsSplit(name, s, e) && k <= |dir| && IsNumbered(dir, s, e, k, Resolve(dir, name))
  {
    StemAndExt(name);
    SplitIs(name);
    ResolveIsFirstFree(dir, name);
    if name in dir {
      var s, e := Stem(name), Ext(name);
      var k: nat :| FirstFree(dir, name, k, Resolve(dir, name));
      assert k != 0;
      assert forall i: nat | 1 <= i < k :: Candidate(s, e, i) == s + " (" + Decimal(i) + ")" + e;
      assert IsNumbered(dir, s, e, k, Resolve(dir, name));
    }
  }

  /** The same of the second implementation: a base that is a free file name is kept, any other
      is numbered by its own split. */
  lemma {:induction false} GoResolveText(dir: set<string>, base: string)
    ensures Joined(base) !in Present(dir) ==> GoResolve(dir, base) == Joined(base)
    ensures Joined(base) in Present(dir) ==>
              exists s, e, k: nat ::
                IsGoSplit(Joined(base), s, e) && k <= |Present(dir)| && IsNumbered(Present(dir), s, e, k, GoResolve(dir, base))
  {
    var name, present := Joined(base), Present(dir);
    var s, e := GoStem(name), GoExt(name);
    StemAndExt(name);
    SplitIs(name);
    var k := ProbeIsFirstFree(present, s, e, 0);
    if name in present {
      assert k != 0;
      TriedCount(s, e, k);
      CardinalityMonotone(Tried(s, e, k), present);
      assert forall i: nat | 1 <= i < k :: Candidate(s, e, i) == s + " (" + Decimal(i) + ")" + e;
      assert IsNumbered(present, s, e, k, GoResolve(dir, base));
    }
  }

  lemma {:induction false} CardinalityMonotone<T>(a: set<T>, b: set<T>)
    requires a <= b
    ensures |a| <= |b|
  {
    if x :| x in a {
      CardinalityMonotone(a - {x}, b - {x});
    }
  }

  /** The loop of `resolve_collision`; `probes` counts its existence checks. */
  method ResolveCollision(dir: set<string>, name: string) returns (candidate: string, probes: nat)
    ensures candidate == Resolve(dir, name)
    ensures 1 <= probes <= |dir| + 1
    ensures FirstFree(dir, name, probes - 1, candidate) && candidate !in dir
    ensures name !in dir ==> candidate == name
    ensures name in dir ==>
              exists s, e, k: nat :: IsSplit(name, s, e) && k <= |dir| && IsNumbered(dir, s, e, k, candidate)
  {
    ResolveText(dir, name);
    var dot := LastIndex(name, '.');
    var stem, ext := name, "";
    if dot > 0 {
      stem, ext := name[..dot], name[dot..];
    }
    StemAndExt(name);
    candidate := name;
    var n := 1;
    probes := 1;
    while candidate in dir
      invariant n >= 1 && probes == n
      invariant stem == Stem(name) && ext == Ext(name)
      invariant candidate == Candidate(stem, ext, n - 1)
      invariant AllTaken(dir, stem, ext, n - 1)
      decreases dir - Tried(stem, ext, n - 1)
    {
      ProbeProgress(dir, stem, ext, n - 1);
      candidate := stem + " (" + Decimal(n) + ")" + ext;
      n := n + 1;
      probes := probes + 1;
    }
    StopsAtFirstFree(dir, name, n - 1);
  }

  ghost predicate AllTaken(dir: set<string>, stem: string, ext: string, n: nat) {
    forall i | 0 <= i < n :: Candidate(stem, ext, i) in dir
  }

  lemma StopsAtFirstFree(dir: set<string>, name: string, n: nat)
    requires AllTaken(dir, Stem(name), Ext(name), n)
    requires Candidate(Stem(name), Ext(name), n) !in dir
    ensures FirstFree(dir, name, n, Candidate(Stem(name), Ext(name), n))
    ensures Resolve(dir, name) == Candidate(Stem(name), Ext(name), n)
  {
    ResolveIsFirstFree(dir, name);
    var k: nat :| FirstFree(dir, name, k, Resolve(dir, name));
    assert k == n;
  }

  /** Numbering never leads out of the folder. */
  lemma {:induction false} StoredNameIsDirectChild(dir: set<string>, path: string)
    ensures DirectChild(Resolve(dir, FileName(path)))
  {
    var name := FileName(path);
    FileNameIsDirectChild(path);
    ResolveIsFirstFree(dir, name);
    var k: nat :| FirstFree(dir, name, k, Resolve(dir, name));
    StemAndExt(name);
    CandidateIsDirectChild(Stem(name), Ext(name), k);
  }

  lemma CandidateIsDirectChild(stem: string, ext: string, k: nat)
    requires DirectChild(stem + ext)
    ensures DirectChild(Candidate(stem, ext, k))
  {
    assert forall c | c in stem :: c in stem + ext;
    assert forall c | c in ext :: c in stem + ext;
    if k > 0 {
      assert '/' !in Decimal(k);
      assert Candidate(stem, ext, k)[|stem|] == ' ';
    }
  }

  /** No candidate of a file name is one of the directories. */
  lemma {:induction false} ProbePresent(dir: set<string>, stem: string, ext: string, n: nat)
    requires DirectChild(stem + ext)
    ensures Probe(Present(dir), stem, ext, n) == Probe(dir, stem, ext, n)
    decreases dir - Tried(stem, ext, n)
  {
    CandidateIsDirectChild(stem, ext, n);
    if Candidate(stem, ext, n) in dir {
      ProbeProgress(dir, stem, ext, n);
      ProbePresent(dir, stem, ext, n + 1);
    }
  }

  /** For a file name, the two implementations choose the same path exactly when it is free or
      its last dot is not its first character. */
  lemma {:induction false} GoResolvesAlike(dir: set<string>, name: string)
    requires DirectChild(name)
    ensures GoResolve(dir, name) == Resolve(dir, name) <==> name !in dir || LastIndex(name, '.') != 0
  {
    StemAndExt(name);
    ProbePresent(dir, GoStem(name), GoExt(name), 0);
    if name in dir && LastIndex(name, '.') == 0 {
      var j := ProbeIsFirstFree(dir, Stem(name), Ext(name), 0);
      var k := ProbeIsFirstFree(dir, GoStem(name), GoExt(name), 0);
      assert Candidate(Stem(name), Ext(name), 0) == Candidate(GoStem(name), GoExt(name), 0) == name;
      assert j > 0 && k > 0;
      assert Candidate(Stem(name), Ext(name), j)[0] == '.';
      assert Candidate(GoStem(name), GoExt(name), k)[0] == ' ';
    }
  }

  // ---- any announced name --------------------------------------------------------------

  /** `name` is " (k)." with all smaller numbers taken. */
  ghost predicate NextOfDot(dir: set<string>, name: string) {
    exists k: nat :: 1 <= k && name == Candidate("", ".", k) && forall i | 1 <= i < k :: Candidate("", ".", i) in dir
  }

  /** When an upload is stored under the same path by both. Either they read the same file name
      out of it, and that is free or has no lone leading dot; or the path ends in a lone dot,
      which the second one numbers, and the name before it happens to be that number. */
  ghost predicate StoredAlike(dir: set<string>, path: string) {
    var name := FileName(path);
    if DirectChild(GoBase(path)) then name !in dir || LastIndex(name, '.') != 0
    else GoBase(path) == "." && name !in dir && NextOfDot(dir, name)
  }

  /** The search for a base that is no file name starts at the first number. */
  lemma NumberedBase(dir: set<string>, stem: string, ext: string) returns (k: nat)
    requires stem + ext in {"", ".", ".."}
    ensures 1 <= k && Probe(Present(dir), stem, ext, 0) == Candidate(stem, ext, k)
    ensures forall i | 1 <= i < k :: Candidate(stem, ext, i) in dir
    ensures Candidate(stem, ext, k) !in dir
  {
    assert Candidate(stem, ext, 0) in Present(dir);
    k := ProbeIsFirstFree(Present(dir), stem, ext, 0);
    forall i | 1 <= i < k ensures Candidate(stem, ext, i) in dir {
      assert |Candidate(stem, ext, i)| > 2;
    }
  }

  /** A number of the lone dot has a blank in first position only. */
  lemma BlankFirst(k: nat, i: nat)
    requires 1 <= k && i < |Candidate("", ".", k)|
    ensures Candidate("", ".", k)[i] == ' ' <==> i == 0
  {
    var d := Decimal(k);
    var c := Candidate("", ".", k);
    assert c == " (" + d + ")" + ".";
    if 2 <= i < 2 + |d| {
      assert c[i] == d[i - 2];
    }
  }

  lemma DotStoredAlike(dir: set<string>, name: string)
    requires DirectChild(name)
    ensures GoResolve(dir, ".") == Resolve(dir, name) <==> name !in dir && NextOfDot(dir, name)
  {
    assert "" + "." == "." && GoStem(".") == "" && GoExt(".") == ".";
    var k := NumberedBase(dir, "", ".");
    assert GoResolve(dir, ".") == Candidate("", ".", k);
    var stem, ext := Stem(name), Ext(name);
    StemAndExt(name);
    if GoResolve(dir, ".") == Resolve(dir, name) {
      var j := ProbeIsFirstFree(dir, stem, ext, 0);
      if j > 0 {
        assert stem != "" && Candidate(stem, ext, j)[|stem|] == ' ';
        BlankFirst(k, |stem|);
      }
    }
    if name !in dir && NextOfDot(dir, name) {
      var n: nat :| 1 <= n && name == Candidate("", ".", n) && forall i | 1 <= i < n :: Candidate("", ".", i) in dir;
      assert k == n;
    }
  }

  lemma OthersStoredApart(dir: set<string>, base: string)
    requires base == ".." || base == "/"
    ensures GoResolve(dir, base) != Resolve(dir, "unnamed")
  {
    var j := ProbeIsFirstFree(dir, "unnamed", "", 0);
    assert LastIndex("unnamed", '.') == -1;
    assert Candidate("unnamed", "", j)[0] == 'u';
    var stem := if base == ".." then "." else "";
    assert stem == GoStem(Joined(base)) && stem == GoExt(Joined(base));
    assert "." + "." == ".." && "" + "" == "";
    var k := NumberedBase(dir, stem, stem);
    assert Candidate(stem, stem, k)[0] == if base == ".." then '.' else ' ';
  }

  /** Whatever was announced, the two implementations store it under the same path if and only
      if that holds. */
  lemma {:induction false} StoredAlikeExactly(dir: set<string>, path: string)
    ensures GoResolve(dir, GoBase(path)) == Resolve(dir, FileName(path)) <==> StoredAlike(dir, path)
  {
    var base, name := GoBase(path), FileName(path);
    BasesAgree(path);
    FileNameIsDirectChild(path);
    if DirectChild(base) {
      GoResolvesAlike(dir, name);
    } else if base == "." {
      DotStoredAlike(dir, name);
    } else {
      OthersStoredApart(dir, base);
    }
  }
}
