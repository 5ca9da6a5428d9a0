/** Decimal numerals, the byte-wise string order, and a stable sort by a string key:
    the pieces of text handling that the other modules share. */
module Text {

  // ---- decimal numerals -------------------------------------------------------------

  function Digit(d: nat): (c: char)
    requires d < 10
    ensures '0' <= c <= '9'
  {
    '0' + d as char
  }

  /** The shortest decimal numeral of `n`, as string formatting prints it. */
  function Decimal(n: nat): (s: string)
    ensures s != []
    ensures n > 0 ==> s[0] != '0'
    ensures forall k | 0 <= k < |s| :: '0' <= s[k] <= '9'
  {
    if n < 10 then [Digit(n)] else Decimal(n / 10) + [Digit(n % 10)]
  }

  /** The number a string of digits denotes. */
  function Value(s: string): nat
    requires forall k | 0 <= k < |s| :: '0' <= s[k] <= '9'
  {
    if s == [] then 0 else 10 * Value(s[..|s| - 1]) + (s[|s| - 1] as int - '0' as int)
  }

  lemma {:induction false} ValueOfDecimal(n: nat)
    ensures Value(Decimal(n)) == n
  {
    var s := Decimal(n);
    if n < 10 {
      assert s[..0] == [];
    } else {
      ValueOfDecimal(n / 10);
      assert s[..|s| - 1] == Decimal(n / 10);
    }
  }

  lemma DecimalInjective(m: nat, n: nat)
    ensures Decimal(m) == Decimal(n) ==> m == n
  {
    ValueOfDecimal(m);
    ValueOfDecimal(n);
  }

  // ---- the order of strings ---------------------------------------------------------

  /** Lexicographic order by code point, the order `str::cmp` and Go's `<` both give. */
  predicate Le(a: string, b: string) {
    a == [] || (b != [] && (a[0] < b[0] || (a[0] == b[0] && Le(a[1..], b[1..]))))
  }

  lemma {:induction false} LeTotal(a: string, b: string)
    ensures Le(a, b) || Le(b, a)
  {
    if a != [] && b != [] && a[0] == b[0] {
      LeTotal(a[1..], b[1..]);
    }
  }

  lemma {:induction false} LeTransitive(a: string, b: string, c: string)
    requires Le(a, b) && Le(b, c)
    ensures Le(a, c)
  {
    if a != [] && a[0] == b[0] && b[0] == c[0] {
      LeTransitive(a[1..], b[1..], c[1..]);
    }
  }

  /** The order is decided at the first position where the two differ, by the smaller character;
      without one, the beginning of the other comes first. */
  lemma {:induction false} LeExactly(a: string, b: string)
    ensures Le(a, b) <==> a <= b || exists i :: 0 <= i < |a| && i < |b| && a[..i] == b[..i] && a[i] < b[i]
  {
    if a != [] && b != [] {
      var s, t := a[1..], b[1..];
      if a[0] == b[0] {
        LeExactly(s, t);
        assert a == [a[0]] + s && b == [b[0]] + t;
        if s <= t {
          assert a <= b;
        }
        if i :| 0 <= i < |s| && i < |t| && s[..i] == t[..i] && s[i] < t[i] {
          assert a[..i + 1] == [a[0]] + s[..i] == b[..i + 1];
          assert a[i + 1] < b[i + 1];
        }
        if i :| 0 <= i < |a| && i < |b| && a[..i] == b[..i] && a[i] < b[i] {
          assert s[..i - 1] == a[..i][1..] == b[..i][1..] == t[..i - 1];
          assert s[i - 1] < t[i - 1];
        }
      } else if a[0] < b[0] {
        assert a[..0] == b[..0];
      } else if i :| 0 <= i < |a| && i < |b| && a[..i] == b[..i] && a[i] < b[i] {
        if i > 0 { assert a[..i][0] == b[..i][0]; }
      }
    }
  }

  // ---- sorting by a key -------------------------------------------------------------

  ghost predicate SortedBy<T>(s: seq<T>, key: T -> string) {
    forall i, j | 0 <= i < j < |s| :: Le(key(s[i]), key(s[j]))
  }

  /** Inserts `x` before the first element whose key is at least its own. */
  function Insert<T>(x: T, s: seq<T>, key: T -> string): (r: seq<T>)
    ensures multiset(r) == multiset{x} + multiset(s)
  {
    if s == [] then [x]
    else if Le(key(x), key(s[0])) then [x] + s
    else
      assert s == [s[0]] + s[1..];
      [s[0]] + Insert(x, s[1..], key)
  }

  /** `list.sort_by(key)`: a stable sort of `s`. */
  function Sorted<T>(s: seq<T>, key: T -> string): (r: seq<T>)
    ensures multiset(r) == multiset(s)
  {
    if s == [] then []
    else
      assert s == [s[0]] + s[1..];
      Insert(s[0], Sorted(s[1..], key), key)
  }

  lemma {:induction false} InsertKeepsSorted<T>(x: T, s: seq<T>, key: T -> string)
    requires SortedBy(s, key)
    ensures SortedBy(Insert(x, s, key), key)
  {
    var r := Insert(x, s, key);
    if s == [] {
    } else if Le(key(x), key(s[0])) {
      forall i, j | 0 <= i < j < |r| ensures Le(key(r[i]), key(r[j])) {
        if i == 0 {
          if j > 1 { LeTransitive(key(x), key(s[0]), key(s[j - 1])); }
        } else {
          assert r[i] == s[i - 1] && r[j] == s[j - 1];
        }
      }
    } else {
      var t := Insert(x, s[1..], key);
      InsertKeepsSorted(x, s[1..], key);
      LeTotal(key(x), key(s[0]));
      hide Le;
      forall j | 0 <= j < |t| ensures Le(key(s[0]), key(t[j])) {
        InsertedFrom(x, s[1..], key, j);
      }
      assert forall j | 0 < j < |r| :: r[j] == t[j - 1];
    }
  }

  lemma InsertedFrom<T>(x: T, s: seq<T>, key: T -> string, j: nat)
    requires j < |Insert(x, s, key)|
    ensures Insert(x, s, key)[j] == x || exists k :: 0 <= k < |s| && s[k] == Insert(x, s, key)[j]
  {
    var r := Insert(x, s, key);
    assert r[j] in multiset(r);
    assert r[j] == x || r[j] in s;
  }

  lemma {:induction false} SortedIsSorted<T>(s: seq<T>, key: T -> string)
    ensures SortedBy(Sorted(s, key), key)
  {
    if s != [] {
      SortedIsSorted(s[1..], key);
      InsertKeepsSorted(s[0], Sorted(s[1..], key), key);
    }
  }

  // ---- what a sort leaves open ------------------------------------------------------

  lemma {:induction false} LeAntisymmetric(a: string, b: string)
    requires Le(a, b) && Le(b, a)
    ensures a == b
  {
    if a != [] {
      LeAntisymmetric(a[1..], b[1..]);
    }
  }

  ghost function KeysOf<T>(s: seq<T>, key: T -> string): (keys: seq<string>)
    ensures |keys| == |s|
    ensures forall i | 0 <= i < |s| :: keys[i] == key(s[i])
  {
    seq(|s|, i requires 0 <= i < |s| => key(s[i]))
  }

  /** Two sorted arrangements of the same elements show the same keys in the same places; only
      elements with equal keys can trade places. */
  lemma {:induction false} SortedAlike<T>(a: seq<T>, b: seq<T>, key: T -> string)
    requires multiset(a) == multiset(b)
    requires SortedBy(a, key) && SortedBy(b, key)
    ensures KeysOf(a, key) == KeysOf(b, key)
    decreases |a|
  {
    hide Le, SortedBy;
    SameMultisetSameLength(a, b);
    if a != [] {
      assert a[0] in multiset(a) && b[0] in multiset(b);
      var j :| 0 <= j < |b| && b[j] == a[0];
      LeastKeys(a, b, j, key);
      var rest := b[..j] + b[j + 1..];
      WithoutOne(a, b, j);
      RestSorted(a, b, j, key);
      SortedAlike(a[1..], rest, key);
      forall k | 0 <= k < |b| ensures key(a[k]) == key(b[k]) {
        if k > 0 {
          assert key(a[k]) == KeysOf(a[1..], key)[k - 1] == key(rest[k - 1]);
          if k <= j {
            BetweenEqualKeys(b, key, k - 1, j);
            BetweenEqualKeys(b, key, k, j);
          }
        }
      }
    }
  }

  lemma SameMultisetSameLength<T>(a: seq<T>, b: seq<T>)
    requires multiset(a) == multiset(b)
    ensures |a| == |b|
  {
    assert |a| == |multiset(a)| == |multiset(b)| == |b|;
  }

  /** The first of each holds the least key. */
  lemma LeastKeys<T>(a: seq<T>, b: seq<T>, j: nat, key: T -> string)
    requires multiset(a) == multiset(b) && a != [] && j < |b| && b[j] == a[0]
    requires SortedBy(a, key) && SortedBy(b, key)
    ensures key(b[0]) == key(b[j])
  {
    assert b[0] in multiset(a);
    var i :| 0 <= i < |a| && a[i] == b[0];
    LeTotal(key(a[0]), key(a[0]));
    assert Le(key(a[0]), key(a[i])) && Le(key(b[0]), key(b[j]));
    LeAntisymmetric(key(a[0]), key(b[0]));
  }

  lemma WithoutOne<T>(a: seq<T>, b: seq<T>, j: nat)
    requires multiset(a) == multiset(b) && a != [] && j < |b| && b[j] == a[0]
    ensures multiset(a[1..]) == multiset(b[..j] + b[j + 1..])
  {
    assert b == b[..j] + [b[j]] + b[j + 1..];
    assert a == [a[0]] + a[1..];
    var rest := b[..j] + b[j + 1..];
    assert multiset(b) == multiset(b[..j]) + multiset{b[j]} + multiset(b[j + 1..]);
    assert multiset(rest) == multiset(b[..j]) + multiset(b[j + 1..]);
    assert multiset(a) == multiset{a[0]} + multiset(a[1..]);
    assert multiset(a[1..]) == multiset(a) - multiset{a[0]};
    assert multiset(rest) == multiset(b) - multiset{a[0]};
  }

  lemma RestSorted<T>(a: seq<T>, b: seq<T>, j: nat, key: T -> string)
    requires a != [] && j < |b| && SortedBy(a, key) && SortedBy(b, key)
    ensures SortedBy(a[1..], key) && SortedBy(b[..j] + b[j + 1..], key)
  {
    hide Le;
    var rest := b[..j] + b[j + 1..];
    forall m, n | 0 <= m < n < |a[1..]| ensures Le(key(a[1..][m]), key(a[1..][n])) {
      assert a[1..][m] == a[m + 1] && a[1..][n] == a[n + 1];
    }
    forall m, n | 0 <= m < n < |rest| ensures Le(key(rest[m]), key(rest[n])) {
      assert rest[m] == b[if m < j then m else m + 1];
      assert rest[n] == b[if n < j then n else n + 1];
    }
  }

  lemma BetweenEqualKeys<T>(s: seq<T>, key: T -> string, i: nat, j: nat)
    requires i <= j < |s| && SortedBy(s, key) && key(s[0]) == key(s[j])
    ensures key(s[i]) == key(s[j])
  {
    if 0 < i < j {
      LeAntisymmetric(key(s[i]), key(s[j]));
    }
  }
}
