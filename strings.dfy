/** Python `str` operations the core relies on: ordering, sorting by a key, substring tests and split/join. */
module Strings {

  /** Python's `a < b` on strings: lexicographic by code point, a proper prefix comes first. */
  predicate Less(a: string, b: string)
    decreases |a|
  {
    if |a| == 0 then |b| > 0
    else if |b| == 0 then false
    else if a[0] != b[0] then a[0] < b[0]
    else Less(a[1..], b[1..])
  }

  predicate LessEq(a: string, b: string) {
    a == b || Less(a, b)
  }

  /** Python's string order is total: of two different strings one is smaller. */
  lemma {:induction false} LessTotal(a: string, b: string)
    ensures a == b || Less(a, b) || Less(b, a)
    decreases |a|
  {
    if |a| > 0 && |b| > 0 && a[0] == b[0] {
      LessTotal(a[1..], b[1..]);
      if a[1..] == b[1..] {
        assert a == [a[0]] + a[1..] && b == [b[0]] + b[1..];
      }
    }
  }

  /** Each adjacent pair is in order by `key`: the result of Python's `sorted(.., key=key)`. */
  ghost predicate SortedBy<T>(s: seq<T>, key: T -> string) {
    forall i, j :: 0 <= i < j < |s| && j == i + 1 ==> LessEq(key(s[i]), key(s[j]))
  }

  /** Inserts `x` in front of the first element whose key is not smaller, keeping equal keys in arrival order. */
  function InsertBy<T>(x: T, s: seq<T>, key: T -> string): (r: seq<T>)
    requires SortedBy(s, key)
    ensures SortedBy(r, key)
    ensures multiset(r) == multiset(s) + multiset{x}
    ensures |r| == |s| + 1
    ensures r[0] == x || (|s| > 0 && r[0] == s[0])
  {
    if s == [] || LessEq(key(x), key(s[0])) then
      [x] + s
    else
      var rest := InsertBy(x, s[1..], key);
      LessTotal(key(x), key(s[0]));
      assert s == [s[0]] + s[1..];
      [s[0]] + rest
  }

  /** A stable insertion sort by `key`: sorted, and a permutation of the input. */
  function SortBy<T>(s: seq<T>, key: T -> string): (r: seq<T>)
    ensures SortedBy(r, key)
    ensures multiset(r) == multiset(s)
    ensures |r| == |s|
  {
    if s == [] then []
    else
      assert s == [s[0]] + s[1..];
      InsertBy(s[0], SortBy(s[1..], key), key)
  }

  /** The elements of `s` whose key is `k`, in order. */
  function KeyedAs<T>(s: seq<T>, key: T -> string, k: string): seq<T> {
    if s == [] then []
    else (if key(s[0]) == k then [s[0]] else []) + KeyedAs(s[1..], key, k)
  }

  /** Inserting `x` puts it before every element that has its key. */
  lemma {:induction false} InsertByKeyedAs<T>(x: T, s: seq<T>, key: T -> string, k: string)
    requires SortedBy(s, key)
    ensures KeyedAs(InsertBy(x, s, key), key, k) == (if key(x) == k then [x] else []) + KeyedAs(s, key, k)
  {
    if s != [] && !LessEq(key(x), key(s[0])) {
      assert SortedBy(s[1..], key) by {
        forall i, j | 0 <= i < j < |s[1..]| && j == i + 1
          ensures LessEq(key(s[1..][i]), key(s[1..][j]))
        {
          assert s[1..][i] == s[i + 1] && s[1..][j] == s[j + 1];
        }
      }
      InsertByKeyedAs(x, s[1..], key, k);
      var r := InsertBy(x, s, key);
      assert r[1..] == InsertBy(x, s[1..], key);
    }
  }

  /** `SortBy` is stable: the elements with any one key keep their input order. */
  lemma {:induction false} SortByStable<T>(s: seq<T>, key: T -> string, k: string)
    ensures KeyedAs(SortBy(s, key), key, k) == KeyedAs(s, key, k)
  {
    if s != [] {
      SortByStable(s[1..], key, k);
      InsertByKeyedAs(s[0], SortBy(s[1..], key), key, k);
    }
  }

  function Identity(s: string): string { s }

  /** `sorted(strings)`. */
  function SortStrings(s: seq<string>): (r: seq<string>)
    ensures SortedBy(r, Identity)
    ensures multiset(r) == multiset(s)
  {
    SortBy(s, Identity)
  }

  /** No element occurs twice, stated on the multiset so that permutations keep it. */
  predicate NoDuplicates<T(==)>(s: seq<T>) {
    forall x :: x in multiset(s) ==> multiset(s)[x] == 1
  }

  /** The distinct elements of `s` in order of first occurrence: the key order of a dict filled from `s`. */
  function Distinct(s: seq<string>): (r: seq<string>)
    ensures forall x :: x in r <==> x in s
  {
    if s == [] then []
    else
      var n := |s| - 1;
      assert s == s[..n] + [s[n]];
      var prior := Distinct(s[..n]);
      if s[n] in prior then prior else prior + [s[n]]
  }

  /** Each element of `Distinct(s)` occurs once. */
  lemma {:induction false} DistinctHasNoDuplicates(s: seq<string>)
    ensures NoDuplicates(Distinct(s))
  {
    if s != [] {
      var n := |s| - 1;
      DistinctHasNoDuplicates(s[..n]);
      var prior := Distinct(s[..n]);
      if s[n] !in prior {
        assert multiset(prior)[s[n]] == 0;
        assert multiset(prior + [s[n]]) == multiset(prior) + multiset{s[n]};
      }
    }
  }

  /** `sorted(set(s))`, read off a dict's keys: sorted, each element once, and nothing else. */
  lemma {:induction false} SortedDistinct(s: seq<string>)
    ensures SortedBy(SortStrings(Distinct(s)), Identity)
    ensures NoDuplicates(SortStrings(Distinct(s)))
    ensures forall x :: x in SortStrings(Distinct(s)) <==> x in s
  {
    var d := Distinct(s);
    DistinctHasNoDuplicates(s);
    forall x
      ensures x in SortStrings(d) <==> x in d
    {
      assert x in SortStrings(d) <==> x in multiset(SortStrings(d));
      assert x in d <==> x in multiset(d);
    }
  }

  predicate IsPrefix(p: string, s: string) {
    |p| <= |s| && s[..|p|] == p
  }

  /** Python's `sub in s`. */
  predicate OccursIn(sub: string, s: string)
    decreases |s|
  {
    IsPrefix(sub, s) || (|s| > 0 && OccursIn(sub, s[1..]))
  }

  /** `sub` sits at position `i` of `s`. */
  predicate SliceAt(sub: string, s: string, i: int) {
    0 <= i <= |s| - |sub| && s[i..i + |sub|] == sub
  }

  /** `sub in s` holds exactly when some slice of `s` equals `sub`. */
  lemma {:induction false} OccursInAt(sub: string, s: string)
    ensures OccursIn(sub, s) <==> exists i :: SliceAt(sub, s, i)
    decreases |s|
  {
    if IsPrefix(sub, s) {
      assert SliceAt(sub, s, 0);
    } else if |s| > 0 {
      OccursInAt(sub, s[1..]);
      if OccursIn(sub, s[1..]) {
        var i :| SliceAt(sub, s[1..], i);
        assert s[i + 1..i + 1 + |sub|] == s[1..][i..i + |sub|];
        assert SliceAt(sub, s, i + 1);
      }
      if exists i :: SliceAt(sub, s, i) {
        var i :| SliceAt(sub, s, i);
        if i > 0 {
          assert s[1..][i - 1..i - 1 + |sub|] == s[i..i + |sub|];
          assert SliceAt(sub, s[1..], i - 1);
        }
      }
    }
  }

  predicate EndsWith(s: string, suffix: string) {
    |suffix| <= |s| && s[|s| - |suffix|..] == suffix
  }

  /** Python's `s.split(sep)` for a one-character separator: always at least one part. */
  function Split(s: string, sep: char): (parts: seq<string>)
    ensures |parts| >= 1
    ensures forall p :: p in parts ==> sep !in p
    decreases |s|
  {
    if s == [] then [""]
    else
      var rest := Split(s[1..], sep);
      if s[0] == sep then [""] + rest
      else [[s[0]] + rest[0]] + rest[1..]
  }

  /** Python's `sep.join(parts)`. */
  function Join(parts: seq<string>, sep: char): string
    decreases |parts|
  {
    if parts == [] then ""
    else if |parts| == 1 then parts[0]
    else parts[0] + [sep] + Join(parts[1..], sep)
  }

  /** Joining the parts of a split gives back the original string. */
  lemma {:induction false} JoinSplit(s: string, sep: char)
    ensures Join(Split(s, sep), sep) == s
    decreases |s|
  {
    if s != [] {
      var rest := Split(s[1..], sep);
      JoinSplit(s[1..], sep);
      if s[0] == sep {
        assert Split(s, sep) == [""] + rest;
        assert s == [sep] + s[1..];
      } else {
        var parts := Split(s, sep);
        assert parts == [[s[0]] + rest[0]] + rest[1..];
        if |rest| == 1 {
          assert s == [s[0]] + rest[0];
        } else {
          assert parts[1..] == rest[1..];
          assert s[1..] == rest[0] + [sep] + Join(rest[1..], sep);
          assert s == [s[0]] + s[1..];
        }
      }
    }
  }
}
