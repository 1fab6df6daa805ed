/**
 * Grouping a sequence by a string key in one pass, the way a `defaultdict(list)` is
 * filled: each key's list keeps arrival order, and the dict's keys keep first-seen order.
 */
module Groups {
  import opened Strings

  /** The key of every element, in order. */
  function Keys<T>(s: seq<T>, key: T -> string): (r: seq<string>)
    ensures |r| == |s|
    ensures forall i :: 0 <= i < |s| ==> r[i] == key(s[i])
  {
    if s == [] then [] else Keys(s[..|s| - 1], key) + [key(s[|s| - 1])]
  }

  /** The elements whose key is `k`, in order. */
  function Members<T(!new)>(s: seq<T>, key: T -> string, k: string): (r: seq<T>)
    ensures forall x :: x in r <==> x in s && key(x) == k
  {
    if s == [] then []
    else
      var n := |s| - 1;
      assert s == s[..n] + [s[n]];
      Members(s[..n], key, k) + (if key(s[n]) == k then [s[n]] else [])
  }

  /** A key occurs among the keys exactly when some element has it. */
  lemma {:induction false} KeysMembers<T(!new)>(s: seq<T>, key: T -> string, k: string)
    ensures k in Keys(s, key) <==> exists x :: x in s && key(x) == k
  {
    if k in Keys(s, key) {
      var i :| 0 <= i < |s| && Keys(s, key)[i] == k;
      assert s[i] in s;
    }
    if exists x :: x in s && key(x) == k {
      var x :| x in s && key(x) == k;
      var i :| 0 <= i < |s| && s[i] == x;
      assert Keys(s, key)[i] == k;
    }
  }

  /** One more element adds its key at the end, and to the first-seen order only if new. */
  lemma {:induction false} KeysSnoc<T>(s: seq<T>, x: T, key: T -> string)
    ensures Keys(s + [x], key) == Keys(s, key) + [key(x)]
    ensures Distinct(Keys(s + [x], key))
      == Distinct(Keys(s, key)) + (if key(x) in Distinct(Keys(s, key)) then [] else [key(x)])
  {
    assert Keys(s + [x], key)[..|s|] == Keys(s, key);
  }

  /** One more element extends the list of its own key and of no other. */
  lemma {:induction false} MembersSnoc<T(!new)>(s: seq<T>, x: T, key: T -> string, k: string)
    ensures Members(s + [x], key, k) == Members(s, key, k) + (if key(x) == k then [x] else [])
  {
    assert (s + [x])[..|s|] == s;
  }

  /** A key no element has owns an empty list. */
  lemma {:induction false} UnseenKeyHasNoMembers<T(!new)>(s: seq<T>, key: T -> string, k: string)
    requires k !in Keys(s, key)
    ensures Members(s, key, k) == []
  {
    if s != [] {
      var n := |s| - 1;
      assert Keys(s, key)[..n] == Keys(s[..n], key);
      UnseenKeyHasNoMembers(s[..n], key, k);
    }
  }

  /** `groups` with key order `order` is the dict of lists filled from `s`. */
  ghost predicate GroupedBy<T(!new)>(groups: map<string, seq<T>>, order: seq<string>, s: seq<T>, key: T -> string) {
    && order == Distinct(Keys(s, key))
    && (forall k :: k in groups <==> k in order)
    && (forall k :: k in groups ==> groups[k] == Members(s, key, k))
  }

  /** `groups[key(x)].append(x)` keeps the dict equal to the one filled from `s + [x]`. */
  lemma {:induction false} GroupedStep<T(!new)>(groups: map<string, seq<T>>, order: seq<string>, s: seq<T>, key: T -> string, x: T)
    requires GroupedBy(groups, order, s, key)
    ensures var k := key(x);
      var prior := if k in groups then groups[k] else [];
      GroupedBy(groups[k := prior + [x]], if k in groups then order else order + [k], s + [x], key)
  {
    var k := key(x);
    var prior := if k in groups then groups[k] else [];
    var updated := groups[k := prior + [x]];
    KeysSnoc(s, x, key);
    if k !in groups {
      UnseenKeyHasNoMembers(s, key, k);
    }
    forall c | c in updated
      ensures updated[c] == Members(s + [x], key, c)
    {
      MembersSnoc(s, x, key, c);
    }
  }

  /** Fills the dict of lists from `s` in one pass: `groups[key(x)].append(x)` for each `x`. */
  method GroupBy<T(!new)>(s: seq<T>, key: T -> string) returns (groups: map<string, seq<T>>, order: seq<string>)
    ensures GroupedBy(groups, order, s, key)
  {
    groups, order := map[], [];
    for j := 0 to |s|
      invariant GroupedBy(groups, order, s[..j], key)
    {
      var x := s[j];
      assert s[..j + 1] == s[..j] + [x];
      GroupedStep(groups, order, s[..j], key, x);
      var k := key(x);
      var prior := if k in groups then groups[k] else [];
      if k !in groups {
        order := order + [k];
      }
      groups := groups[k := prior + [x]];
    }
    assert s[..|s|] == s;
  }
}
