/**
  The key order that `json.dumps(..., sort_keys=True)` applies to a dict:
  Python compares strings code point by code point.  SortByKey is that sort
  on the items of a dict, and SortIgnoresOrder shows its result depends only
  on which items the dict holds, not on their insertion order.
*/
module KeyOrder {
  import opened JsonValues

  /** Lexicographic code-point order on strings (Python's `<` on `str`). */
  predicate Less(a: string, b: string)
  {
    if a == [] then b != []
    else if b == [] then false
    else if a[0] == b[0] then Less(a[1..], b[1..])
    else a[0] < b[0]
  }

  lemma {:induction false} LessIrreflexive(a: string)
    ensures !Less(a, a)
  {
    if a != [] { LessIrreflexive(a[1..]); }
  }

  lemma {:induction false} LessTransitive(a: string, b: string, c: string)
    requires Less(a, b) && Less(b, c)
    ensures Less(a, c)
  {
    if a != [] && b != [] && c != [] && a[0] == b[0] && b[0] == c[0] {
      LessTransitive(a[1..], b[1..], c[1..]);
    }
  }

  lemma {:induction false} LessTotal(a: string, b: string)
    ensures a == b || Less(a, b) || Less(b, a)
  {
    if a != [] && b != [] && a[0] == b[0] {
      LessTotal(a[1..], b[1..]);
      if a[1..] == b[1..] {
        assert a == [a[0]] + a[1..] && b == [b[0]] + b[1..];
      }
    }
  }

  /** The items' keys strictly increase from left to right. */
  predicate SortedByKey(s: Items)
  {
    forall i, j :: 0 <= i < j < |s| ==> Less(s[i].0, s[j].0)
  }

  /** Puts `x` in front of the first item whose key is not smaller than its own. */
  function InsertByKey(x: (string, Json), s: Items): Items
  {
    if s == [] then [x]
    else if Less(x.0, s[0].0) then [x] + s
    else [s[0]] + InsertByKey(x, s[1..])
  }

  /** `sorted(d.items())`. */
  function SortByKey(d: Items): Items
  {
    if d == [] then [] else InsertByKey(d[0], SortByKey(d[1..]))
  }

  lemma KeySetTail(s: Items)
    requires s != []
    ensures KeySet(s[1..]) <= KeySet(s)
  {
    forall k | k in KeySet(s[1..]) ensures k in KeySet(s) {
      var i :| 0 <= i < |s[1..]| && s[1..][i].0 == k;
      assert s[i + 1].0 == k;
    }
  }

  lemma DistinctKeysTail(d: Items)
    requires d != [] && DistinctKeys(d)
    ensures DistinctKeys(d[1..])
  {
    forall i, j | 0 <= i < j < |d[1..]| ensures d[1..][i].0 != d[1..][j].0 {
      assert d[1..][i] == d[i + 1] && d[1..][j] == d[j + 1];
    }
  }

  lemma {:induction false} InsertByKeySorted(x: (string, Json), s: Items)
    requires SortedByKey(s)
    requires x.0 !in KeySet(s)
    ensures SortedByKey(InsertByKey(x, s))
    ensures multiset(InsertByKey(x, s)) == multiset(s) + multiset{x}
  {
    if s == [] {
    } else if Less(x.0, s[0].0) {
      forall j | 0 < j < |s| ensures Less(x.0, s[j].0) {
        LessTransitive(x.0, s[0].0, s[j].0);
      }
    } else {
      assert x.0 != s[0].0;
      LessTotal(x.0, s[0].0);
      KeySetTail(s);
      InsertByKeySorted(x, s[1..]);
      var t := InsertByKey(x, s[1..]);
      assert s == [s[0]] + s[1..];
      forall j | 0 <= j < |t| ensures Less(s[0].0, t[j].0) {
        assert t[j] in multiset(t);
        assert t[j] == x || t[j] in s[1..];
      }
    }
  }

  /** The first key of a dict is not among the keys of any rearrangement of the rest. */
  lemma HeadKeyNotInRest(d: Items, t: Items)
    requires d != [] && DistinctKeys(d)
    requires multiset(t) == multiset(d[1..])
    ensures d[0].0 !in KeySet(t)
  {
    forall k | k in KeySet(t) ensures k != d[0].0 {
      var i :| 0 <= i < |t| && t[i].0 == k;
      assert t[i] in multiset(d[1..]);
      var j :| 0 <= j < |d[1..]| && d[1..][j] == t[i];
      assert d[j + 1].0 == k;
    }
  }

  lemma {:induction false} SortByKeySorted(d: Items)
    requires DistinctKeys(d)
    ensures SortedByKey(SortByKey(d))
    ensures multiset(SortByKey(d)) == multiset(d)
  {
    if d != [] {
      var rest := SortByKey(d[1..]);
      DistinctKeysTail(d);
      SortByKeySorted(d[1..]);
      HeadKeyNotInRest(d, rest);
      InsertByKeySorted(d[0], rest);
      assert multiset(d) == multiset(d[1..]) + multiset{d[0]} by {
        assert d == [d[0]] + d[1..];
      }
    }
  }

  /** Two strictly sorted item lists holding the same items are the same list. */
  lemma {:induction false} SortedUnique(a: Items, b: Items)
    requires SortedByKey(a) && SortedByKey(b)
    requires forall x :: x in a <==> x in b
    ensures a == b
  {
    if a != [] { assert a[0] in a; }
    if b != [] { assert b[0] in b; }
    if a != [] && b != [] {
      assert a[0] in b;
      assert b[0] in a;
      var i :| 0 <= i < |a| && a[i] == b[0];
      var j :| 0 <= j < |b| && b[j] == a[0];
      if i > 0 && j > 0 {
        LessTransitive(a[0].0, a[i].0, b[j].0);
        LessIrreflexive(a[0].0);
      } else if i > 0 {
        LessIrreflexive(a[0].0);
      }
      assert a[0] == b[0];
      forall x ensures x in a[1..] <==> x in b[1..] {
        if x in a[1..] {
          var p :| 0 <= p < |a[1..]| && a[1..][p] == x;
          assert Less(a[0].0, a[p + 1].0);
          LessIrreflexive(a[0].0);
          assert x in b;
        }
        if x in b[1..] {
          var p :| 0 <= p < |b[1..]| && b[1..][p] == x;
          assert Less(b[0].0, b[p + 1].0);
          LessIrreflexive(b[0].0);
          assert x in a;
        }
      }
      SortedUnique(a[1..], b[1..]);
      assert a == [a[0]] + a[1..] && b == [b[0]] + b[1..];
    }
  }

  /**
    Sorting forgets insertion order: two dicts holding the same items sort to
    the same list, and dicts holding different items sort to different lists.
  */
  lemma SortIgnoresOrder(a: Items, b: Items)
    requires DistinctKeys(a) && DistinctKeys(b)
    ensures SortByKey(a) == SortByKey(b) <==> multiset(a) == multiset(b)
  {
    SortByKeySorted(a);
    SortByKeySorted(b);
    if multiset(a) == multiset(b) {
      var sa, sb := SortByKey(a), SortByKey(b);
      forall x ensures x in sa <==> x in sb {
        assert x in sa <==> x in multiset(sa);
        assert x in sb <==> x in multiset(sb);
      }
      SortedUnique(sa, sb);
    }
  }
}
