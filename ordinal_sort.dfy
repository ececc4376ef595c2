/** Ordering strings by ordinal comparison: the descending sort that
    OrderByDescending(i => i, StringComparer.Ordinal) performs, and the
    ascending list of distinct strings that the generated using block shows. */
module OrdinalSort {
  import opened Strings

  /** No later element is ordinally greater than an earlier one. */
  predicate Descending(s: seq<string>)
  {
    forall i, j :: 0 <= i < j < |s| ==> !OrdinalLess(s[i], s[j])
  }

  /** Each element is ordinally less than every later one. */
  predicate StrictlyAscending(s: seq<string>)
  {
    forall i, j :: 0 <= i < j < |s| ==> OrdinalLess(s[i], s[j])
  }

  /** "Not greater" is transitive. */
  lemma NotLessTransitive(a: string, b: string, c: string)
    requires !OrdinalLess(a, b) && !OrdinalLess(b, c)
    ensures !OrdinalLess(a, c)
  {
    OrdinalTotal(a, b);
    OrdinalTotal(b, c);
    if OrdinalLess(a, c) {
      if a == b {
        OrdinalAsymmetric(a, c);
      } else if b == c {
        OrdinalAsymmetric(a, b);
      } else {
        OrdinalTransitive(c, b, a);
        OrdinalAsymmetric(a, c);
      }
    }
  }

  lemma DescendingCons(x: string, s: seq<string>)
    requires Descending(s) && forall j :: 0 <= j < |s| ==> !OrdinalLess(x, s[j])
    ensures Descending([x] + s)
  {
    forall i, j | 0 <= i < j < |s| + 1
      ensures !OrdinalLess(([x] + s)[i], ([x] + s)[j])
    {
      if i > 0 {
        assert ([x] + s)[i] == s[i - 1];
      }
      assert ([x] + s)[j] == s[j - 1];
    }
  }

  lemma AscendingCons(x: string, s: seq<string>)
    requires StrictlyAscending(s) && forall j :: 0 <= j < |s| ==> OrdinalLess(x, s[j])
    ensures StrictlyAscending([x] + s)
  {
    forall i, j | 0 <= i < j < |s| + 1
      ensures OrdinalLess(([x] + s)[i], ([x] + s)[j])
    {
      if i > 0 {
        assert ([x] + s)[i] == s[i - 1];
      }
      assert ([x] + s)[j] == s[j - 1];
    }
  }

  function InsertDescending(x: string, s: seq<string>): (r: seq<string>)
    requires Descending(s)
    ensures Descending(r) && multiset(r) == multiset(s) + multiset{x}
  {
    if |s| == 0 then [x]
    else if !OrdinalLess(x, s[0]) then
      assert forall j :: 0 <= j < |s| ==> !OrdinalLess(x, s[j]) by {
        forall j | 0 < j < |s| ensures !OrdinalLess(x, s[j]) {
          NotLessTransitive(x, s[0], s[j]);
        }
      }
      DescendingCons(x, s);
      [x] + s
    else
      var rest := InsertDescending(x, s[1..]);
      assert s == [s[0]] + s[1..];
      assert forall j :: 0 <= j < |rest| ==> !OrdinalLess(s[0], rest[j]) by {
        forall j | 0 <= j < |rest| ensures !OrdinalLess(s[0], rest[j]) {
          assert rest[j] in multiset(rest);
          if rest[j] == x {
            OrdinalAsymmetric(x, s[0]);
          } else {
            assert rest[j] in multiset(s[1..]);
            var k :| 0 <= k < |s[1..]| && s[1..][k] == rest[j];
            assert s[k + 1] == rest[j];
          }
        }
      }
      DescendingCons(s[0], rest);
      [s[0]] + rest
  }

  /** OrderByDescending: a descending permutation of the input. */
  function SortDescending(s: seq<string>): (r: seq<string>)
    ensures Descending(r) && multiset(r) == multiset(s)
  {
    if |s| == 0 then []
    else
      assert s == [s[0]] + s[1..];
      InsertDescending(s[0], SortDescending(s[1..]))
  }

  /** Two sequences hold the same strings, counted once each. */
  ghost predicate SameElements(a: seq<string>, b: seq<string>)
  {
    forall y :: y in a <==> y in b
  }

  function InsertAscending(x: string, s: seq<string>): (r: seq<string>)
    requires StrictlyAscending(s)
    ensures StrictlyAscending(r) && forall y :: y in r <==> y in s || y == x
  {
    if |s| == 0 then [x]
    else if x == s[0] then s
    else if OrdinalLess(x, s[0]) then
      assert forall j :: 0 <= j < |s| ==> OrdinalLess(x, s[j]) by {
        forall j | 0 < j < |s| ensures OrdinalLess(x, s[j]) {
          OrdinalTransitive(x, s[0], s[j]);
        }
      }
      AscendingCons(x, s);
      [x] + s
    else
      var rest := InsertAscending(x, s[1..]);
      assert s == [s[0]] + s[1..];
      OrdinalTotal(x, s[0]);
      assert forall j :: 0 <= j < |rest| ==> OrdinalLess(s[0], rest[j]) by {
        forall j | 0 <= j < |rest| ensures OrdinalLess(s[0], rest[j]) {
          assert rest[j] in rest;
          if rest[j] != x {
            var k :| 0 <= k < |s[1..]| && s[1..][k] == rest[j];
            assert s[k + 1] == rest[j];
          }
        }
      }
      AscendingCons(s[0], rest);
      [s[0]] + rest
  }

  /** The distinct elements of s in ascending ordinal order. */
  function SortedDistinct(s: seq<string>): (r: seq<string>)
    ensures StrictlyAscending(r) && SameElements(r, s)
  {
    if |s| == 0 then []
    else
      assert s == [s[0]] + s[1..];
      InsertAscending(s[0], SortedDistinct(s[1..]))
  }

  /** A strictly ascending sequence starts with its least element and does
      not repeat it. */
  lemma AscendingHead(a: seq<string>, y: string)
    requires StrictlyAscending(a) && |a| > 0 && y in a
    ensures y == a[0] || OrdinalLess(a[0], y)
    ensures a[0] !in a[1..]
  {
    if a[0] in a[1..] {
      var k :| 0 <= k < |a[1..]| && a[1..][k] == a[0];
      assert OrdinalLess(a[0], a[k + 1]);
      OrdinalIrreflexive(a[0]);
    }
  }

  /** A set of strings has one strictly ascending listing. */
  lemma {:induction false} AscendingUnique(a: seq<string>, b: seq<string>)
    requires StrictlyAscending(a) && StrictlyAscending(b) && SameElements(a, b)
    ensures a == b
  {
    if |a| > 0 {
      assert a[0] in b && b[0] in a;
      AscendingHead(a, b[0]);
      AscendingHead(b, a[0]);
      if a[0] != b[0] {
        OrdinalAsymmetric(a[0], b[0]);
      }
      assert a == [a[0]] + a[1..] && b == [b[0]] + b[1..];
      assert SameElements(a[1..], b[1..]) by {
        forall y ensures y in a[1..] <==> y in b[1..] {
          assert y in a <==> y in b;
        }
      }
      AscendingUnique(a[1..], b[1..]);
    } else if |b| > 0 {
      HeadIn(b);
      assert false;
    }
  }

  lemma HeadIn(b: seq<string>)
    ensures |b| > 0 ==> b[0] in b
  {
  }
}
