/** String operations of the .NET base library that the generator relies on:
    String.Join, ordinal comparison, OrdinalIgnoreCase equality, IndexOf and
    String.Replace. A string is a sequence of Unicode scalar values; ordinal
    order here compares those scalar values. .NET compares UTF-16 code units
    instead, and the two orders differ only when a character above U+FFFF
    meets one in U+E000..U+FFFF at the first difference. */
module Strings {

  /** String.Join(sep, parts). */
  function Join(parts: seq<string>, sep: string): string
  {
    if |parts| == 0 then ""
    else if |parts| == 1 then parts[0]
    else parts[0] + sep + Join(parts[1..], sep)
  }

  /** Joining one part more appends the separator and the part. */
  lemma {:induction false} JoinSnoc(parts: seq<string>, x: string, sep: string)
    ensures Join(parts + [x], sep) == if parts == [] then x else Join(parts, sep) + sep + x
  {
    if |parts| > 1 {
      assert (parts + [x])[1..] == parts[1..] + [x];
      JoinSnoc(parts[1..], x, sep);
    } else if |parts| == 1 {
      assert (parts + [x])[1..] == [x];
    }
  }

  lemma ConcatRegroup(a: string, b: string, c: string, d: string)
    ensures a + b + c + d == a + (b + c + d)
  {
  }

  /** String.CompareOrdinal(a, b) < 0: the first differing character decides,
      and a proper prefix comes first. Characters are compared as scalar
      values, not as UTF-16 code units. */
  predicate OrdinalLess(a: string, b: string)
  {
    if |b| == 0 then false
    else if |a| == 0 then true
    else if a[0] != b[0] then a[0] < b[0]
    else OrdinalLess(a[1..], b[1..])
  }

  lemma {:induction false} OrdinalIrreflexive(a: string)
    ensures !OrdinalLess(a, a)
  {
    if |a| > 0 {
      OrdinalIrreflexive(a[1..]);
    }
  }

  lemma {:induction false} OrdinalAsymmetric(a: string, b: string)
    ensures OrdinalLess(a, b) ==> !OrdinalLess(b, a)
  {
    if |a| > 0 && |b| > 0 && a[0] == b[0] {
      OrdinalAsymmetric(a[1..], b[1..]);
    }
  }

  lemma {:induction false} OrdinalTransitive(a: string, b: string, c: string)
    ensures OrdinalLess(a, b) && OrdinalLess(b, c) ==> OrdinalLess(a, c)
  {
    if |a| > 0 && |b| > 0 && |c| > 0 && a[0] == b[0] == c[0] {
      OrdinalTransitive(a[1..], b[1..], c[1..]);
    }
  }

  lemma {:induction false} OrdinalTotal(a: string, b: string)
    ensures a == b || OrdinalLess(a, b) || OrdinalLess(b, a)
  {
    if |a| > 0 && |b| > 0 && a[0] == b[0] {
      OrdinalTotal(a[1..], b[1..]);
      if a[1..] == b[1..] {
        assert a == [a[0]] + a[1..] && b == [b[0]] + b[1..];
      }
    }
  }

  /** The invariant upper-case mapping, on ASCII letters. */
  function ToUpper(c: char): (u: char)
    ensures 'a' <= c <= 'z' ==> 'A' <= u <= 'Z'
    ensures !('a' <= c <= 'z') ==> u == c
  {
    if 'a' <= c <= 'z' then (c as int - 32) as char else c
  }

  /** String.Equals(a, b, StringComparison.OrdinalIgnoreCase). */
  predicate EqualsIgnoreCase(a: string, b: string)
  {
    |a| == |b| && forall i :: 0 <= i < |a| ==> ToUpper(a[i]) == ToUpper(b[i])
  }

  /** Every string equals itself ignoring case. */
  lemma EqualsIgnoreCaseReflexive(a: string)
    ensures EqualsIgnoreCase(a, a)
  {
  }

  /** s.IndexOf(c): the position of the first c. */
  function IndexOf(s: string, c: char): (k: nat)
    requires c in s
    ensures k < |s| && s[k] == c && c !in s[..k]
  {
    if s[0] == c then 0 else 1 + IndexOf(s[1..], c)
  }

  /** Whether s has `pattern` at position i. */
  predicate OccursAt(s: string, pattern: string, i: nat)
  {
    i + |pattern| <= |s| && s[i..i + |pattern|] == pattern
  }

  /** s.Replace(pattern, replacement): every non-overlapping occurrence, left to
      right, is replaced. */
  function Replace(s: string, pattern: string, replacement: string): (r: string)
    requires |pattern| > 0
    decreases |s|
  {
    if |s| == 0 then ""
    else if OccursAt(s, pattern, 0) then replacement + Replace(s[|pattern|..], pattern, replacement)
    else [s[0]] + Replace(s[1..], pattern, replacement)
  }

  /** None of the characters of `pattern` occurs in s. */
  predicate Disjoint(s: string, pattern: string)
  {
    forall c :: c in s ==> c !in pattern
  }

  lemma DisjointConcat(a: string, b: string, pattern: string)
    requires Disjoint(a, pattern) && Disjoint(b, pattern)
    ensures Disjoint(a + b, pattern)
  {
    forall c | c in a + b ensures c !in pattern {
      assert c in a || c in b;
    }
  }

  /** Text with none of the pattern's characters is copied unchanged, and the
      replacement goes on in what follows it. */
  lemma {:induction false} ReplaceSkips(a: string, b: string, pattern: string, replacement: string)
    requires |pattern| > 0 && Disjoint(a, pattern)
    ensures Replace(a + b, pattern, replacement) == a + Replace(b, pattern, replacement)
    decreases |a|
  {
    if |a| > 0 {
      var head, tail := a[0], a[1..];
      assert a == [head] + tail;
      assert head in a;
      assert (a + b)[0] == head && head !in pattern;
      assert !OccursAt(a + b, pattern, 0) by {
        assert |pattern| <= |a + b| ==> (a + b)[0..|pattern|][0] == head;
      }
      assert (a + b)[1..] == tail + b;
      assert Disjoint(tail, pattern) by {
        forall c | c in tail ensures c !in pattern {
          assert c in a;
        }
      }
      ReplaceSkips(tail, b, pattern, replacement);
      assert Replace(a + b, pattern, replacement) == [head] + (tail + Replace(b, pattern, replacement));
    } else {
      assert a + b == b;
    }
  }

  /** Replacing the separator of a join whose parts do not contain the
      separator's characters joins the parts with the replacement instead. */
  lemma {:induction false} ReplaceJoin(parts: seq<string>, sep: string, replacement: string)
    requires |sep| > 0
    requires forall k :: 0 <= k < |parts| ==> Disjoint(parts[k], sep)
    ensures Replace(Join(parts, sep), sep, replacement) == Join(parts, replacement)
  {
    if |parts| == 1 {
      ReplaceSkips(parts[0], "", sep, replacement);
      assert parts[0] + "" == parts[0];
    } else if |parts| > 1 {
      var rest := Join(parts[1..], sep);
      ReplaceSkips(parts[0], sep + rest, sep, replacement);
      assert parts[0] + sep + rest == parts[0] + (sep + rest);
      assert OccursAt(sep + rest, sep, 0) by {
        assert (sep + rest)[0..|sep|] == sep;
      }
      assert (sep + rest)[|sep|..] == rest;
      ReplaceJoin(parts[1..], sep, replacement);
    }
  }

  /** As many '<' as '>' in s. */
  predicate Balanced(s: string)
  {
    multiset(s)['<'] == multiset(s)['>']
  }

  /** Neither '<' nor '>' in s. */
  predicate AngleFree(s: string)
  {
    '<' !in s && '>' !in s
  }

  /** Joining balanced parts with a balanced separator is balanced. */
  lemma {:induction false} JoinBalanced(parts: seq<string>, sep: string)
    requires Balanced(sep)
    requires forall k :: 0 <= k < |parts| ==> Balanced(parts[k])
    ensures Balanced(Join(parts, sep))
  {
    if |parts| > 1 {
      JoinBalanced(parts[1..], sep);
      assert multiset(parts[0] + sep + Join(parts[1..], sep))
          == multiset(parts[0]) + multiset(sep) + multiset(Join(parts[1..], sep));
    }
  }

  /** Text without the pattern's first character is left as it is. */
  lemma {:induction false} ReplaceAbsent(s: string, pattern: string, replacement: string)
    requires |pattern| > 0 && pattern[0] !in s
    ensures Replace(s, pattern, replacement) == s
    decreases |s|
  {
    if |s| > 0 {
      assert !OccursAt(s, pattern, 0) by {
        assert |pattern| <= |s| ==> s[0..|pattern|][0] == s[0];
      }
      ReplaceAbsent(s[1..], pattern, replacement);
      assert s == [s[0]] + s[1..];
    }
  }

  /** A character in neither the parts nor the separator is not in the join. */
  lemma {:induction false} JoinAvoids(parts: seq<string>, sep: string, c: char)
    requires c !in sep && forall k :: 0 <= k < |parts| ==> c !in parts[k]
    ensures c !in Join(parts, sep)
  {
    if |parts| > 1 {
      JoinAvoids(parts[1..], sep, c);
    }
  }
}
