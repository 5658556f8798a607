/** String operations the storefront's components use on image paths and product names:
    `startsWith`, `includes`, the global backslash-to-slash `replace`, and the
    comparison used to sort products by name. */
module Strings {

  /** `s.startsWith(prefix)`: the first `|prefix|` characters of `s` are `prefix`. */
  predicate StartsWith(s: string, prefix: string)
    ensures StartsWith(s, prefix) <==> |prefix| <= |s| && s[..|prefix|] == prefix
  {
    prefix <= s
  }

  /** `sub` occurs in `s` starting at position `i`. */
  predicate OccursAt(s: string, sub: string, i: int) {
    0 <= i && i + |sub| <= |s| && s[i..i + |sub|] == sub
  }

  /** `s.includes(sub)`: a left-to-right search for `sub`. */
  function Includes(s: string, sub: string): (r: bool)
    ensures r <==> exists i :: OccursAt(s, sub, i)
    decreases |s|
  {
    assert OccursAt(s, sub, 0) <==> StartsWith(s, sub) by {
      if |sub| <= |s| { assert s[0..|sub|] == s[..|sub|]; }
    }
    if StartsWith(s, sub) then
      true
    else if |s| <= |sub| then
      assert forall i :: OccursAt(s, sub, i) ==> i == 0;
      false
    else
      var r := Includes(s[1..], sub);
      assert r ==> exists i :: OccursAt(s, sub, i) by {
        if r {
          var j :| OccursAt(s[1..], sub, j);
          assert s[1..][j..j + |sub|] == s[j + 1..j + 1 + |sub|];
          assert OccursAt(s, sub, j + 1);
        }
      }
      assert (exists i :: OccursAt(s, sub, i)) ==> r by {
        if exists i :: OccursAt(s, sub, i) {
          var i :| OccursAt(s, sub, i);
          assert s[1..][i - 1..i - 1 + |sub|] == s[i..i + |sub|];
          assert OccursAt(s[1..], sub, i - 1);
        }
      }
      r
  }

  /** One character of `s.replace(/\\/g, "/")`. */
  function SlashFor(c: char): char {
    if c == '\\' then '/' else c
  }

  /** `s.replace(/\\/g, "/")`: every backslash becomes a forward slash, every other
      character is kept in place. */
  function ReplaceBackslashes(s: string): (r: string)
    ensures |r| == |s|
    ensures forall i :: 0 <= i < |s| ==> r[i] == SlashFor(s[i])
    ensures '\\' !in r
  {
    if s == [] then [] else [SlashFor(s[0])] + ReplaceBackslashes(s[1..])
  }

  /** Replacing twice is replacing once: a normalised path has nothing left to replace. */
  lemma ReplaceBackslashesIdempotent(s: string)
    ensures ReplaceBackslashes(ReplaceBackslashes(s)) == ReplaceBackslashes(s)
  {
    var r := ReplaceBackslashes(s);
    var rr := ReplaceBackslashes(r);
    assert forall i :: 0 <= i < |r| ==> rr[i] == r[i] by {
      forall i | 0 <= i < |r| ensures rr[i] == r[i] {
        assert r[i] in r;
      }
    }
  }

  /** The replacement touches no character but the backslash, so it keeps every
      occurrence of a backslash-free word such as "http" or "uploads". */
  lemma ReplaceKeepsOccurrence(s: string, sub: string, i: int)
    requires '\\' !in sub
    requires OccursAt(s, sub, i)
    ensures OccursAt(ReplaceBackslashes(s), sub, i)
  {
    var r := ReplaceBackslashes(s);
    forall k | 0 <= k < |sub| ensures r[i + k] == sub[k] {
      assert s[i..i + |sub|][k] == s[i + k];
      assert sub[k] in sub;
    }
    assert r[i..i + |sub|] == sub;
  }

  /** Code-point lexicographic comparison of two names: -1, 0 or 1, the sign of
      `a.localeCompare(b)` for plain names. */
  function NameCompare(a: string, b: string): (c: int)
    ensures -1 <= c <= 1
    ensures c == 0 <==> a == b
  {
    if a == [] && b == [] then 0
    else if a == [] then -1
    else if b == [] then 1
    else if a[0] < b[0] then -1
    else if a[0] > b[0] then 1
    else
      assert a == [a[0]] + a[1..] && b == [b[0]] + b[1..];
      NameCompare(a[1..], b[1..])
  }

  /** Swapping the operands flips the sign. */
  lemma {:induction false} NameCompareFlip(a: string, b: string)
    ensures NameCompare(b, a) == -NameCompare(a, b)
  {
    if a != [] && b != [] && a[0] == b[0] {
      NameCompareFlip(a[1..], b[1..]);
    }
  }

  /** "Not after" is transitive, so sorting by name is sorting by a total preorder. */
  lemma {:induction false} NameCompareTransitive(a: string, b: string, c: string)
    requires NameCompare(a, b) <= 0 && NameCompare(b, c) <= 0
    ensures NameCompare(a, c) <= 0
  {
    if a != [] && b != [] && c != [] && a[0] == b[0] == c[0] {
      NameCompareTransitive(a[1..], b[1..], c[1..]);
    }
  }
}
