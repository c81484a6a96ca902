/**
 * The JavaScript string operations the core relies on: case folding as a
 * regular expression with the `i` flag does it, `toLowerCase`, `startsWith`,
 * `includes`, `replace` with a string pattern, and a first-match search over a
 * table.
 */
module Strings {
  import opened Wrappers

  predicate IsUpper(c: char) { 'A' <= c <= 'Z' }

  /** The case folding of a non-Unicode regular expression with the `i` flag:
      a character folds to an ASCII letter only if it is one. */
  function FoldChar(c: char): char {
    if IsUpper(c) then (c as int + 32) as char else c
  }

  function Fold(s: string): (r: string)
    ensures |r| == |s|
    ensures forall i :: 0 <= i < |s| ==> r[i] == FoldChar(s[i])
  {
    seq(|s|, i requires 0 <= i < |s| => FoldChar(s[i]))
  }

  /** `String.prototype.toLowerCase` for one character. Besides A-Z, the only
      characters whose lower case contains an ASCII letter are U+0130 (capital I
      with dot above, which becomes "i" and a combining dot) and U+212A (the
      Kelvin sign, which becomes "k"). Every other character is kept: its lower
      case is non-ASCII either way, so no match against an ASCII key can tell. */
  function LowerChar(c: char): string {
    if IsUpper(c) then [FoldChar(c)]
    else if c == '\U{0130}' then "i\U{0307}"
    else if c == '\U{212A}' then "k"
    else [c]
  }

  /** `s.toLowerCase()`: no ASCII capital is left, and no character is lost. */
  function ToLower(s: string): (r: string)
    ensures |r| >= |s|
    ensures forall i :: 0 <= i < |r| ==> !IsUpper(r[i])
  {
    if s == [] then []
    else
      var head, rest := LowerChar(s[0]), ToLower(s[1..]);
      assert forall i :: |head| <= i < |head| + |rest| ==> (head + rest)[i] == rest[i - |head|];
      head + rest
  }

  /** Strings that agree up to ASCII case have the same lower case. */
  lemma {:induction false} FoldDeterminesLower(s: string, t: string)
    requires Fold(s) == Fold(t)
    ensures ToLower(s) == ToLower(t)
  {
    if s != [] {
      assert |t| == |s|;
      assert FoldChar(s[0]) == FoldChar(t[0]) by {
        assert Fold(s)[0] == Fold(t)[0];
      }
      assert LowerChar(s[0]) == LowerChar(t[0]);
      assert Fold(s[1..]) == Fold(t[1..]) by {
        assert Fold(s)[1..] == Fold(s[1..]);
        assert Fold(t)[1..] == Fold(t[1..]);
      }
      FoldDeterminesLower(s[1..], t[1..]);
    }
  }

  /** A string none of whose characters is upper-case ASCII folds to itself. */
  lemma FoldIdentity(s: string)
    requires forall i :: 0 <= i < |s| ==> !IsUpper(s[i])
    ensures Fold(s) == s
  {
  }

  /** `toLowerCase` keeps a string that holds no character it changes. */
  lemma {:induction false} LowerIdentity(s: string)
    requires forall i :: 0 <= i < |s| ==> !IsUpper(s[i]) && s[i] != '\U{0130}' && s[i] != '\U{212A}'
    ensures ToLower(s) == s
  {
    if s != [] {
      LowerIdentity(s[1..]);
    }
  }

  /** A key holding a character the string lacks does not occur in it. */
  lemma AbsentChar(s: string, t: string, k: nat)
    requires k < |t| && t[k] !in s
    ensures !Contains(s, t)
  {
    forall i | 0 <= i && i + |t| <= |s|
      ensures !OccursAt(s, t, i)
    {
      assert s[i..i + |t|][k] == s[i + k];
    }
  }

  /** The same, naming the missing character instead of its index. */
  lemma AbsentCharOf(s: string, t: string, c: char)
    requires c in t && c !in s
    ensures !Contains(s, t)
  {
    var k :| 0 <= k < |t| && t[k] == c;
    AbsentChar(s, t, k);
  }

  /** `s.startsWith(prefix)`. */
  predicate StartsWith(s: string, prefix: string)
    ensures StartsWith(s, prefix) ==> |prefix| <= |s| && forall i :: 0 <= i < |prefix| ==> s[i] == prefix[i]
  {
    |prefix| <= |s| && s[..|prefix|] == prefix
  }

  /** `t` occurs in `s` at index `i`. */
  predicate OccursAt(s: string, t: string, i: int) {
    0 <= i && i + |t| <= |s| && s[i..i + |t|] == t
  }

  /** `s.includes(t)`. */
  function Contains(s: string, t: string): (r: bool)
    ensures r <==> exists i :: OccursAt(s, t, i)
    decreases |s|
  {
    if |t| > |s| then false
    else if StartsWith(s, t) then (assert OccursAt(s, t, 0); true)
    else
      var rest := Contains(s[1..], t);
      assert forall i :: OccursAt(s[1..], t, i) <==> OccursAt(s, t, i + 1) by {
        forall i ensures OccursAt(s[1..], t, i) <==> OccursAt(s, t, i + 1) {
          if 0 <= i && i + |t| <= |s| - 1 {
            assert s[1..][i..i + |t|] == s[i + 1..i + 1 + |t|];
          }
        }
      }
      assert rest ==> exists i :: OccursAt(s, t, i) by {
        if rest {
          var i :| OccursAt(s[1..], t, i);
          assert OccursAt(s, t, i + 1);
        }
      }
      assert (exists i :: OccursAt(s, t, i)) ==> rest by {
        if exists i :: OccursAt(s, t, i) {
          var i :| OccursAt(s, t, i);
          assert i != 0;
          assert OccursAt(s[1..], t, i - 1);
        }
      }
      rest
  }

  /** `keys.some(k => s.includes(k))`. */
  function ContainsAny(s: string, keys: seq<string>): (r: bool)
    ensures r <==> exists k :: 0 <= k < |keys| && Contains(s, keys[k])
  {
    if keys == [] then false
    else if Contains(s, keys[0]) then true
    else
      var rest := ContainsAny(s, keys[1..]);
      assert forall k :: 0 <= k < |keys| - 1 ==> keys[1..][k] == keys[k + 1];
      assert rest ==> exists k :: 0 <= k < |keys| && Contains(s, keys[k]) by {
        if rest {
          var k :| 0 <= k < |keys| - 1 && Contains(s, keys[1..][k]);
          assert Contains(s, keys[k + 1]);
        }
      }
      rest
  }

  /** A string containing `t + u` contains `t`. */
  lemma ContainsPrefixOfKey(s: string, t: string, u: string)
    requires Contains(s, t + u)
    ensures Contains(s, t)
  {
    var i :| OccursAt(s, t + u, i);
    assert s[i..i + |t|] == (t + u)[..|t|];
    assert OccursAt(s, t, i);
  }

  /** The index of the first occurrence of `t` in `s`, as `indexOf` finds it. */
  function IndexOf(s: string, t: string): (r: Option<nat>)
    ensures r.Some? ==> OccursAt(s, t, r.value) && forall j :: 0 <= j < r.value ==> !OccursAt(s, t, j)
    ensures r.None? ==> forall j :: !OccursAt(s, t, j)
    decreases |s|
  {
    if |t| > |s| then None
    else if StartsWith(s, t) then Some(0)
    else
      var rest := IndexOf(s[1..], t);
      assert forall i :: OccursAt(s[1..], t, i) <==> OccursAt(s, t, i + 1) by {
        forall i ensures OccursAt(s[1..], t, i) <==> OccursAt(s, t, i + 1) {
          if 0 <= i && i + |t| <= |s| - 1 {
            assert s[1..][i..i + |t|] == s[i + 1..i + 1 + |t|];
          }
        }
      }
      assert forall j :: OccursAt(s, t, j) ==> j == 0 || OccursAt(s[1..], t, j - 1);
      match rest
      case Some(i) => Some(i + 1)
      case None => None
  }

  /** `s.startsWith(t)` holds exactly when the first occurrence of `t` is at 0. */
  lemma StartsWithFirstIndex(s: string, t: string)
    ensures StartsWith(s, t) <==> IndexOf(s, t) == Some(0)
  {
    if StartsWith(s, t) {
      assert OccursAt(s, t, 0);
    }
  }

  /** `s.replace(pattern, replacement)` with a string pattern: only the first
      occurrence is replaced. A replacement without `$` is inserted as it is. */
  function ReplaceFirst(s: string, pattern: string, replacement: string): (r: string)
    requires '$' !in replacement
    ensures IndexOf(s, pattern).None? ==> r == s
    ensures IndexOf(s, pattern).Some? ==>
              var i := IndexOf(s, pattern).value;
              |r| == |s| - |pattern| + |replacement| &&
              r[..i] == s[..i] && r[i..i + |replacement|] == replacement &&
              r[i + |replacement|..] == s[i + |pattern|..]
  {
    match IndexOf(s, pattern)
    case Some(i) => s[..i] + replacement + s[i + |pattern|..]
    case None => s
  }

  /** Removing a prefix with `replace` leaves exactly the rest of the string,
      even when the prefix occurs again further on. */
  lemma ReplacePrefix(s: string, prefix: string)
    requires StartsWith(s, prefix)
    ensures ReplaceFirst(s, prefix, "") == s[|prefix|..]
  {
    assert OccursAt(s, prefix, 0);
    assert IndexOf(s, prefix) == Some(0);
  }

  /** The index of the first element of `xs` that satisfies `p`: the order in
      which a `for ... of` loop with an early `return` visits a table. */
  function FirstWhere<T>(xs: seq<T>, p: T -> bool): (r: Option<nat>)
    ensures r.Some? ==> r.value < |xs| && p(xs[r.value]) && forall j :: 0 <= j < r.value ==> !p(xs[j])
    ensures r.None? ==> forall j :: 0 <= j < |xs| ==> !p(xs[j])
  {
    if xs == [] then None
    else if p(xs[0]) then Some(0)
    else
      match FirstWhere(xs[1..], p)
      case Some(i) => Some(i + 1)
      case None => None
  }
}
