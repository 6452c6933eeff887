/**
 * Strings as JavaScript sees them in this code base: ASCII lower-casing
 * (`toLowerCase`), substring search (`includes`), prefix tests
 * (`startsWith`), `split(' ')` and `join(', ')`, and the decimal rendering
 * of a non-negative integer inside a template string.
 */
module Text {

  /** `toLowerCase` on one character, restricted to the ASCII letters. */
  function LowerChar(c: char): (r: char)
    ensures !('A' <= r <= 'Z')
    ensures r == c || ('A' <= c <= 'Z' && r as int == c as int + 32)
  {
    if 'A' <= c <= 'Z' then (c as int + 32) as char else c
  }

  /** `s.toLowerCase()`: the string of the lowered characters of `s`. */
  function Lower(s: string): (r: string)
    ensures |r| == |s|
  {
    seq(|s|, i requires 0 <= i < |s| => LowerChar(s[i]))
  }

  predicate IsLower(s: string) {
    forall i :: 0 <= i < |s| ==> !('A' <= s[i] <= 'Z')
  }

  lemma LowerIsLower(s: string)
    ensures IsLower(Lower(s))
    ensures IsLower(s) ==> Lower(s) == s
  {
  }

  // ---------------------------------------------------------------------
  // Substring search
  // ---------------------------------------------------------------------

  /** `k` occurs in `s` starting at position `i`. */
  predicate OccursAt(s: string, k: string, i: nat) {
    i + |k| <= |s| && s[i..i + |k|] == k
  }

  /** Characters `j..` of `k` agree with `s` from position `i + j` on. */
  predicate MatchesFrom(s: string, k: string, i: nat, j: nat)
    requires i + |k| <= |s| && j <= |k|
    decreases |k| - j
  {
    j == |k| || (s[i + j] == k[j] && MatchesFrom(s, k, i, j + 1))
  }

  /** `k` occurs in `s` at some position `i` or later. */
  predicate IncludesFrom(s: string, k: string, i: nat)
    decreases |s| - i
  {
    i + |k| <= |s| && (MatchesFrom(s, k, i, 0) || IncludesFrom(s, k, i + 1))
  }

  /** `s.includes(k)`, computed by scanning the positions of `s` in order. */
  predicate Includes(s: string, k: string) {
    IncludesFrom(s, k, 0)
  }

  lemma {:induction false} MatchesFromIff(s: string, k: string, i: nat, j: nat)
    requires i + |k| <= |s| && j <= |k|
    ensures MatchesFrom(s, k, i, j) <==> s[i + j..i + |k|] == k[j..]
    decreases |k| - j
  {
    if j < |k| {
      MatchesFromIff(s, k, i, j + 1);
      assert s[i + j..i + |k|] == [s[i + j]] + s[i + j + 1..i + |k|];
      assert k[j..] == [k[j]] + k[j + 1..];
    }
  }

  lemma {:induction false} IncludesFromIff(s: string, k: string, i: nat)
    ensures IncludesFrom(s, k, i) <==> exists p: nat :: i <= p && OccursAt(s, k, p)
    decreases |s| - i
  {
    if i + |k| <= |s| {
      MatchesFromIff(s, k, i, 0);
      assert k[0..] == k;
      IncludesFromIff(s, k, i + 1);
      if MatchesFrom(s, k, i, 0) {
        assert OccursAt(s, k, i);
      } else {
        forall p: nat | i <= p && OccursAt(s, k, p)
          ensures i + 1 <= p
        {
        }
      }
    } else {
      forall p: nat | i <= p
        ensures !OccursAt(s, k, p)
      {
      }
    }
  }

  /** The scan agrees with the definition of `includes`: some occurrence exists. */
  lemma IncludesIff(s: string, k: string)
    ensures Includes(s, k) <==> exists p: nat :: OccursAt(s, k, p)
  {
    IncludesFromIff(s, k, 0);
  }

  // ---------------------------------------------------------------------
  // Prefixes, splitting and joining
  // ---------------------------------------------------------------------

  /** `s.startsWith(p)`. */
  predicate StartsWith(s: string, p: string) {
    |p| <= |s| && s[..|p|] == p
  }

  /** The index of the first `c` in `s` at or after `i`, or `|s|` when there is none. */
  function IndexOfFrom(s: string, c: char, i: nat): (r: nat)
    requires i <= |s|
    ensures i <= r <= |s|
    ensures r < |s| ==> s[r] == c
    ensures forall j :: i <= j < r ==> s[j] != c
    decreases |s| - i
  {
    if i == |s| || s[i] == c then i else IndexOfFrom(s, c, i + 1)
  }

  /** `s.split(sep)` for a one-character separator. */
  function Split(s: string, sep: char): (r: seq<string>)
    ensures |r| >= 1
    decreases |s|
  {
    var i := IndexOfFrom(s, sep, 0);
    if i == |s| then [s] else [s[..i]] + Split(s[i + 1..], sep)
  }

  /** `parts.join(sep)`. */
  function Join(parts: seq<string>, sep: string): string {
    if |parts| == 0 then ""
    else if |parts| == 1 then parts[0]
    else parts[0] + sep + Join(parts[1..], sep)
  }

  /** No piece produced by `Split` contains the separator. */
  lemma {:induction false} SplitPiecesLackSeparator(s: string, sep: char)
    ensures forall p <- Split(s, sep) :: sep !in p
    decreases |s|
  {
    var i := IndexOfFrom(s, sep, 0);
    if i < |s| {
      SplitPiecesLackSeparator(s[i + 1..], sep);
    }
  }

  lemma JoinCons(first: string, rest: seq<string>, sep: string)
    requires |rest| >= 1
    ensures Join([first] + rest, sep) == first + sep + Join(rest, sep)
  {
    assert ([first] + rest)[1..] == rest;
  }

  /** Joining the pieces again with the separator gives the string back. */
  lemma {:induction false} JoinSplit(s: string, sep: char)
    ensures Join(Split(s, sep), [sep]) == s
    decreases |s|
  {
    var i := IndexOfFrom(s, sep, 0);
    if i < |s| {
      var rest := s[i + 1..];
      JoinSplit(rest, sep);
      JoinCons(s[..i], Split(rest, sep), [sep]);
      assert s == s[..i] + [sep] + rest;
    }
  }

  /** A string without the separator splits into itself alone. */
  lemma SplitWithoutSeparator(s: string, sep: char)
    requires sep !in s
    ensures Split(s, sep) == [s]
  {
  }

  /** The first piece ends at the first separator. */
  lemma SplitAtFirst(a: string, b: string, sep: char)
    requires sep !in a
    ensures Split(a + [sep] + b, sep) == [a] + Split(b, sep)
  {
    var s := a + [sep] + b;
    assert forall j :: 0 <= j < |a| ==> s[j] == a[j] && a[j] in a;
    assert s[|a|] == sep;
    assert IndexOfFrom(s, sep, 0) == |a|;
    assert s[..|a|] == a && s[|a| + 1..] == b;
  }

  /** The element at index `i` of `xs`, or `""` when `xs` is too short (`xs[i]` is undefined). */
  function At(xs: seq<string>, i: nat): string {
    if i < |xs| then xs[i] else ""
  }

  // ---------------------------------------------------------------------
  // Numbers inside template strings
  // ---------------------------------------------------------------------

  function DigitChar(d: nat): (r: char)
    requires d < 10
    ensures '0' <= r <= '9'
  {
    ('0' as int + d) as char
  }

  /** The decimal rendering of `n`, as `${n}` prints a non-negative integer. */
  function NatToString(n: nat): (r: string)
    ensures |r| >= 1
    ensures forall i :: 0 <= i < |r| ==> '0' <= r[i] <= '9'
    decreases n
  {
    if n < 10 then [DigitChar(n)] else NatToString(n / 10) + [DigitChar(n % 10)]
  }

  /** The value of a string of decimal digits. */
  function DigitsValue(s: string): nat
    requires forall i :: 0 <= i < |s| ==> '0' <= s[i] <= '9'
  {
    if |s| == 0 then 0 else 10 * DigitsValue(s[..|s| - 1]) + (s[|s| - 1] as int - '0' as int)
  }

  /** Reading the rendering back gives the number. */
  lemma {:induction false} NatToStringValue(n: nat)
    ensures DigitsValue(NatToString(n)) == n
    decreases n
  {
    if n >= 10 {
      NatToStringValue(n / 10);
      var r := NatToString(n);
      assert r[..|r| - 1] == NatToString(n / 10);
    }
  }

  /** The rendering has no leading zero, except for zero itself. */
  lemma {:induction false} NatToStringNoLeadingZero(n: nat)
    ensures NatToString(n)[0] == '0' <==> n == 0
    decreases n
  {
    if n >= 10 {
      NatToStringNoLeadingZero(n / 10);
    }
  }
}
