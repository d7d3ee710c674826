/** String helpers standing for the parts of Rust's str API the core calls:
    starts_with, ends_with, contains, strip_prefix, join, and integer formatting. */
module Text {
  import opened Wrappers

  /** `p` is a prefix of `s` (Rust's `s.starts_with(p)`). */
  predicate IsPrefix(p: string, s: string) {
    |p| <= |s| && s[..|p|] == p
  }

  /** `x` is a suffix of `s` (Rust's `s.ends_with(x)`). */
  predicate IsSuffix(x: string, s: string) {
    |x| <= |s| && s[|s| - |x|..] == x
  }

  /** `s` has `t` as a substring starting at position `i`. */
  predicate OccursAt(t: string, s: string, i: nat) {
    i + |t| <= |s| && s[i..i + |t|] == t
  }

  /** Rust's `s.contains(t)`, computed by scanning the start positions of `s`. */
  function Contains(s: string, t: string): (r: bool)
    ensures r <==> exists i: nat :: OccursAt(t, s, i)
  {
    if IsPrefix(t, s) then
      assert OccursAt(t, s, 0);
      true
    else if |s| == 0 then
      false
    else
      var rest := Contains(s[1..], t);
      ShiftOccurrence(t, s);
      rest
  }

  /** An occurrence in `s` past position 0 is an occurrence in `s[1..]`, one position earlier. */
  lemma ShiftOccurrence(t: string, s: string)
    requires |s| > 0 && !IsPrefix(t, s)
    ensures (exists i: nat :: OccursAt(t, s, i)) <==> (exists i: nat :: OccursAt(t, s[1..], i))
  {
    if exists i: nat :: OccursAt(t, s, i) {
      var i: nat :| OccursAt(t, s, i);
      assert i != 0;
      assert s[1..][i - 1..i - 1 + |t|] == s[i..i + |t|];
      assert OccursAt(t, s[1..], i - 1);
    }
    if exists i: nat :: OccursAt(t, s[1..], i) {
      var i: nat :| OccursAt(t, s[1..], i);
      assert s[i + 1..i + 1 + |t|] == s[1..][i..i + |t|];
      assert OccursAt(t, s, i + 1);
    }
  }

  /** A string contains each of its prefixes. */
  lemma PrefixIsContained(p: string, s: string)
    requires IsPrefix(p, s)
    ensures Contains(s, p)
  {
    assert OccursAt(p, s, 0);
  }

  /** A string contains everything contained in a piece of it. */
  lemma ContainedInConcat(a: string, b: string, t: string)
    requires Contains(b, t)
    ensures Contains(a + b, t) && Contains(b + a, t)
  {
    var i: nat :| OccursAt(t, b, i);
    assert (a + b)[|a| + i..|a| + i + |t|] == b[i..i + |t|];
    assert OccursAt(t, a + b, |a| + i);
    assert (b + a)[i..i + |t|] == b[i..i + |t|];
    assert OccursAt(t, b + a, i);
  }

  /** No position of `s` holds the character `c`. */
  predicate Lacks(s: string, c: char) {
    forall k :: 0 <= k < |s| ==> s[k] != c
  }

  lemma LacksConcat(a: string, b: string, c: char)
    requires Lacks(a, c) && Lacks(b, c)
    ensures Lacks(a + b, c)
  {
    forall k | 0 <= k < |a + b| ensures (a + b)[k] != c {
      if k < |a| { assert (a + b)[k] == a[k]; } else { assert (a + b)[k] == b[k - |a|]; }
    }
  }

  /** A string lacking one of the characters of `t` does not contain `t`. */
  lemma LackedCharBlocks(s: string, t: string, j: nat)
    requires j < |t| && Lacks(s, t[j])
    ensures !Contains(s, t)
  {
    if exists i: nat :: OccursAt(t, s, i) {
      var i: nat :| OccursAt(t, s, i);
      assert s[i + j] == s[i..i + |t|][j];
    }
  }

  /** Rust's `s.strip_prefix(p)`. */
  function StripPrefix(p: string, s: string): (r: Option<string>)
    ensures r.Some? <==> IsPrefix(p, s)
    ensures r.Some? ==> s == p + r.value
  {
    if IsPrefix(p, s) then Some(s[|p|..]) else None
  }

  /** Rust's `[..].join(sep)` on a list of strings. */
  function Join(parts: seq<string>, sep: string): string {
    if |parts| == 0 then ""
    else if |parts| == 1 then parts[0]
    else parts[0] + sep + Join(parts[1..], sep)
  }

  function DigitChar(d: nat): (c: char)
    requires d < 10
    ensures '0' <= c <= '9'
  {
    ['0', '1', '2', '3', '4', '5', '6', '7', '8', '9'][d]
  }

  /** Decimal rendering of a natural number (Rust's `{}` for an unsigned integer). */
  function NatToString(n: nat): (s: string)
    ensures |s| > 0
    ensures forall i :: 0 <= i < |s| ==> '0' <= s[i] <= '9'
    decreases n
  {
    if n < 10 then [DigitChar(n)] else NatToString(n / 10) + [DigitChar(n % 10)]
  }

  /** Value of a string of decimal digits. */
  function DigitsValue(s: string): nat
    requires forall i :: 0 <= i < |s| ==> '0' <= s[i] <= '9'
  {
    if |s| == 0 then 0 else DigitsValue(s[..|s| - 1]) * 10 + ((s[|s| - 1] as int) - ('0' as int))
  }

  /** The rendering is faithful: reading the digits back gives the number. */
  lemma {:induction false} NatToStringValue(n: nat)
    ensures DigitsValue(NatToString(n)) == n
    decreases n
  {
    var s := NatToString(n);
    if n < 10 {
      assert s[..|s| - 1] == [];
    } else {
      NatToStringValue(n / 10);
      assert s[..|s| - 1] == NatToString(n / 10);
    }
  }
}
