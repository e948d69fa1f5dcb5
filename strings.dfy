/**
 * The few Python `str` operations the pipeline relies on: `lower`, `strip`,
 * the `in` substring test and `replace(',', '')`.
 */
module Strings {

  /** Python's `str.isspace` for one character (the characters `strip()` removes). */
  predicate IsSpace(c: char) {
    var n := c as int;
    n == 32 || 9 <= n <= 13 || 28 <= n <= 31 || n == 0x85 || n == 0xA0 || n == 0x1680
    || 0x2000 <= n <= 0x200A || n == 0x2028 || n == 0x2029 || n == 0x202F || n == 0x205F || n == 0x3000
  }

  /** `c.lower()` for the ASCII letters. */
  function LowerChar(c: char): (r: char)
    ensures 'A' <= c <= 'Z' ==> r as int == c as int + 32
    ensures !('A' <= c <= 'Z') ==> r == c
  {
    if 'A' <= c <= 'Z' then (c as int + 32) as char else c
  }

  /** `s.lower()`. */
  function Lower(s: string): (r: string)
    ensures |r| == |s|
    ensures forall i :: 0 <= i < |s| ==> r[i] == LowerChar(s[i])
  {
    if s == [] then [] else [LowerChar(s[0])] + Lower(s[1..])
  }

  /** `s.lstrip()`: the suffix of `s` that starts at its first non-space character. */
  function StripLeft(s: string): (r: string)
    ensures |r| <= |s| && r == s[|s| - |r|..]
    ensures r == [] || !IsSpace(r[0])
    ensures forall i :: 0 <= i < |s| - |r| ==> IsSpace(s[i])
  {
    if s != [] && IsSpace(s[0]) then StripLeft(s[1..]) else s
  }

  /** `s.rstrip()`: the prefix of `s` that ends at its last non-space character. */
  function StripRight(s: string): (r: string)
    ensures |r| <= |s| && r == s[..|r|]
    ensures r == [] || !IsSpace(r[|r| - 1])
    ensures forall i :: |r| <= i < |s| ==> IsSpace(s[i])
  {
    if s != [] && IsSpace(s[|s| - 1]) then StripRight(s[..|s| - 1]) else s
  }

  /** `s.strip()`: `s` without its leading and trailing white space. */
  function Strip(s: string): (r: string)
    ensures r == [] || (!IsSpace(r[0]) && !IsSpace(r[|r| - 1]))
    ensures |r| <= |s|
  {
    StripRight(StripLeft(s))
  }

  /** How many white-space characters `strip()` removes from the front of `s`. */
  function Lead(s: string): nat {
    |s| - |StripLeft(s)|
  }

  /**
   * What `strip()` keeps: the slice of `s` after its `Lead(s)` leading characters,
   * with only white space around it. With `Strip`'s own contract (no white space at
   * either end) this fixes the result.
   */
  lemma {:induction false} StripSlice(s: string)
    ensures Lead(s) + |Strip(s)| <= |s|
    ensures Strip(s) == s[Lead(s)..Lead(s) + |Strip(s)|]
    ensures forall k :: 0 <= k < Lead(s) ==> IsSpace(s[k])
    ensures forall k :: Lead(s) + |Strip(s)| <= k < |s| ==> IsSpace(s[k])
  {
    StripKeeps(s);
    StripDropsTail(s);
  }

  /** The kept part of StripSlice. */
  lemma {:induction false} StripKeeps(s: string)
    ensures Lead(s) + |Strip(s)| <= |s|
    ensures Strip(s) == s[Lead(s)..Lead(s) + |Strip(s)|]
  {
    PrefixOfSuffix(s, StripLeft(s), Strip(s), Lead(s));
  }

  /** A prefix of the suffix of `s` from `i` on is the slice of `s` from `i`. */
  lemma PrefixOfSuffix<T>(s: seq<T>, suffix: seq<T>, prefix: seq<T>, i: nat)
    requires i <= |s| && suffix == s[i..]
    requires |prefix| <= |suffix| && prefix == suffix[..|prefix|]
    ensures i + |prefix| <= |s| && prefix == s[i..i + |prefix|]
  {
    assert s[i..][..|prefix|] == s[i..i + |prefix|];
  }

  /** The dropped tail of StripSlice. */
  lemma {:induction false} StripDropsTail(s: string)
    ensures forall k :: Lead(s) + |Strip(s)| <= k < |s| ==> IsSpace(s[k])
  {
    forall k | Lead(s) + |Strip(s)| <= k < |s| ensures IsSpace(s[k]) {
      TrailingSpace(s, k);
    }
  }

  /** One character of the dropped tail. */
  lemma {:induction false} TrailingSpace(s: string, k: int)
    requires Lead(s) + |Strip(s)| <= k < |s|
    ensures IsSpace(s[k])
  {
    var left := StripLeft(s);
    assert s[k] == left[k - Lead(s)];
  }

  /** A string with no white space at either end is its own `strip()`. */
  lemma {:induction false} StripStripped(s: string)
    requires s == [] || (!IsSpace(s[0]) && !IsSpace(s[|s| - 1]))
    ensures Strip(s) == s
  {
    assert StripLeft(s) == s;
    assert StripRight(s) == s;
  }

  /** `strip()` is idempotent. */
  lemma StripIdempotent(s: string)
    ensures Strip(Strip(s)) == Strip(s)
  {
    StripStripped(Strip(s));
  }

  /** `p` occurs in `s` starting at position `i`. */
  predicate OccursAt(s: string, p: string, i: nat) {
    i + |p| <= |s| && s[i..i + |p|] == p
  }

  /** Python's `p in s` for strings: `p` occurs in `s` as a contiguous substring. */
  predicate Contains(s: string, p: string) {
    exists i: nat | i <= |s| :: OccursAt(s, p, i)
  }

  /** `s.replace(',', '')`. */
  function RemoveCommas(s: string): (r: string)
    ensures ',' !in r
    ensures |r| <= |s|
    ensures ',' !in s ==> r == s
  {
    if s == [] then []
    else
      assert s == [s[0]] + s[1..];
      if s[0] == ',' then RemoveCommas(s[1..])
      else [s[0]] + RemoveCommas(s[1..])
  }

  /** `replace(',', '')` drops exactly the commas: the others stay, in order (RemoveCommasAppend). */
  lemma {:induction false} RemoveCommasCount(s: string)
    ensures |RemoveCommas(s)| == |s| - multiset(s)[',']
  {
    if s != [] {
      assert s == [s[0]] + s[1..];
      RemoveCommasCount(s[1..]);
    }
  }

  /** Removing commas distributes over concatenation. */
  lemma {:induction false} RemoveCommasAppend(a: string, b: string)
    ensures RemoveCommas(a + b) == RemoveCommas(a) + RemoveCommas(b)
  {
    if a == [] {
      assert a + b == b;
    } else {
      assert (a + b)[1..] == a[1..] + b;
      RemoveCommasAppend(a[1..], b);
    }
  }
}
