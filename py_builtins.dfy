/** The few Python built-ins the OCBC parser relies on, with CPython's
    semantics: `str.find`, the `in` operator on strings, slicing with
    negative and out-of-range indices, `list.reverse()` and list
    repetition `[x] * n`. A Python string is a sequence of code points; it is
    modelled as a `string`, a `seq<char>` of Unicode scalar values, so lone
    surrogates are not represented. */
module PyBuiltins {

  /** `p` occurs in `s` starting at index `i`. */
  predicate OccursAt(s: string, p: string, i: int) {
    0 <= i && i + |p| <= |s| && s[i..i + |p|] == p
  }

  /** Search for `p` in `s` starting at index `i`. */
  function FindFrom(s: string, p: string, i: nat): (r: int)
    requires i <= |s|
    decreases |s| - i
    ensures r == -1 || i <= r <= |s| - |p|
  {
    if i + |p| > |s| then -1
    else if s[i..i + |p|] == p then i
    else FindFrom(s, p, i + 1)
  }

  /** FindFrom returns the first occurrence at or after `i`, or -1 when
      there is none. */
  lemma {:induction false} FindFromMeaning(s: string, p: string, i: nat)
    requires i <= |s|
    ensures FindFrom(s, p, i) == -1 <==> forall j :: i <= j ==> !OccursAt(s, p, j)
    ensures FindFrom(s, p, i) != -1 ==>
      OccursAt(s, p, FindFrom(s, p, i)) && forall j :: i <= j < FindFrom(s, p, i) ==> !OccursAt(s, p, j)
    decreases |s| - i
  {
    if i + |p| <= |s| {
      if s[i..i + |p|] == p {
        assert OccursAt(s, p, i);
      } else {
        FindFromMeaning(s, p, i + 1);
      }
    }
  }

  /** `s.find(p)`: the lowest index at which `p` occurs in `s`, or -1 when
      it does not occur. The empty pattern is found at 0. */
  function Find(s: string, p: string): (r: int)
    ensures r == -1 || 0 <= r <= |s| - |p|
  {
    FindFrom(s, p, 0)
  }

  /** What Find returns, in both directions. */
  lemma FindMeaning(s: string, p: string)
    ensures Find(s, p) == -1 <==> forall j :: !OccursAt(s, p, j)
    ensures Find(s, p) != -1 ==> OccursAt(s, p, Find(s, p)) && forall j :: 0 <= j < Find(s, p) ==> !OccursAt(s, p, j)
  {
    FindFromMeaning(s, p, 0);
  }

  /** `p in s` for strings: substring containment. */
  predicate Contains(s: string, p: string) {
    Find(s, p) != -1
  }

  /** `p` first occurs in `s` at index `i`. */
  predicate FirstAt(s: string, p: string, i: int) {
    OccursAt(s, p, i) && forall j :: 0 <= j < i ==> !OccursAt(s, p, j)
  }

  /** The `in` operator holds exactly when `p` occurs somewhere in `s`. */
  lemma ContainsMeaning(s: string, p: string)
    ensures Contains(s, p) <==> exists j :: OccursAt(s, p, j)
  {
    FindMeaning(s, p);
    if Contains(s, p) {
      assert OccursAt(s, p, Find(s, p));
    }
  }

  /** Find agrees with the first occurrence, in both directions. */
  lemma FindIsFirst(s: string, p: string, i: nat)
    ensures Find(s, p) == i <==> FirstAt(s, p, i)
  {
    FindMeaning(s, p);
  }

  /** No occurrence of `p` starts inside `a`, not even one that runs on
      into a `p` written right after `a`. */
  predicate NoEarlierMatch(a: string, p: string)
    requires |p| > 0
  {
    !Contains(a + p[..|p| - 1], p)
  }

  /** In `a + p + b`, `p` is first found right after `a` when no earlier
      occurrence starts inside `a`. */
  lemma FindAfterPrefix(a: string, p: string, b: string)
    requires |p| > 0
    requires NoEarlierMatch(a, p)
    ensures Find(a + p + b, p) == |a|
  {
    var s := a + p + b;
    var t := a + p[..|p| - 1];
    assert s[|a|..|a| + |p|] == p;
    FindMeaning(t, p);
    forall j | 0 <= j < |a|
      ensures !OccursAt(s, p, j)
    {
      assert s[j..j + |p|] == t[j..j + |p|];
      assert !OccursAt(t, p, j);
    }
    FindIsFirst(s, p, |a|);
  }

  /** The shape of every anchored field: in `pre + p + u + x + v + q + post`,
      with `p` and `q` first found where written, slicing from `|u|`
      characters after the end of `p` to `|v|` characters before `q` yields
      exactly `x`. */
  lemma SliceBetweenAnchors(pre: string, p: string, u: string, x: string, v: string, q: string, post: string)
    requires |p| > 0 && |q| > 0
    requires NoEarlierMatch(pre, p) && NoEarlierMatch(pre + p + u + x + v, q)
    ensures var s := pre + p + u + x + v + q + post;
      Slice(s, Find(s, p) + |p| + |u|, Find(s, q) - |v|) == x
  {
    var s := pre + p + u + x + v + q + post;
    var i, j := |pre| + |p| + |u|, |pre| + |p| + |u| + |x|;
    assert Find(s, p) == |pre| by {
      assert s == pre + p + (u + x + v + q + post);
      FindAfterPrefix(pre, p, u + x + v + q + post);
    }
    assert Find(s, q) == j + |v| by {
      assert s == (pre + p + u + x + v) + q + post;
      FindAfterPrefix(pre + p + u + x + v, q, post);
    }
    assert s[i..j] == x;
  }

  /** The shape of a field cut from the start: in `x + v + q + post`, with
      `q` first found where written, slicing from 0 to `|v|` characters
      before `q` yields exactly `x`. */
  lemma SliceBeforeAnchor(x: string, v: string, q: string, post: string)
    requires |q| > 0
    requires NoEarlierMatch(x + v, q)
    ensures var s := x + v + q + post;
      Slice(s, 0, Find(s, q) - |v|) == x
  {
    var s := x + v + q + post;
    FindAfterPrefix(x + v, q, post);
    assert s[..|x|] == x;
  }

  /** How Python normalises one slice bound for a sequence of length `n`:
      a negative bound counts from the end, then the bound is clamped to
      `0..n`. */
  function ClampIndex(i: int, n: nat): (k: nat)
    ensures k <= n
    ensures 0 <= i <= n ==> k == i
    ensures i < 0 <= i + n ==> k == i + n
    ensures i + n < 0 ==> k == 0
    ensures n < i ==> k == n
  {
    if i < 0 then (if i + n < 0 then 0 else i + n)
    else if i > n then n
    else i
  }

  /** `s[start:stop]`. */
  function Slice(s: string, start: int, stop: int): (r: string)
    ensures |r| <= |s|
  {
    var a, b := ClampIndex(start, |s|), ClampIndex(stop, |s|);
    if a < b then s[a..b] else []
  }

  /** Inside the bounds, a Python slice is the ordinary subsequence. */
  lemma SliceInBounds(s: string, start: int, stop: int)
    requires 0 <= start <= stop <= |s|
    ensures Slice(s, start, stop) == s[start..stop]
  {
  }

  /** `s.reverse()` turns the list into this value. */
  function Reversed<T>(s: seq<T>): (r: seq<T>)
    ensures |r| == |s|
    ensures forall k :: 0 <= k < |s| ==> r[k] == s[|s| - 1 - k]
  {
    if s == [] then [] else Reversed(s[1..]) + [s[0]]
  }

  /** Reversing twice gives back the original list. */
  lemma ReversedTwice<T>(s: seq<T>)
    ensures Reversed(Reversed(s)) == s
  {
    assert forall k :: 0 <= k < |s| ==> Reversed(Reversed(s))[k] == s[k];
  }

  /** `[x] * n`. */
  function Repeat<T>(x: T, n: nat): (r: seq<T>)
    ensures |r| == n
    ensures forall k :: 0 <= k < n ==> r[k] == x
  {
    if n == 0 then [] else Repeat(x, n - 1) + [x]
  }
}
