/** String operations the sync engine relies on, with Python's meaning:
    `p in s` (substring test) and `s.strip()` (trimming whitespace). */
module Text {

  /** Pattern `p` occurs in `s` starting at index `k`. */
  predicate OccursAt(p: string, s: string, k: nat)
  {
    k + |p| <= |s| && s[k..k + |p|] == p
  }

  /** Searches for `p` in `s` at positions `k`, `k + 1`, ... */
  function ContainsFrom(p: string, s: string, k: nat): (r: bool)
    decreases |s| - k
    ensures r <==> exists j :: k <= j <= |s| && OccursAt(p, s, j)
  {
    if k + |p| > |s| then false
    else if OccursAt(p, s, k) then true
    else ContainsFrom(p, s, k + 1)
  }

  /** Python's `p in s` on strings; the empty pattern occurs in every string. */
  function Contains(p: string, s: string): (r: bool)
    ensures r <==> exists j :: 0 <= j <= |s| && OccursAt(p, s, j)
  {
    ContainsFrom(p, s, 0)
  }

  /** A pattern holding a character the string lacks cannot occur in it. */
  lemma MissingCharNotContained(p: string, s: string, c: char)
    requires c in p && c !in s
    ensures !Contains(p, s)
  {
  }

  /** Every string contains each of its own slices. */
  lemma SliceContained(s: string, i: nat, j: nat)
    requires i <= j <= |s|
    ensures Contains(s[i..j], s)
  {
    assert OccursAt(s[i..j], s, i);
  }

  /** Python's `str.isspace` on one character: the ASCII whitespace
      characters, the separators U+001C..U+001F, NEL, NO-BREAK SPACE and
      the Unicode space separators. */
  predicate IsSpace(c: char)
  {
    || ('\t' <= c <= '\r')
    || ('\U{1C}' <= c <= ' ')
    || c == '\U{85}' || c == '\U{A0}' || c == '\U{1680}'
    || ('\U{2000}' <= c <= '\U{200A}')
    || c == '\U{2028}' || c == '\U{2029}' || c == '\U{202F}' || c == '\U{205F}'
    || c == '\U{3000}'
  }

  /** Every character of `s` is whitespace (the empty string included). */
  predicate IsBlank(s: string)
  {
    forall i :: 0 <= i < |s| ==> IsSpace(s[i])
  }

  /** Drops leading whitespace (Python's `s.lstrip()`). */
  function TrimStart(s: string): string
  {
    if s != [] && IsSpace(s[0]) then TrimStart(s[1..]) else s
  }

  /** Drops trailing whitespace (Python's `s.rstrip()`). */
  function TrimEnd(s: string): string
  {
    if s != [] && IsSpace(s[|s| - 1]) then TrimEnd(s[..|s| - 1]) else s
  }

  /** TrimStart keeps the longest suffix of `s` that does not start with
      whitespace: what it drops is all whitespace. */
  lemma {:induction false} TrimStartSpec(s: string)
    ensures var r := TrimStart(s);
      && |r| <= |s| && r == s[|s| - |r|..]
      && IsBlank(s[..|s| - |r|])
      && (r != [] ==> !IsSpace(r[0]))
  {
    if s != [] && IsSpace(s[0]) {
      TrimStartSpec(s[1..]);
      var r := TrimStart(s[1..]);
      assert s[..|s| - |r|] == [s[0]] + s[1..][..|s| - 1 - |r|];
    }
  }

  /** TrimEnd keeps the longest prefix of `s` that does not end with
      whitespace: what it drops is all whitespace. */
  lemma {:induction false} TrimEndSpec(s: string)
    ensures var r := TrimEnd(s);
      && |r| <= |s| && r == s[..|r|]
      && IsBlank(s[|r|..])
      && (r != [] ==> !IsSpace(r[|r| - 1]))
  {
    if s != [] && IsSpace(s[|s| - 1]) {
      TrimEndSpec(s[..|s| - 1]);
      var r := TrimEnd(s[..|s| - 1]);
      assert s[|r|..] == s[..|s| - 1][|r|..] + [s[|s| - 1]];
    }
  }

  /** Python's `s.strip()` with no argument. */
  function Strip(s: string): string
  {
    TrimEnd(TrimStart(s))
  }

  /** Leading whitespace does not change what TrimStart keeps. */
  lemma {:induction false} TrimStartBlankPrefix(pre: string, x: string)
    requires IsBlank(pre)
    ensures TrimStart(pre + x) == TrimStart(x)
  {
    if pre != [] {
      var s := pre + x;
      assert s[0] == pre[0] && IsSpace(pre[0]);
      assert s[1..] == pre[1..] + x;
      TrimStartBlankPrefix(pre[1..], x);
    } else {
      assert pre + x == x;
    }
  }

  /** Trailing whitespace does not change what TrimEnd keeps. */
  lemma {:induction false} TrimEndBlankSuffix(x: string, post: string)
    requires IsBlank(post)
    ensures TrimEnd(x + post) == TrimEnd(x)
  {
    if post != [] {
      var n := |post| - 1;
      var s := x + post;
      assert s[|s| - 1] == post[n] && IsSpace(post[n]);
      assert s[..|s| - 1] == x + post[..n];
      TrimEndBlankSuffix(x, post[..n]);
    } else {
      assert x + post == x;
    }
  }

  /** `s.strip()` is empty exactly when `s` is all whitespace. */
  lemma StripEmptyIffBlank(s: string)
    ensures Strip(s) == [] <==> IsBlank(s)
  {
    var t := TrimStart(s);
    TrimStartSpec(s);
    TrimEndSpec(t);
    if Strip(s) == [] {
      assert s == s[..|s| - |t|];
    } else {
      var r := Strip(s);
      assert r == t[..|r|] && !IsSpace(r[0]);
      assert s[|s| - |t|] == t[0];
    }
  }

  /** Surrounding whitespace is removed and nothing else: a word that
      neither starts nor ends with whitespace survives `strip()` intact. */
  lemma StripSurrounded(pre: string, w: string, post: string)
    requires IsBlank(pre) && IsBlank(post)
    requires w != [] ==> !IsSpace(w[0]) && !IsSpace(w[|w| - 1])
    ensures Strip(pre + w + post) == w
  {
    if w == [] {
      assert pre + w + post == pre + post;
      assert IsBlank(pre + post) by {
        forall i | 0 <= i < |pre + post| ensures IsSpace((pre + post)[i]) {
          if i >= |pre| { assert (pre + post)[i] == post[i - |pre|]; }
        }
      }
      StripEmptyIffBlank(pre + post);
    } else {
      assert pre + w + post == pre + (w + post);
      TrimStartBlankPrefix(pre, w + post);
      assert (w + post)[0] == w[0];
      assert TrimStart(w + post) == w + post;
      TrimEndBlankSuffix(w, post);
    }
  }
}
