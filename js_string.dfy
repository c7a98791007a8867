/** ECMAScript's String.prototype.trim, as used on the activity text. */
module JsString {

  /** The code points trim removes: ECMAScript WhiteSpace (TAB, VT, FF, SP, NBSP, ZWNBSP and the
      Unicode space separators) and LineTerminator (LF, CR, LS, PS). */
  predicate IsWs(c: char) {
    || c == '\t' || c == '\U{B}' || c == '\U{C}' || c == ' ' || c == '\U{A0}' || c == '\U{FEFF}'
    || c == '\U{1680}' || ('\U{2000}' <= c <= '\U{200A}') || c == '\U{202F}' || c == '\U{205F}'
    || c == '\U{3000}'
    || c == '\n' || c == '\r' || c == '\U{2028}' || c == '\U{2029}'
  }

  predicate AllWs(s: string) {
    forall i :: 0 <= i < |s| ==> IsWs(s[i])
  }

  /** A string with no whitespace at either end. */
  predicate IsTrimmed(s: string) {
    s == [] || (!IsWs(s[0]) && !IsWs(s[|s| - 1]))
  }

  /** Drops the leading whitespace (TrimStartFacts says what is left). */
  function TrimStart(s: string): (r: string)
    ensures |r| <= |s|
  {
    if s != [] && IsWs(s[0]) then TrimStart(s[1..]) else s
  }

  /** Drops the trailing whitespace (TrimEndFacts says what is left). */
  function TrimEnd(s: string): (r: string)
    ensures |r| <= |s|
  {
    if s != [] && IsWs(s[|s| - 1]) then TrimEnd(s[..|s| - 1]) else s
  }

  /** String.prototype.trim: the slice of `s` left once whitespace is removed from both ends
      (TrimFacts, TrimSlice and TrimUnique say what that is). */
  function Trim(s: string): (r: string)
    ensures |r| <= |s| && IsTrimmed(r)
  {
    TrimSliceBounds(s);
    TrimEnd(TrimStart(s))
  }

  /** TrimStart leaves the longest suffix that does not start with whitespace: what it drops is
      whitespace only. */
  lemma {:induction false} TrimStartFacts(s: string)
    ensures var r := TrimStart(s);
      && |r| <= |s| && r == s[|s| - |r|..]
      && (forall i :: 0 <= i < |s| - |r| ==> IsWs(s[i]))
      && (r == [] || !IsWs(r[0]))
    decreases |s|
  {
    if s != [] && IsWs(s[0]) {
      TrimStartFacts(s[1..]);
    }
  }

  /** TrimEnd leaves the longest prefix that does not end with whitespace: what it drops is
      whitespace only. */
  lemma {:induction false} TrimEndFacts(s: string)
    ensures var r := TrimEnd(s);
      && |r| <= |s| && r == s[..|r|]
      && (forall i :: |r| <= i < |s| ==> IsWs(s[i]))
      && (r == [] || !IsWs(r[|r| - 1]))
    decreases |s|
  {
    if s != [] && IsWs(s[|s| - 1]) {
      TrimEndFacts(s[..|s| - 1]);
    }
  }

  /** The trimmed string has no whitespace at either end, and it is empty exactly when the input is
      whitespace only. */
  lemma TrimFacts(s: string)
    ensures IsTrimmed(Trim(s))
    ensures Trim(s) == [] <==> AllWs(s)
  {
    TrimSliceBounds(s);
    TrimEmptyIffAllWs(s);
  }

  /** Trim(s) is the slice of `s` between a whitespace-only start and a whitespace-only end. */
  lemma TrimSlice(s: string)
    ensures var r := Trim(s); var k := |s| - |TrimStart(s)|;
      && k + |r| <= |s| && r == s[k..k + |r|]
      && (forall i :: 0 <= i < k ==> IsWs(s[i]))
      && (forall i :: k + |r| <= i < |s| ==> IsWs(s[i]))
  {
    TrimStartFacts(s);
    TrimSliceBounds(s);
    TrimSliceTail(s);
  }

  lemma TrimSliceBounds(s: string)
    ensures var t := TrimStart(s); var r := TrimEnd(t); var k := |s| - |t|;
      k + |r| <= |s| && r == s[k..k + |r|] && IsTrimmed(r)
  {
    var t := TrimStart(s);
    var r := TrimEnd(t);
    var k := |s| - |t|;
    TrimStartFacts(s);
    TrimEndFacts(t);
    assert t == s[k..];
    assert r == t[..|r|];
    assert s[k..k + |r|] == t[..|r|];
    if r != [] {
      assert r[0] == t[0];
    }
  }

  lemma TrimSliceTail(s: string)
    ensures var t := TrimStart(s); var r := TrimEnd(t); var k := |s| - |t|;
      forall i :: k + |r| <= i < |s| ==> IsWs(s[i])
  {
    var t := TrimStart(s);
    var r := TrimEnd(t);
    var k := |s| - |t|;
    TrimStartFacts(s);
    TrimEndFacts(t);
    assert t == s[k..];
    forall i | k + |r| <= i < |s| ensures IsWs(s[i]) {
      assert s[i] == t[i - k];
    }
  }

  lemma TrimEmptyIffAllWs(s: string)
    ensures TrimEnd(TrimStart(s)) == [] <==> AllWs(s)
  {
    var t := TrimStart(s);
    var k := |s| - |t|;
    TrimStartFacts(s);
    TrimEndFacts(t);
    if TrimEnd(t) == [] {
      assert s == s[..k] + t;
    }
  }

  lemma AllWsConcat(a: string, b: string)
    requires AllWs(a) && AllWs(b)
    ensures AllWs(a + b)
  {
  }

  /** Leading whitespace followed by a non-whitespace start is exactly what TrimStart removes. */
  lemma {:induction false} TrimStartSkips(pre: string, rest: string)
    requires AllWs(pre)
    requires rest == [] || !IsWs(rest[0])
    ensures TrimStart(pre + rest) == rest
    decreases |pre|
  {
    if pre != [] {
      assert (pre + rest)[1..] == pre[1..] + rest;
      TrimStartSkips(pre[1..], rest);
    }
  }

  /** Trailing whitespace after a non-whitespace end is exactly what TrimEnd removes. */
  lemma {:induction false} TrimEndSkips(rest: string, post: string)
    requires AllWs(post)
    requires rest == [] || !IsWs(rest[|rest| - 1])
    ensures TrimEnd(rest + post) == rest
    decreases |post|
  {
    if post != [] {
      assert (rest + post)[..|rest + post| - 1] == rest + post[..|post| - 1];
      TrimEndSkips(rest, post[..|post| - 1]);
    }
  }

  /** Trim is determined by its meaning: whatever string sits between whitespace-only ends and has no
      whitespace at its own ends is the trimmed string. */
  lemma {:induction false} TrimUnique(pre: string, r: string, post: string)
    requires AllWs(pre) && AllWs(post) && IsTrimmed(r)
    ensures Trim(pre + r + post) == r
  {
    if r == [] {
      assert pre + r + post == pre + post;
      AllWsConcat(pre, post);
      TrimFacts(pre + post);
    } else {
      assert pre + r + post == pre + (r + post);
      TrimStartSkips(pre, r + post);
      TrimEndSkips(r, post);
    }
  }

  /** Trimming twice is trimming once. */
  lemma TrimIdempotent(s: string)
    ensures Trim(Trim(s)) == Trim(s)
  {
    var r := Trim(s);
    TrimFacts(s);
    assert [] + r + [] == r;
    TrimUnique([], r, []);
  }
}
