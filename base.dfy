/** Value types shared by every manager, and the few string operations of the
    browser that the managers rely on (`trim`, `toLowerCase`, `split('.').pop()`,
    `startsWith`, substring search). */
module Base {

  datatype Option<+T> = None | Some(value: T)

  /** The browser's `localStorage`: string keys mapped to string values. */
  type Store = map<string, string>

  function Min(a: int, b: int): int { if a <= b then a else b }

  /** `localStorage.getItem(key) || fallback`: a missing entry and an empty
      string are both falsy, so both give the fallback. */
  function StoredOr(store: Store, key: string, fallback: string): (r: string)
    ensures key in store && store[key] != "" ==> r == store[key]
    ensures r == fallback || (key in store && r == store[key])
    ensures r == "" ==> fallback == ""
  {
    if key in store && store[key] != "" then store[key] else fallback
  }

  /** A string's `length` in JavaScript: strings are UTF-16, so a character
      above U+FFFF counts as its two surrogate code units. */
  function Utf16Length(s: string): (n: nat)
    ensures |s| <= n <= 2 * |s|
    ensures (forall i :: 0 <= i < |s| ==> s[i] <= '\U{FFFF}') ==> n == |s|
    ensures (forall i :: 0 <= i < |s| ==> '\U{FFFF}' < s[i]) ==> n == 2 * |s|
  {
    if s == [] then 0 else (if s[0] <= '\U{FFFF}' then 1 else 2) + Utf16Length(s[1..])
  }

  /** The characters `String.prototype.trim` removes: the ECMAScript
      WhiteSpace set (TAB, VT, FF, ZWNBSP and every Space_Separator) and the
      four LineTerminator characters. */
  predicate IsJsWhitespace(c: char)
  {
    || c == '\t' || c == '\U{000B}' || c == '\U{000C}' || c == ' ' || c == '\U{00A0}'
    || c == '\U{FEFF}' || c == '\U{1680}' || ('\U{2000}' <= c <= '\U{200A}')
    || c == '\U{202F}' || c == '\U{205F}' || c == '\U{3000}'
    || c == '\n' || c == '\r' || c == '\U{2028}' || c == '\U{2029}'
  }

  predicate AllWhitespace(s: string)
  {
    forall k :: 0 <= k < |s| ==> IsJsWhitespace(s[k])
  }

  /** Drops the leading whitespace: the result is the suffix of `s` that
      starts at its first non-whitespace character. */
  function TrimStart(s: string): (r: string)
    ensures |r| <= |s| && r == s[|s| - |r|..]
    ensures AllWhitespace(s[..|s| - |r|])
    ensures r == [] || !IsJsWhitespace(r[0])
  {
    if |s| > 0 && IsJsWhitespace(s[0]) then
      var t := s[1..];
      var r := TrimStart(t);
      var n := |s| - |r|;
      assert |t| - |r| == n - 1;
      assert t[n - 1..] == s[n..];
      assert AllWhitespace(t[..n - 1]);
      WhitespaceCons(s, n);
      r
    else
      assert s[..0] == [];
      s
  }

  /** A whitespace character followed by whitespace is whitespace. */
  lemma WhitespaceCons(s: string, n: nat)
    requires 1 <= n <= |s| && IsJsWhitespace(s[0]) && AllWhitespace(s[1..][..n - 1])
    ensures AllWhitespace(s[..n])
  {
    forall k | 0 <= k < n ensures IsJsWhitespace(s[..n][k]) {
      if k > 0 {
        assert s[..n][k] == s[1..][..n - 1][k - 1];
      }
    }
  }

  /** Drops the trailing whitespace: the result is the prefix of `s` that
      ends at its last non-whitespace character. */
  function TrimEnd(s: string): (r: string)
    ensures |r| <= |s| && r == s[..|r|]
    ensures AllWhitespace(s[|r|..])
    ensures r == [] || !IsJsWhitespace(r[|r| - 1])
  {
    if |s| > 0 && IsJsWhitespace(s[|s| - 1]) then
      var r := TrimEnd(s[..|s| - 1]);
      assert s[..|s| - 1][..|r|] == s[..|r|];
      WhitespaceSnoc(s, |r|);
      r
    else
      assert s[|s|..] == [];
      s
  }

  /** Whitespace followed by a whitespace character is whitespace. */
  lemma WhitespaceSnoc(s: string, n: nat)
    requires n < |s| && IsJsWhitespace(s[|s| - 1]) && AllWhitespace(s[..|s| - 1][n..])
    ensures AllWhitespace(s[n..])
  {
    forall k | 0 <= k < |s| - n ensures IsJsWhitespace(s[n..][k]) {
      if k < |s| - 1 - n {
        assert s[n..][k] == s[..|s| - 1][n..][k];
      }
    }
  }

  /** `r` sits at offset `i` of `s` with only whitespace before and after it. */
  predicate WhitespacePadded(s: string, r: string, i: nat)
  {
    i + |r| <= |s| && s[i..i + |r|] == r && AllWhitespace(s[..i]) && AllWhitespace(s[i + |r|..])
  }

  /** `s.trim()`: the piece of `s` left once the whitespace at both ends is
      removed, so it neither starts nor ends with whitespace, and it is empty
      exactly when `s` is all whitespace. */
  function Trim(s: string): (r: string)
    ensures |r| <= |s| && Contains(s, r)
    ensures exists i: nat :: WhitespacePadded(s, r, i)
    ensures r == [] <==> AllWhitespace(s)
    ensures r != [] ==> !IsJsWhitespace(r[0]) && !IsJsWhitespace(r[|r| - 1])
  {
    TrimIsPiece(s);
    TrimEmptyOnlyIfBlank(s);
    TrimNonEmptyStartsWithText(s);
    TrimEnd(TrimStart(s))
  }

  /** A string that neither starts nor ends with whitespace is its own trim. */
  lemma TrimUnpadded(s: string)
    requires s != [] ==> !IsJsWhitespace(s[0]) && !IsJsWhitespace(s[|s| - 1])
    ensures Trim(s) == s
  {
  }

  /** Trimming both ends keeps a contiguous piece of `s` and removes only
      whitespace around it. */
  lemma TrimIsPiece(s: string)
    ensures Contains(s, TrimEnd(TrimStart(s)))
    ensures exists i: nat :: WhitespacePadded(s, TrimEnd(TrimStart(s)), i)
  {
    var t := TrimStart(s);
    var r := TrimEnd(t);
    var i := |s| - |t|;
    assert s[i..i + |r|] == r;
    assert OccursAt(s, r, i);
    assert s[i + |r|..] == t[|r|..];
    assert WhitespacePadded(s, r, i);
  }

  /** Trimming both ends empties `s` only when all of `s` is whitespace. */
  lemma TrimEmptyOnlyIfBlank(s: string)
    ensures TrimEnd(TrimStart(s)) == [] ==> AllWhitespace(s)
  {
    var t := TrimStart(s);
    var r := TrimEnd(t);
    if r == [] {
      var i := |s| - |t|;
      assert t[|r|..] == t == s[i..];
      assert AllWhitespace(s[i..]);
      assert AllWhitespace(s[..i]);
      WhitespaceJoin(s, i);
    }
  }

  /** A non-empty trimmed string starts where `s` has a non-whitespace
      character, so `s` was not all whitespace. */
  lemma TrimNonEmptyStartsWithText(s: string)
    ensures var r := TrimEnd(TrimStart(s));
      r != [] ==> !AllWhitespace(s) && !IsJsWhitespace(r[0])
  {
    var t := TrimStart(s);
    var r := TrimEnd(t);
    if r != [] {
      assert r[0] == t[0] == s[|s| - |t|];
    }
  }

  /** A string whose two halves are all whitespace is all whitespace. */
  lemma WhitespaceJoin(s: string, i: nat)
    requires i <= |s| && AllWhitespace(s[..i]) && AllWhitespace(s[i..])
    ensures AllWhitespace(s)
  {
    forall k | 0 <= k < |s| ensures IsJsWhitespace(s[k]) {
      if k < i {
        assert s[k] == s[..i][k];
      } else {
        assert s[k] == s[i..][k - i];
      }
    }
  }

  /** `s.startsWith(p)`. */
  predicate StartsWith(s: string, p: string)
  {
    |p| <= |s| && s[..|p|] == p
  }

  /** `s.includes(t)`: `t` occurs in `s` as a contiguous piece. */
  predicate Contains(s: string, t: string)
  {
    exists i: nat | i <= |s| :: OccursAt(s, t, i)
  }

  /** `t` occurs in `s` starting at index `i`. */
  predicate OccursAt(s: string, t: string, i: nat)
  {
    i + |t| <= |s| && s[i..i + |t|] == t
  }

  /** The piece in the middle of a concatenation occurs in it. */
  lemma ContainsMiddle(a: string, t: string, b: string)
    ensures Contains(a + t + b, t)
  {
    var s := a + t + b;
    assert s[|a|..|a| + |t|] == t;
    assert OccursAt(s, t, |a|);
  }

  /** `"` + u + `"`: how the fallback templates quote the user's message. */
  function Quote(u: string): string
  {
    "\"" + u + "\""
  }

  /** ASCII case mapping of one character. */
  function LowerAscii(c: char): char
  {
    if 'A' <= c <= 'Z' then (c as int + 32) as char else c
  }

  /** The ASCII part of `toLowerCase`: every upper-case ASCII letter is
      replaced by its lower-case form and nothing else changes. */
  function ToLowerAscii(s: string): (r: string)
    ensures |r| == |s|
    ensures forall k :: 0 <= k < |s| ==> r[k] == LowerAscii(s[k])
  {
    if s == [] then [] else [LowerAscii(s[0])] + ToLowerAscii(s[1..])
  }

  /** `s.split('.').pop()`: the text after the last dot, or all of `s` when
      it has no dot. */
  function AfterLastDot(s: string): (r: string)
    ensures |r| <= |s| && r == s[|s| - |r|..]
    ensures '.' !in r
    ensures |r| < |s| ==> s[|s| - |r| - 1] == '.'
  {
    if s == [] then []
    else if s[|s| - 1] == '.' then []
    else AfterLastDot(s[..|s| - 1]) + [s[|s| - 1]]
  }

  /** Whether the sequence has no repeated element (the keys of a JavaScript
      object listed in order). */
  predicate Distinct(s: seq<string>)
  {
    forall i, j :: 0 <= i < j < |s| ==> s[i] != s[j]
  }

  /** `s` with every occurrence of `x` taken out, the order of the rest kept. */
  function Without(s: seq<string>, x: string): (r: seq<string>)
    ensures forall y :: y in r <==> y in s && y != x
    ensures x !in s ==> r == s
    ensures Distinct(s) ==> Distinct(r)
    ensures Distinct(s) && x in s ==> |r| == |s| - 1
  {
    if s == [] then []
    else if s[0] == x then Without(s[1..], x)
    else
      var rest := Without(s[1..], x);
      assert Distinct(s) ==> s[0] !in s[1..];
      [s[0]] + rest
  }

  /** Taking out an element that was just appended gives back the sequence
      it was appended to. */
  lemma {:induction false} WithoutLastAdded(s: seq<string>, x: string)
    requires x !in s
    ensures Without(s + [x], x) == s
  {
    if s != [] {
      assert (s + [x])[1..] == s[1..] + [x];
      WithoutLastAdded(s[1..], x);
      assert s == [s[0]] + s[1..];
    }
  }
}
