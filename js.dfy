/**
 * The few pieces of JavaScript built-in behaviour the moderator chat relies on:
 * truthiness of an optional string, `String.prototype.trim`, and
 * `Array.prototype.slice` with a single (possibly negative) start index.
 */
module Js {
  import opened Wrappers

  /** A JavaScript string is truthy iff it is present and non-empty. */
  predicate Truthy(s: Option<string>)
  {
    s.Some? && s.value != ""
  }

  /**
   * The characters `trim` removes: the ECMAScript WhiteSpace set (TAB, VT, FF,
   * ZWNBSP and the Unicode space separators) and the LineTerminator set
   * (LF, CR, LS, PS).
   */
  predicate IsWhitespace(c: char)
  {
    || ('\t' <= c <= '\r')
    || c == ' '
    || c == '\U{00A0}'
    || c == '\U{1680}'
    || ('\U{2000}' <= c <= '\U{200A}')
    || c == '\U{2028}'
    || c == '\U{2029}'
    || c == '\U{202F}'
    || c == '\U{205F}'
    || c == '\U{3000}'
    || c == '\U{FEFF}'
  }

  predicate AllWhitespace(s: string)
  {
    forall i :: 0 <= i < |s| ==> IsWhitespace(s[i])
  }

  /** `s.trimStart()`: no longer than `s`, and it keeps the last character. */
  function TrimStart(s: string): (r: string)
    ensures |r| <= |s|
    ensures r != [] ==> r[|r| - 1] == s[|s| - 1]
    decreases |s|
  {
    if |s| > 0 && IsWhitespace(s[0]) then TrimStart(s[1..]) else s
  }

  /** `s.trimEnd()`: no longer than `s`, and it keeps the first character. */
  function TrimEnd(s: string): (r: string)
    ensures |r| <= |s|
    ensures r != [] ==> r[0] == s[0]
    decreases |s|
  {
    if |s| > 0 && IsWhitespace(s[|s| - 1]) then TrimEnd(s[..|s| - 1]) else s
  }

  /** `s.trim()` */
  function Trim(s: string): (r: string)
    ensures |r| <= |s|
    ensures r != [] ==> !IsWhitespace(r[|r| - 1])
  {
    TrimEndDropsTrailingSpace(TrimStart(s));
    TrimEnd(TrimStart(s))
  }

  /** `trimStart` drops exactly the leading whitespace: it keeps a suffix that is empty or starts with a non-space. */
  lemma {:induction false} TrimStartDropsLeadingSpace(s: string)
    ensures var r := TrimStart(s);
      && r == s[|s| - |r|..]
      && AllWhitespace(s[..|s| - |r|])
      && (r == [] || !IsWhitespace(r[0]))
    decreases |s|
  {
    if |s| > 0 && IsWhitespace(s[0]) {
      TrimStartDropsLeadingSpace(s[1..]);
      var r := TrimStart(s);
      assert s[..|s| - |r|] == [s[0]] + s[1..][..|s| - 1 - |r|];
    }
  }

  /** `trimEnd` drops exactly the trailing whitespace: it keeps a prefix that is empty or ends with a non-space. */
  lemma {:induction false} TrimEndDropsTrailingSpace(s: string)
    ensures var r := TrimEnd(s);
      && r == s[..|r|]
      && AllWhitespace(s[|r|..])
      && (r == [] || !IsWhitespace(r[|r| - 1]))
    decreases |s|
  {
    if |s| > 0 && IsWhitespace(s[|s| - 1]) {
      TrimEndDropsTrailingSpace(s[..|s| - 1]);
      var r := TrimEnd(s);
      assert s[|r|..] == s[..|s| - 1][|r|..] + [s[|s| - 1]];
    }
  }

  /** `s.trim()` is empty exactly when every character of `s` is whitespace. */
  lemma TrimEmptyIffBlank(s: string)
    ensures Trim(s) == [] <==> AllWhitespace(s)
  {
    TrimStartDropsLeadingSpace(s);
    var t := TrimStart(s);
    TrimEndDropsTrailingSpace(t);
    if Trim(s) == [] {
      forall i | 0 <= i < |s| ensures IsWhitespace(s[i]) {
        assert s[i] == s[..|s| - |t|][i];
      }
    }
  }

  /** `!s.trim()`: the string is empty once trimmed, that is, it is all whitespace. */
  function IsBlank(s: string): (b: bool)
    ensures b <==> AllWhitespace(s)
  {
    TrimEmptyIffBlank(s);
    Trim(s) == []
  }

  /** A string `trim` leaves alone: empty, or starting and ending with a non-space. */
  predicate IsTrimmed(s: string)
  {
    s == [] || (!IsWhitespace(s[0]) && !IsWhitespace(s[|s| - 1]))
  }

  /** `trim` leaves a string unchanged exactly when it is trimmed. */
  lemma TrimFixedIffTrimmed(s: string)
    ensures Trim(s) == s <==> IsTrimmed(s)
  {
    TrimStartDropsLeadingSpace(s);
    TrimEndDropsTrailingSpace(TrimStart(s));
    if IsTrimmed(s) && s != [] {
      assert TrimStart(s) == s;
    }
  }

  /** What `trim` returns is trimmed, so trimming twice is trimming once. */
  lemma TrimIdempotent(s: string)
    ensures IsTrimmed(Trim(s))
    ensures Trim(Trim(s)) == Trim(s)
  {
    var u, t := TrimStart(s), Trim(s);
    TrimStartDropsLeadingSpace(s);
    TrimEndDropsTrailingSpace(u);
    TrimFixedIffTrimmed(t);
    if t != [] {
      assert t[0] == u[0];
    }
  }

  /** The start index `slice(start)` uses on an array of length `n`. */
  function SliceStart(n: nat, start: int): (k: nat)
    ensures k <= n
  {
    if start < 0 then (if n + start < 0 then 0 else n + start)
    else if start < n then start else n
  }

  /** `s.slice(start)` */
  function SliceFrom<T>(s: seq<T>, start: int): (r: seq<T>)
    ensures |r| <= |s|
    ensures 0 <= start ==> |r| == if start < |s| then |s| - start else 0
    ensures start < 0 ==> |r| == if |s| < -start then |s| else -start
  {
    s[SliceStart(|s|, start)..]
  }

  /** `s.slice(-k)` for positive `k` is the last `min(k, |s|)` elements, in order. */
  lemma SliceFromNegative<T>(s: seq<T>, k: int)
    requires k > 0
    ensures |SliceFrom(s, -k)| == (if |s| < k then |s| else k)
    ensures SliceFrom(s, -k) == s[|s| - |SliceFrom(s, -k)|..]
  {
  }
}
