/**
 * The JavaScript string built-ins the harness relies on: `toLowerCase` (on ASCII letters),
 * `trim` (with ECMAScript's whitespace and line-terminator set) and the decimal rendering
 * of a non-negative integer, as in a template literal.
 */
module Text {

  predicate IsUpper(c: char) { 'A' <= c <= 'Z' }

  predicate IsAsciiAlnum(c: char) { 'a' <= c <= 'z' || 'A' <= c <= 'Z' || '0' <= c <= '9' }

  function LowerChar(c: char): (d: char)
    ensures !IsUpper(d)
    ensures IsUpper(c) ==> d as int == c as int + 32
    ensures !IsUpper(c) ==> d == c
  {
    if IsUpper(c) then (c as int + 32) as char else c
  }

  /** `s.toLowerCase()`, restricted to the ASCII letters. */
  function Lower(s: string): string {
    seq(|s|, i requires 0 <= i < |s| => LowerChar(s[i]))
  }

  /** WhiteSpace and LineTerminator of ECMAScript, the characters `trim` removes. */
  predicate IsSpace(c: char) {
    || c == '\t' || c == '\n' || c == '\U{000B}' || c == '\U{000C}' || c == '\r' || c == ' '
    || c == '\U{00A0}' || c == '\U{1680}' || ('\U{2000}' <= c <= '\U{200A}')
    || c == '\U{2028}' || c == '\U{2029}' || c == '\U{202F}' || c == '\U{205F}'
    || c == '\U{3000}' || c == '\U{FEFF}'
  }

  predicate AllSpace(s: string) { forall i :: 0 <= i < |s| ==> IsSpace(s[i]) }

  function TrimStart(s: string): string {
    if |s| > 0 && IsSpace(s[0]) then TrimStart(s[1..]) else s
  }

  function TrimEnd(s: string): string {
    if |s| > 0 && IsSpace(s[|s| - 1]) then TrimEnd(s[..|s| - 1]) else s
  }

  /** `s.trim()`. */
  function Trim(s: string): string {
    TrimEnd(TrimStart(s))
  }

  /** `s.toLowerCase().trim()`, the normalisation of every friendly-name lookup. */
  function Normalize(s: string): string {
    Trim(Lower(s))
  }

  predicate StartsWith(s: string, prefix: string) {
    |prefix| <= |s| && s[..|prefix|] == prefix
  }

  function DigitChar(d: nat): (c: char)
    requires d < 10
    ensures '0' <= c <= '9'
  {
    ('0' as int + d) as char
  }

  /** The decimal rendering of `n`, as `${n}` produces for a non-negative integer. */
  function Decimal(n: nat): (r: string)
    ensures |r| >= 1
    ensures forall i :: 0 <= i < |r| ==> '0' <= r[i] <= '9'
    ensures |r| > 1 ==> r[0] != '0'
  {
    if n < 10 then [DigitChar(n)] else Decimal(n / 10) + [DigitChar(n % 10)]
  }

  // ---------------------------------------------------------------------------
  // Facts about the normalisation

  lemma {:induction false} TrimStartSpacesPrefix(w: string, t: string)
    requires AllSpace(w)
    ensures TrimStart(w + t) == TrimStart(t)
    decreases |w|
  {
    if w != [] {
      assert (w + t)[1..] == w[1..] + t;
      TrimStartSpacesPrefix(w[1..], t);
    } else {
      assert w + t == t;
    }
  }

  lemma {:induction false} TrimEndSpacesSuffix(t: string, w: string)
    requires AllSpace(w)
    ensures TrimEnd(t + w) == TrimEnd(t)
    decreases |w|
  {
    if w != [] {
      assert (t + w)[..|t + w| - 1] == t + w[..|w| - 1];
      TrimEndSpacesSuffix(t, w[..|w| - 1]);
    } else {
      assert t + w == t;
    }
  }

  lemma {:induction false} TrimStartAppend(t: string, w: string)
    ensures TrimStart(t + w) == if TrimStart(t) == [] then TrimStart(w) else TrimStart(t) + w
    decreases |t|
  {
    if t == [] {
      assert t + w == w;
    } else if IsSpace(t[0]) {
      assert (t + w)[1..] == t[1..] + w;
      TrimStartAppend(t[1..], w);
    }
  }

  lemma AllSpaceTrimsAway(w: string)
    requires AllSpace(w)
    ensures TrimStart(w) == [] && TrimEnd(w) == []
  {
  }

  /** Surrounding whitespace does not change what `trim` returns. */
  lemma {:induction false} TrimIgnoresPadding(pre: string, t: string, post: string)
    requires AllSpace(pre) && AllSpace(post)
    ensures Trim(pre + t + post) == Trim(t)
  {
    assert pre + t + post == pre + (t + post);
    TrimStartSpacesPrefix(pre, t + post);
    TrimStartAppend(t, post);
    if TrimStart(t) == [] {
      AllSpaceTrimsAway(post);
    } else {
      TrimEndSpacesSuffix(TrimStart(t), post);
    }
  }

  lemma LowerSpacesUnchanged(w: string)
    requires AllSpace(w)
    ensures Lower(w) == w
  {
  }

  lemma LowerConcat(a: string, b: string)
    ensures Lower(a + b) == Lower(a) + Lower(b)
  {
  }

  /**
   * Two names that differ only in ASCII letter case and in surrounding whitespace
   * normalise to the same key.
   */
  lemma NormalizeIgnoresCaseAndPadding(pre: string, a: string, post: string, b: string)
    requires AllSpace(pre) && AllSpace(post)
    requires Lower(a) == Lower(b)
    ensures Normalize(pre + a + post) == Normalize(b)
  {
    LowerConcat(pre + a, post);
    LowerConcat(pre, a);
    LowerSpacesUnchanged(pre);
    LowerSpacesUnchanged(post);
    TrimIgnoresPadding(pre, Lower(a), post);
  }

  predicate NoUpper(s: string) { forall i :: 0 <= i < |s| ==> !IsUpper(s[i]) }

  lemma LowerHasNoUpper(s: string)
    ensures NoUpper(Lower(s))
  {
  }

  lemma LowerKeepsNoUpper(s: string)
    requires NoUpper(s)
    ensures Lower(s) == s
  {
  }

  lemma {:induction false} TrimStartIsSuffix(s: string)
    ensures |TrimStart(s)| <= |s| && TrimStart(s) == s[|s| - |TrimStart(s)|..]
    ensures TrimStart(s) == [] || !IsSpace(TrimStart(s)[0])
    decreases |s|
  {
    if |s| > 0 && IsSpace(s[0]) {
      TrimStartIsSuffix(s[1..]);
    }
  }

  lemma {:induction false} TrimEndIsPrefix(s: string)
    ensures |TrimEnd(s)| <= |s| && TrimEnd(s) == s[..|TrimEnd(s)|]
    ensures TrimEnd(s) == [] || !IsSpace(TrimEnd(s)[|TrimEnd(s)| - 1])
    decreases |s|
  {
    if |s| > 0 && IsSpace(s[|s| - 1]) {
      TrimEndIsPrefix(s[..|s| - 1]);
    }
  }

  /** Normalising a normalised name changes nothing. */
  lemma NormalizeIdempotent(s: string)
    ensures Normalize(Normalize(s)) == Normalize(s)
  {
    var l := Lower(s);
    var ts := TrimStart(l);
    var t := TrimEnd(ts);
    LowerHasNoUpper(s);
    TrimStartIsSuffix(l);
    TrimEndIsPrefix(ts);
    assert NoUpper(t) by {
      forall i | 0 <= i < |t| ensures !IsUpper(t[i]) {
        assert t[i] == l[|l| - |ts| + i];
      }
    }
    LowerKeepsNoUpper(t);
    assert TrimStart(t) == t by {
      if t != [] { assert t[0] == ts[0]; }
    }
  }

  /** A name that is already lower case and trimmed is its own normal form. */
  lemma NormalFormFixed(s: string)
    requires NoUpper(s) && (s == [] || (!IsSpace(s[0]) && !IsSpace(s[|s| - 1])))
    ensures Normalize(s) == s
  {
    LowerKeepsNoUpper(s);
  }
}
