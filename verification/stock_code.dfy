/**
  The exchange prefix added to a mainland-China stock code before it is
  sent to the quote service: `sh` for Shanghai codes (leading `6`), `sz`
  for Shenzhen codes (leading `0` or `3`), after surrounding whitespace is
  removed as Python's `str.strip()` removes it.
 */
module StockCode {

  /** The characters Python 3's `str.strip()` removes when given no argument. */
  predicate IsSpace(c: char) {
    || ('\t' <= c <= '\r')
    || ('\U{1C}' <= c <= ' ')
    || c == '\U{85}' || c == '\U{A0}' || c == '\U{1680}'
    || ('\U{2000}' <= c <= '\U{200A}')
    || c == '\U{2028}' || c == '\U{2029}' || c == '\U{202F}'
    || c == '\U{205F}' || c == '\U{3000}'
  }

  /** Neither end of `s` is whitespace. */
  predicate IsTrimmed(s: string) {
    |s| == 0 || (!IsSpace(s[0]) && !IsSpace(s[|s| - 1]))
  }

  /** The index of the first character at or after `i` that is not
      whitespace, or `|s|` when there is none. */
  function TrimStart(s: string, i: nat): (a: nat)
    requires i <= |s|
    ensures i <= a <= |s|
    ensures forall k :: i <= k < a ==> IsSpace(s[k])
    ensures a == |s| || !IsSpace(s[a])
    decreases |s| - i
  {
    if i < |s| && IsSpace(s[i]) then TrimStart(s, i + 1) else i
  }

  /** The index just past the last character before `j` that is not
      whitespace, looking no further back than `a`. */
  function TrimEnd(s: string, a: nat, j: nat): (b: nat)
    requires a <= j <= |s|
    ensures a <= b <= j
    ensures forall k :: b <= k < j ==> IsSpace(s[k])
    ensures b == a || !IsSpace(s[b - 1])
    decreases j
  {
    if j > a && IsSpace(s[j - 1]) then TrimEnd(s, a, j - 1) else j
  }

  /** `s` without whitespace at either end. */
  function Strip(s: string): (r: string)
    ensures IsTrimmed(r)
  {
    var a := TrimStart(s, 0);
    s[a..TrimEnd(s, a, |s|)]
  }

  /** Stripping removes only whitespace, and only at the ends: the result is
      a slice `s[a..b]` of `s`, and everything outside it is whitespace. */
  lemma StripIsSlice(s: string)
    ensures exists a, b :: (
              && 0 <= a <= b <= |s|
              && Strip(s) == s[a..b]
              && (forall k :: 0 <= k < a ==> IsSpace(s[k]))
              && (forall k :: b <= k < |s| ==> IsSpace(s[k])))
  {
    var a := TrimStart(s, 0);
    var b := TrimEnd(s, a, |s|);
    assert Strip(s) == s[a..b];
  }

  /** A string with no whitespace at either end is its own stripped form. */
  lemma StripTrimmed(s: string)
    requires IsTrimmed(s)
    ensures Strip(s) == s
  {
    assert TrimStart(s, 0) == 0;
  }

  /** Stripping twice is the same as stripping once. */
  lemma StripIdempotent(s: string)
    ensures Strip(Strip(s)) == Strip(s)
  {
    StripTrimmed(Strip(s));
  }

  /** The exchange prefix for an already stripped code. */
  function ExchangePrefix(code: string): string {
    if |code| > 0 && code[0] == '6' then "sh"
    else if |code| > 0 && (code[0] == '0' || code[0] == '3') then "sz"
    else ""
  }

  /** The code as the quote service expects it. */
  function PrefixedCode(code: string): (r: string)
    ensures var c := Strip(code);
      && |r| >= |c|
      && r[|r| - |c|..] == c
      && (|c| > 0 && c[0] == '6' ==> r[..|r| - |c|] == "sh")
      && (|c| > 0 && (c[0] == '0' || c[0] == '3') ==> r[..|r| - |c|] == "sz")
      && (|c| == 0 || (c[0] != '6' && c[0] != '0' && c[0] != '3') ==> r == c)
  {
    var c := Strip(code);
    ExchangePrefix(c) + c
  }

  /** Prefixing an already prefixed code changes nothing: the result starts
      with `s` when a prefix was added, and is stripped when none was. */
  lemma PrefixedCodeIdempotent(code: string)
    ensures PrefixedCode(PrefixedCode(code)) == PrefixedCode(code)
  {
    var c := Strip(code);
    var r := PrefixedCode(code);
    if ExchangePrefix(c) == "" {
      StripIdempotent(code);
    } else {
      assert IsTrimmed(r);
      StripTrimmed(r);
      assert r[0] == 's';
    }
  }
}
