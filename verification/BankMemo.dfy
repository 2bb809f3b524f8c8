/** Reading an order code back out of a bank memo (sepay.provider.ts). */
module BankMemo {
  import opened Common
  import opened Text

  const KEYWORD := "OPENFLY"

  /** The text shown in the QR code for an order code. */
  function TransferContent(code: string): string {
    KEYWORD + code
  }

  predicate IsSeparator(c: char) {
    IsSpace(c) || c == '_' || c == '-'
  }

  /** s starts with the keyword, in any mixture of cases. */
  predicate StartsWithKeyword(s: string) {
    |KEYWORD| <= |s| && forall k :: 0 <= k < |KEYWORD| ==> Upper(s[k]) == KEYWORD[k]
  }

  /** What follows the keyword: an optional separator, then a greedy run of at
      least six digits.  The regular expression first tries to consume the
      separator and then to skip it. */
  function CodeAfterKeyword(rest: string): Option<string> {
    if rest != [] && IsSeparator(rest[0]) && 6 <= |DigitPrefix(rest[1..])| then
      Some(DigitPrefix(rest[1..]))
    else if 6 <= |DigitPrefix(rest)| then Some(DigitPrefix(rest))
    else None
  }

  /** The capture group when the pattern matches at the start of s. */
  function CodeHere(s: string): Option<string> {
    if StartsWithKeyword(s) then CodeAfterKeyword(s[|KEYWORD|..]) else None
  }

  /** The capture group of the leftmost match; an empty memo yields nothing. */
  function ExtractOrderCode(s: string): Option<string> {
    if CodeHere(s).Some? then CodeHere(s)
    else if s == [] then None
    else ExtractOrderCode(s[1..])
  }

  lemma CodeAfterKeywordStops(tail: string, rest: string)
    requires StartsWithKeyword(rest)
    ensures CodeAfterKeyword(tail + rest) == CodeAfterKeyword(tail)
  {
    assert Upper(rest[0]) == KEYWORD[0] == 'O';
    DigitPrefixStops(tail, rest);
    if tail != [] {
      assert (tail + rest)[1..] == tail[1..] + rest;
      DigitPrefixStops(tail[1..], rest);
    }
  }

  /** A keyword cannot straddle the start of another one: its first letter
      occurs nowhere else in it. */
  lemma KeywordsDoNotOverlap(p: string, rest: string)
    requires 0 < |p| < |KEYWORD| && StartsWithKeyword(rest)
    ensures !StartsWithKeyword(p + rest)
  {
    assert Upper((p + rest)[|p|]) == Upper(rest[0]) == KEYWORD[0];
    assert KEYWORD[|p|] != KEYWORD[0];
  }

  /** Text that starts with a keyword cannot change what a position before it
      yields: no keyword straddles the boundary and no run of digits crosses it. */
  lemma CodeHereStops(p: string, rest: string)
    requires p != [] && StartsWithKeyword(rest)
    ensures CodeHere(p + rest) == CodeHere(p)
  {
    if |p| < |KEYWORD| {
      KeywordsDoNotOverlap(p, rest);
    } else {
      assert forall k :: 0 <= k < |KEYWORD| ==> (p + rest)[k] == p[k];
      assert (p + rest)[|KEYWORD|..] == p[|KEYWORD|..] + rest;
      CodeAfterKeywordStops(p[|KEYWORD|..], rest);
    }
  }

  lemma {:induction false} ExtractSkipsPrefix(p: string, rest: string)
    requires StartsWithKeyword(rest) && CodeHere(rest).Some?
    ensures ExtractOrderCode(p + rest) ==
            if ExtractOrderCode(p).Some? then ExtractOrderCode(p) else CodeHere(rest)
  {
    if p == [] {
      assert p + rest == rest;
    } else {
      CodeHereStops(p, rest);
      assert (p + rest)[1..] == p[1..] + rest;
      ExtractSkipsPrefix(p[1..], rest);
    }
  }

  /** The whole digit run behind the optional separator is read. */
  lemma CodeAfterSeparator(sep: string, code: string, suffix: string)
    requires sep == [] || (|sep| == 1 && IsSeparator(sep[0]))
    requires AllDigits(code) && 6 <= |code|
    ensures CodeAfterKeyword(sep + (code + suffix)) == Some(code + DigitPrefix(suffix))
  {
    DigitPrefixExtends(code, suffix);
    if sep == [] {
      assert sep + (code + suffix) == code + suffix;
      CodeWithoutSeparator(code + suffix);
    } else {
      assert sep == [sep[0]];
    }
  }

  lemma CodeWithoutSeparator(digits: string)
    requires 6 <= |DigitPrefix(digits)|
    ensures CodeAfterKeyword(digits) == Some(DigitPrefix(digits))
  {
    assert IsDigit(digits[0]);
  }

  /** Complete answer for a memo that contains an order code of at least six
      digits after the keyword, in any case and with or without a separator: an
      earlier code in the prefix wins; otherwise the whole digit run is read. */
  lemma MemoReading(p: string, kw: string, sep: string, code: string, suffix: string)
    requires |kw| == |KEYWORD| && StartsWithKeyword(kw)
    requires sep == [] || (|sep| == 1 && IsSeparator(sep[0]))
    requires AllDigits(code) && 6 <= |code|
    ensures ExtractOrderCode(p + (kw + (sep + (code + suffix)))) ==
            if ExtractOrderCode(p).Some? then ExtractOrderCode(p) else Some(code + DigitPrefix(suffix))
  {
    CodeAfterSeparator(sep, code, suffix);
    ExtractSkipsPrefix(p, kw + (sep + (code + suffix)));
  }

  /** Round trip: behind a prefix that yields nothing, the code comes back
      exactly when the next character is not one more digit. */
  lemma MemoRoundTrip(p: string, code: string, suffix: string)
    requires ExtractOrderCode(p) == None
    requires AllDigits(code) && 6 <= |code|
    ensures ExtractOrderCode(p + TransferContent(code) + suffix) == Some(code) <==>
            (suffix == [] || !IsDigit(suffix[0]))
  {
    MemoReading(p, KEYWORD, [], code, suffix);
    assert [] + (code + suffix) == code + suffix;
    assert p + TransferContent(code) + suffix == p + (KEYWORD + (code + suffix));
    assert code + DigitPrefix(suffix) == code <==> DigitPrefix(suffix) == [] by {
      assert |code + DigitPrefix(suffix)| == |code| + |DigitPrefix(suffix)|;
    }
  }
}
