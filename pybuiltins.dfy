/**
 * The parts of Python's built-ins that the bot's logic depends on:
 * str.isspace and str.strip, BeautifulSoup's get_text(strip=True) over a
 * tag's text nodes, int() on a string, str() of an int, and the exceptions
 * the handlers can raise. str.split("\n") is here only so that a deal
 * message can be read back into its fields.
 */
module PyBuiltins {

  import opened Wrappers

  /** The exceptions that reach the tick's `except Exception` clause. */
  datatype Exception = HTTPError | NameError | KeyError

  /** A computation that either finishes with a value or raises. */
  datatype Outcome<+T> = Done(value: T) | Raised(error: Exception)

  /** str.isspace() for one character: the characters str.strip() removes. */
  predicate IsSpace(c: char) {
    || '\t' <= c <= '\r'
    || '\U{1C}' <= c <= ' '
    || c == '\U{85}' || c == '\U{A0}' || c == '\U{1680}'
    || '\U{2000}' <= c <= '\U{200A}'
    || c == '\U{2028}' || c == '\U{2029}' || c == '\U{202F}' || c == '\U{205F}'
    || c == '\U{3000}'
  }

  /**
   * The characters int() skips around its argument: the ASCII blanks
   * space, \t, \n, \v, \f, \r and the non-ASCII whitespace of
   * str.isspace(). The ASCII separators U+001C to U+001F, which
   * str.isspace() accepts, are not skipped: int("\x1c5") is a ValueError.
   */
  predicate IsIntSpace(c: char) {
    IsSpace(c) && !('\U{1C}' <= c <= '\U{1F}')
  }

  predicate IsDigit(c: char) {
    '0' <= c <= '9'
  }

  /** The index of the first character of s that is not in ws, or |s| if there is none. */
  function SpanStart(s: string, ws: char -> bool): (i: nat)
    ensures i <= |s|
    ensures forall k :: 0 <= k < i ==> ws(s[k])
    ensures i < |s| ==> !ws(s[i])
  {
    if s != [] && ws(s[0]) then 1 + SpanStart(s[1..], ws) else 0
  }

  /** One past the last character of s at or after lo that is not in ws, or lo if there is none. */
  function SpanEnd(s: string, lo: nat, ws: char -> bool): (j: nat)
    requires lo <= |s|
    ensures lo <= j <= |s|
    ensures forall k :: j <= k < |s| ==> ws(s[k])
    ensures lo < j ==> !ws(s[j - 1])
    decreases |s|
  {
    if lo < |s| && ws(s[|s| - 1]) then SpanEnd(s[..|s| - 1], lo, ws) else |s|
  }

  /** The slice of s between its leading and its trailing characters in ws. */
  function StripBy(s: string, ws: char -> bool): (r: string)
    ensures |r| <= |s|
    ensures r == [] || (!ws(r[0]) && !ws(r[|r| - 1]))
    ensures r == [] <==> forall k :: 0 <= k < |s| ==> ws(s[k])
  {
    var i := SpanStart(s, ws);
    var j := SpanEnd(s, i, ws);
    assert i == |s| ==> forall k :: 0 <= k < |s| ==> ws(s[k]);
    s[i..j]
  }

  /**
   * StripBy cuts off a run of ws characters at each end and nothing else:
   * the result is the input's slice from i to j, inner characters included.
   */
  lemma StripBySlice(s: string, ws: char -> bool) returns (i: nat, j: nat)
    ensures i <= j <= |s| && StripBy(s, ws) == s[i..j]
    ensures forall k :: 0 <= k < i ==> ws(s[k])
    ensures forall k :: j <= k < |s| ==> ws(s[k])
  {
    i := SpanStart(s, ws);
    j := SpanEnd(s, i, ws);
  }

  /** A string that neither starts nor ends with a ws character is its own strip. */
  lemma StripByTrimmed(s: string, ws: char -> bool)
    requires s == [] || (!ws(s[0]) && !ws(s[|s| - 1]))
    ensures StripBy(s, ws) == s
  {
    if s != [] {
      assert SpanStart(s, ws) == 0;
    }
  }

  /**
   * str.strip() with no argument: the slice of s from its first to its last
   * non-whitespace character.
   */
  function Strip(s: string): (r: string)
    ensures |r| <= |s|
    ensures r == [] || (!IsSpace(r[0]) && !IsSpace(r[|r| - 1]))
    ensures r == [] <==> forall k :: 0 <= k < |s| ==> IsSpace(s[k])
  {
    StripBy(s, IsSpace)
  }

  /**
   * Strip removes only leading and trailing whitespace: the result is a
   * slice of s, inner whitespace kept, and all that is cut off is whitespace.
   */
  lemma StripSlice(s: string) returns (i: nat, j: nat)
    ensures i <= j <= |s| && Strip(s) == s[i..j]
    ensures forall k :: 0 <= k < i ==> IsSpace(s[k])
    ensures forall k :: j <= k < |s| ==> IsSpace(s[k])
  {
    i, j := StripBySlice(s, IsSpace);
  }

  /** Every non-whitespace character of s is kept, at its place in the slice. */
  lemma StripKeeps(s: string, k: nat) returns (i: nat)
    requires k < |s| && !IsSpace(s[k])
    ensures i <= k && k - i < |Strip(s)| && Strip(s)[k - i] == s[k]
  {
    var j;
    i, j := StripSlice(s);
  }

  /** Stripping is idempotent. */
  lemma StripIdempotent(s: string)
    ensures Strip(Strip(s)) == Strip(s)
  {
    StripByTrimmed(Strip(s), IsSpace);
  }

  /**
   * get_text(strip=True) of a tag whose text nodes are `strings`: each node
   * stripped, the results joined with no separator. The joined text never
   * starts or ends with whitespace.
   */
  function GetText(strings: seq<string>): (t: string)
    ensures t == [] || (!IsSpace(t[0]) && !IsSpace(t[|t| - 1]))
    ensures t == [] <==> forall i :: 0 <= i < |strings| ==> Strip(strings[i]) == []
  {
    if strings == [] then [] else Strip(strings[0]) + GetText(strings[1..])
  }

  /**
   * The digits of a base-10 literal as int() accepts them: ASCII digits,
   * with single underscores allowed between two digits.
   */
  predicate IsDigitRun(t: string) {
    && |t| > 0
    && IsDigit(t[0]) && IsDigit(t[|t| - 1])
    && (forall k :: 0 <= k < |t| ==> IsDigit(t[k]) || t[k] == '_')
    && (forall k :: 0 < k < |t| && t[k] == '_' ==> t[k - 1] != '_')
  }

  /** The number a digit run denotes, underscores ignored. */
  function DigitsValue(t: string): nat {
    if t == [] then 0
    else
      var c := t[|t| - 1];
      if IsDigit(c) then 10 * DigitsValue(t[..|t| - 1]) + (c as int - '0' as int)
      else DigitsValue(t[..|t| - 1])
  }

  /**
   * int(s) for a string s: surrounding int() blanks are ignored, then one
   * optional sign and a digit run. Anything else is a ValueError (None here).
   */
  function ParseInt(s: string): (r: Option<int>)
    ensures r.Some? ==> |StripBy(s, IsIntSpace)| > 0
    ensures r.Some? && r.value < 0 ==> StripBy(s, IsIntSpace)[0] == '-'
  {
    var t := StripBy(s, IsIntSpace);
    if |t| > 0 && (t[0] == '-' || t[0] == '+') then
      if IsDigitRun(t[1..]) then
        var v: int := DigitsValue(t[1..]);
        Some(if t[0] == '-' then -v else v)
      else None
    else if IsDigitRun(t) then Some(DigitsValue(t))
    else None
  }

  /**
   * int() accepts only strings made of int() blanks, digits, underscores and
   * signs: any other character, a letter say, makes it raise ValueError.
   */
  lemma ParseIntAlphabet(s: string, k: nat)
    requires ParseInt(s).Some? && k < |s|
    ensures IsIntSpace(s[k]) || IsDigit(s[k]) || s[k] == '_' || s[k] == '+' || s[k] == '-'
  {
    var i, j := StripBySlice(s, IsIntSpace);
    var t := StripBy(s, IsIntSpace);
    if i <= k < j {
      assert t[k - i] == s[k];
      if k - i > 0 && (t[0] == '-' || t[0] == '+') {
        assert t[1..][k - i - 1] == t[k - i];
      }
    }
  }

  /** A blank or empty argument is not an integer. */
  lemma ParseIntBlank(s: string)
    requires forall k :: 0 <= k < |s| ==> IsIntSpace(s[k])
    ensures ParseInt(s) == None
  {
  }

  function Digit(d: nat): (c: char)
    requires d < 10
    ensures IsDigit(c) && c as int - '0' as int == d
  {
    (d + '0' as int) as char
  }

  /** str(n) for a natural number: its decimal digits, no leading zero. */
  function ShowNat(n: nat): (s: string)
    ensures |s| > 0 && forall k :: 0 <= k < |s| ==> IsDigit(s[k])
    ensures |s| > 1 ==> s[0] != '0'
  {
    if n < 10 then [Digit(n)] else ShowNat(n / 10) + [Digit(n % 10)]
  }

  /**
   * str(n) for an integer, as the f-strings of the replies render it: a
   * minus sign exactly for negative numbers, then decimal digits with no
   * leading zero.
   */
  function ShowInt(n: int): (s: string)
    ensures |s| > 0 && (s[0] == '-' <==> n < 0)
    ensures n < 0 ==> s[1..] == ShowNat(-n)
    ensures n >= 0 ==> s == ShowNat(n)
  {
    if n < 0 then "-" + ShowNat(-n) else ShowNat(n)
  }

  lemma {:induction false} DigitsValueShowNat(n: nat)
    ensures DigitsValue(ShowNat(n)) == n
  {
    if n >= 10 {
      var s := ShowNat(n);
      assert s[..|s| - 1] == ShowNat(n / 10);
      DigitsValueShowNat(n / 10);
    }
  }

  /** The digits str() prints form a digit run that int() reads back. */
  lemma ParseShowNat(n: nat)
    ensures IsDigitRun(ShowNat(n)) && DigitsValue(ShowNat(n)) == n
  {
    DigitsValueShowNat(n);
  }

  /** int(str(n)) == n: ParseInt reads back every integer the replies print. */
  lemma ParseShowInt(n: int)
    ensures ParseInt(ShowInt(n)) == Some(n)
  {
    var s := ShowInt(n);
    var m: nat := if n < 0 then -n else n;
    ParseShowNat(m);
    var digits := ShowNat(m);
    assert IsDigit(s[0]) || s[0] == '-';
    assert IsDigit(s[|s| - 1]);
    StripByTrimmed(s, IsIntSpace);
    assert StripBy(s, IsIntSpace) == s;
    if n < 0 {
      assert s[1..] == digits;
    } else {
      assert s == digits;
    }
  }

  /** str.split("\n"): the pieces between newlines, one more than there are newlines. */
  function SplitLines(s: string): (r: seq<string>)
    ensures |r| > 0
  {
    if s == [] then [""]
    else if s[0] == '\n' then [""] + SplitLines(s[1..])
    else
      var rest := SplitLines(s[1..]);
      [[s[0]] + rest[0]] + rest[1..]
  }

  lemma {:induction false} SplitLinesPlain(a: string)
    requires '\n' !in a
    ensures SplitLines(a) == [a]
  {
    if a != [] {
      SplitLinesPlain(a[1..]);
      assert [a[0]] + a[1..] == a;
    }
  }

  /** Splitting a line followed by a newline and more text yields that line first. */
  lemma {:induction false} SplitLinesCons(a: string, b: string)
    requires '\n' !in a
    ensures SplitLines(a + "\n" + b) == [a] + SplitLines(b)
  {
    if a == [] {
      assert a + "\n" + b == "\n" + b;
    } else {
      assert (a + "\n" + b)[1..] == a[1..] + "\n" + b;
      SplitLinesCons(a[1..], b);
      assert [a[0]] + a[1..] == a;
    }
  }
}
