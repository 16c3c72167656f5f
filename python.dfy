/**
 * The pieces of Python's built-in behaviour that the Amcache plugins rely on:
 * the two exceptions they can raise, `int(text, base)`, the `'{:d}'` rendering
 * of an integer, `'\n'.join`, `str.split('\n')`, the slice `text[4:]` and the
 * truthiness test `if x:` on an optional integer.
 */
module Python {

  /** The exceptions a decoder can raise; the plugins never catch them, except
      for the one `except ValueError` around the integer stage of a fallback. */
  datatype PyError = TypeError | ValueError

  datatype Option<+T> = None | Some(value: T)

  /** A Python expression that either yields a value or raises. */
  datatype Result<+T> = Success(value: T) | Failure(error: PyError) {
    predicate IsFailure() { Failure? }

    function PropagateFailure<U>(): Result<U>
      requires Failure?
    {
      Failure(error)
    }

    function Extract(): T
      requires Success?
    {
      value
    }

    function GetOr(default: T): T {
      match this
      case Success(v) => v
      case Failure(_) => default
    }
  }

  /** How a Python statement that returns nothing ends: normally, or by raising. */
  datatype Outcome = Pass | Fail(error: PyError)

  /** `if x:` on a value that is None or an int. */
  predicate Truthy(x: Option<int>) {
    x.Some? && x.value != 0
  }

  // ---------------------------------------------------------------------------
  // int(text, base)
  // ---------------------------------------------------------------------------

  /** The characters `int()` strips from both ends of its argument. */
  predicate IsSpace(c: char) {
    || ('\t' <= c <= '\r')
    || ('\U{1C}' <= c <= ' ')
    || c == '\U{85}' || c == '\U{A0}' || c == '\U{1680}'
    || ('\U{2000}' <= c <= '\U{200A}')
    || c == '\U{2028}' || c == '\U{2029}' || c == '\U{202F}' || c == '\U{205F}'
    || c == '\U{3000}'
  }

  function StripLeft(s: string): string {
    if s != [] && IsSpace(s[0]) then StripLeft(s[1..]) else s
  }

  function StripRight(s: string): string {
    if s != [] && IsSpace(s[|s| - 1]) then StripRight(s[..|s| - 1]) else s
  }

  function Strip(s: string): string {
    StripRight(StripLeft(s))
  }

  /** The two bases the plugins pass to `int()`. */
  type Base = b: nat | b == 10 || b == 16 witness 10

  /** The value of an ASCII digit or letter as a base-16 digit, 16 for any other character. */
  function DigitValue(c: char): nat {
    if '0' <= c <= '9' then c as nat - '0' as nat
    else if 'a' <= c <= 'f' then c as nat - 'a' as nat + 10
    else if 'A' <= c <= 'F' then c as nat - 'A' as nat + 10
    else 16
  }

  predicate IsDigit(c: char, base: Base) {
    DigitValue(c) < base
  }

  /** Digits of `base`, with single underscores allowed between two digits. */
  predicate WellFormedDigits(ds: string, base: Base) {
    && |ds| > 0
    && ds[0] != '_'
    && ds[|ds| - 1] != '_'
    && (forall i :: 0 <= i < |ds| ==> ds[i] == '_' || IsDigit(ds[i], base))
    && (forall i :: 0 <= i < |ds| - 1 ==> ds[i] == '_' ==> ds[i + 1] != '_')
  }

  /** The number the digits of `ds` denote, underscores skipped. */
  function DigitsValue(ds: string, base: Base): nat {
    if ds == [] then 0
    else
      var c := ds[|ds| - 1];
      if c == '_' then DigitsValue(ds[..|ds| - 1], base)
      else DigitsValue(ds[..|ds| - 1], base) * base + (if IsDigit(c, base) then DigitValue(c) else 0)
  }

  /** Base 16 admits a "0x" or "0X" prefix, optionally followed by one underscore. */
  function DropHexPrefix(u: string): string {
    if |u| >= 2 && u[0] == '0' && (u[1] == 'x' || u[1] == 'X') then
      var rest := u[2..];
      if rest != [] && rest[0] == '_' then rest[1..] else rest
    else u
  }

  /** `int(s, base)`: None where Python raises ValueError.  Text that is blank, or whose last
      non-blank character is not a digit, raises; only a leading `-` gives a negative number. */
  function ParseInt(s: string, base: Base): (r: Option<int>)
    ensures Strip(s) == [] ==> r == None
    ensures r.Some? ==> Strip(s) != [] && IsDigit(Strip(s)[|Strip(s)| - 1], base)
    ensures r.Some? && r.value < 0 ==> Strip(s)[0] == '-'
  {
    var t := Strip(s);
    var negative := t != [] && t[0] == '-';
    var unsigned := if t != [] && (t[0] == '-' || t[0] == '+') then t[1..] else t;
    var body := if base == 16 then DropHexPrefix(unsigned) else unsigned;
    if WellFormedDigits(body, base) then
      var n: int := DigitsValue(body, base);
      Some(if negative then -n else n)
    else None
  }

  // ---------------------------------------------------------------------------
  // Rendering integers as text
  // ---------------------------------------------------------------------------

  function DigitChar(d: nat): char
    requires d < 16
  {
    if d < 10 then ('0' as int + d) as char else ('a' as int + d - 10) as char
  }

  /** The shortest digit string of `n` in `base`, lower-case letters for base 16. */
  function NatText(n: nat, base: Base): string
    decreases n
  {
    if n < base then [DigitChar(n)] else NatText(n / base, base) + [DigitChar(n % base)]
  }

  /** `'{:d}'.format(n)`. */
  function DecimalText(n: int): string {
    if n < 0 then "-" + NatText(-n, 10) else NatText(n, 10)
  }

  /** `'{:x}'.format(n)` for a non-negative `n`. */
  function HexText(n: nat): string {
    NatText(n, 16)
  }

  lemma {:induction false} NatTextParses(n: nat, base: Base)
    ensures WellFormedDigits(NatText(n, base), base)
    ensures DigitsValue(NatText(n, base), base) == n
    ensures forall i :: 0 <= i < |NatText(n, base)| ==> IsDigit(NatText(n, base)[i], base)
    decreases n
  {
    var t := NatText(n, base);
    if n < base {
      assert t == [DigitChar(n)];
      assert DigitsValue(t, base) == DigitsValue([], base) * base + DigitValue(DigitChar(n));
    } else {
      var q, r := n / base, n % base;
      NatTextParses(q, base);
      var front := NatText(q, base);
      assert t == front + [DigitChar(r)];
      assert t[..|t| - 1] == front;
      assert DigitsValue(t, base) == DigitsValue(front, base) * base + r;
      forall i | 0 <= i < |t|
        ensures IsDigit(t[i], base)
      {
        if i < |front| { assert t[i] == front[i]; }
      }
    }
  }

  /** A string whose ends are not blank is left alone by `Strip`. */
  lemma {:induction false} StripKeeps(s: string)
    requires s != [] && !IsSpace(s[0]) && !IsSpace(s[|s| - 1])
    ensures Strip(s) == s
  {
  }

  /** `int('{:d}'.format(n))` gives back `n`. */
  lemma {:induction false} DecimalTextParses(n: int)
    ensures ParseInt(DecimalText(n), 10) == Some(n)
  {
    var m: nat := if n < 0 then -n else n;
    NatTextParses(m, 10);
    var digits := NatText(m, 10);
    assert !IsSpace(digits[0]) by { assert IsDigit(digits[0], 10); }
    assert !IsSpace(digits[|digits| - 1]) by { assert IsDigit(digits[|digits| - 1], 10); }
    var t := DecimalText(n);
    StripKeeps(t);
    if n < 0 {
      assert t == "-" + digits;
      assert t[1..] == digits;
    } else {
      assert t == digits;
      assert IsDigit(t[0], 10);
    }
  }

  /** `int(text, 16)` reads back the lower-case hex rendering of `n`. */
  lemma {:induction false} HexTextParses(n: nat)
    ensures ParseInt(HexText(n), 16) == Some(n)
  {
    NatTextParses(n, 16);
    var digits := HexText(n);
    assert IsDigit(digits[0], 16);
    assert !IsSpace(digits[|digits| - 1]) by { assert IsDigit(digits[|digits| - 1], 16); }
    StripKeeps(digits);
    assert |digits| >= 2 ==> digits[1] != 'x' && digits[1] != 'X' by {
      if |digits| >= 2 { assert IsDigit(digits[1], 16); }
    }
    assert DropHexPrefix(digits) == digits;
  }

  /** `int(text, 16)` also reads it behind a "0x" prefix. */
  lemma {:induction false} PrefixedHexTextParses(n: nat)
    ensures ParseInt("0x" + HexText(n), 16) == Some(n)
  {
    NatTextParses(n, 16);
    var digits := HexText(n);
    var t := "0x" + digits;
    assert !IsSpace(t[|t| - 1]) by { assert t[|t| - 1] == digits[|digits| - 1]; assert IsDigit(digits[|digits| - 1], 16); }
    StripKeeps(t);
    assert t[2..] == digits;
    assert digits[0] != '_' by { assert IsDigit(digits[0], 16); }
    assert DropHexPrefix(t) == digits;
  }

  /** Text that holds a character that is neither a hex digit, an underscore,
      a sign, an 'x' nor blank can never be read by `int(text, 16)`. */
  lemma {:induction false} ForeignCharacterRejected(s: string, k: nat)
    requires k < |s|
    requires !IsDigit(s[k], 16) && !IsSpace(s[k])
    requires s[k] !in {'_', '-', '+', 'x', 'X'}
    ensures ParseInt(s, 16) == None
  {
    var t := Strip(s);
    var i := StripInterior(s, k);
    assert t[i] == s[k];
    var negative := t != [] && t[0] == '-';
    var unsigned := if t != [] && (t[0] == '-' || t[0] == '+') then t[1..] else t;
    var j := if t != [] && (t[0] == '-' || t[0] == '+') then i - 1 else i;
    assert 0 <= j < |unsigned| && unsigned[j] == s[k];
    var body := DropHexPrefix(unsigned);
    var d := |unsigned| - |body|;
    assert body == unsigned[d..];
    assert j >= d;
    assert body[j - d] == s[k];
  }

  /** Where a character that is not blank ends up after `Strip`. */
  lemma {:induction false} StripInterior(s: string, k: nat) returns (i: nat)
    requires k < |s| && !IsSpace(s[k])
    ensures i < |Strip(s)| && Strip(s)[i] == s[k]
    ensures |s| - |Strip(s)| >= k - i
  {
    var l := StripLeftInterior(s, k);
    i := StripRightInterior(StripLeft(s), l);
  }

  lemma {:induction false} StripLeftInterior(s: string, k: nat) returns (i: nat)
    requires k < |s| && !IsSpace(s[k])
    ensures i < |StripLeft(s)| && StripLeft(s)[i] == s[k]
    ensures |s| - |StripLeft(s)| == k - i
    decreases |s|
  {
    if s != [] && IsSpace(s[0]) {
      assert k > 0;
      i := StripLeftInterior(s[1..], k - 1);
    } else {
      i := k;
    }
  }

  lemma {:induction false} StripRightInterior(s: string, k: nat) returns (i: nat)
    requires k < |s| && !IsSpace(s[k])
    ensures i == k && k < |StripRight(s)| && StripRight(s)[k] == s[k]
    ensures |StripRight(s)| <= |s|
    decreases |s|
  {
    if s != [] && IsSpace(s[|s| - 1]) {
      assert k < |s| - 1;
      i := StripRightInterior(s[..|s| - 1], k);
    } else {
      i := k;
    }
  }

  // ---------------------------------------------------------------------------
  // '\n'.join and str.split('\n')
  // ---------------------------------------------------------------------------

  /** `'\n'.join(items)`. */
  function JoinLines(items: seq<string>): string {
    if items == [] then ""
    else if |items| == 1 then items[0]
    else items[0] + "\n" + JoinLines(items[1..])
  }

  /** The one-character strings Python iterates over when it joins a `str`. */
  function Chars(s: string): (r: seq<string>)
    ensures |r| == |s| && forall i :: 0 <= i < |s| ==> r[i] == [s[i]]
  {
    seq(|s|, i requires 0 <= i < |s| => [s[i]])
  }

  /** `text.split('\n')`. */
  function SplitLines(s: string): (r: seq<string>)
    ensures |r| > 0
  {
    if s == [] then [""]
    else
      var rest := SplitLines(s[1..]);
      if s[0] == '\n' then [""] + rest
      else [[s[0]] + rest[0]] + rest[1..]
  }

  lemma {:induction false} SplitLinesAfterLine(a: string, b: string)
    requires '\n' !in a
    ensures SplitLines(a + "\n" + b) == [a] + SplitLines(b)
  {
    if a == [] {
      assert a + "\n" + b == "\n" + b;
      assert ("\n" + b)[1..] == b;
    } else {
      SplitLinesAfterLine(a[1..], b);
      assert (a + "\n" + b)[1..] == a[1..] + "\n" + b;
      assert [a[0]] + a[1..] == a;
    }
  }

  lemma {:induction false} SplitLinesOfLine(a: string)
    requires '\n' !in a
    ensures SplitLines(a) == [a]
  {
    if a != [] {
      SplitLinesOfLine(a[1..]);
      assert [a[0]] + a[1..] == a;
    }
  }

  /** Splitting a joined list of lines gives the lines back, in order. */
  lemma {:induction false} SplitJoinedLines(items: seq<string>)
    requires items != []
    requires forall i :: 0 <= i < |items| ==> '\n' !in items[i]
    ensures SplitLines(JoinLines(items)) == items
  {
    if |items| == 1 {
      SplitLinesOfLine(items[0]);
    } else {
      SplitJoinedLines(items[1..]);
      SplitLinesAfterLine(items[0], JoinLines(items[1..]));
      assert [items[0]] + items[1..] == items;
    }
  }

  /** The joined text is the items' characters plus one separator between neighbours. */
  lemma {:induction false} JoinedLength(items: seq<string>)
    requires items != []
    ensures |JoinLines(items)| == TotalLength(items) + |items| - 1
  {
    if |items| > 1 {
      JoinedLength(items[1..]);
    }
  }

  function TotalLength(items: seq<string>): nat {
    if items == [] then 0 else |items[0]| + TotalLength(items[1..])
  }

  // ---------------------------------------------------------------------------
  // text[4:]
  // ---------------------------------------------------------------------------

  /** `text[4:]`: Python slices past the end to the empty string instead of raising. */
  function DropFour(text: string): (r: string)
    ensures |text| >= 4 ==> text == text[..4] + r
    ensures |text| <= 4 ==> r == ""
  {
    if |text| >= 4 then text[4..] else ""
  }
}
