/** The pieces of the Java runtime that the client's logic depends on: the
    exceptions it can raise, `String.format("%s", …)` of a possibly null string,
    the decimal text of an `int`, and `String.split` on a one-character pattern. */
module JavaLang {
  import opened Wrappers

  /** The exceptions that escape the library's methods. */
  datatype Error =
    | CatchoomException(message: string)  // the library's own checked exception
    | JsonException(message: string)      // org.json's unchecked exception
    | IndexOutOfBounds(index: int)        // ArrayIndexOutOfBoundsException
    | NullPointer                         // NullPointerException
    | IoException(message: string)        // a failed HTTP exchange

  /** `String.format("%s", s)`, and string concatenation, print null as "null". */
  function Str(s: Option<string>): string {
    match s
    case Some(v) => v
    case None => "null"
  }

  /** `String.valueOf(boolean)`. */
  function BoolText(b: bool): string {
    if b then "true" else "false"
  }

  // ---------------------------------------------------------------------------
  // Decimal text of an integer (`"" + n`, `String.format("%s", n)`)

  predicate IsDigit(c: char) {
    '0' <= c <= '9'
  }

  function DigitChar(d: nat): (c: char)
    requires d < 10
    ensures IsDigit(c) && c as int - '0' as int == d
  {
    ('0' as int + d) as char
  }

  /** The digits of `n`, most significant first, without leading zeros. */
  function NatDigits(n: nat): (s: string)
    ensures |s| > 0 && forall i :: 0 <= i < |s| ==> IsDigit(s[i])
    ensures (|s| > 1) == (n >= 10)
    decreases n
  {
    if n < 10 then [DigitChar(n)] else NatDigits(n / 10) + [DigitChar(n % 10)]
  }

  /** The decimal text of an int: a minus sign for negatives, then the digits. */
  function DecimalString(n: int): (s: string)
    ensures |s| > 0
    ensures n >= 0 ==> forall i :: 0 <= i < |s| ==> IsDigit(s[i])
    ensures n < 0 ==> s[0] == '-'
  {
    if n < 0 then "-" + NatDigits(-n) else NatDigits(n)
  }

  /** The value of a string of digits (the partner of NatDigits). */
  function DigitsValue(s: string): nat
    requires forall i :: 0 <= i < |s| ==> IsDigit(s[i])
  {
    if s == [] then 0
    else
      assert IsDigit(s[|s| - 1]);
      DigitsValue(s[..|s| - 1]) * 10 + (s[|s| - 1] as int - '0' as int)
  }

  /** Reading the digits back gives the number: the decimal text is faithful. */
  lemma {:induction false} DigitsRoundTrip(n: nat)
    ensures DigitsValue(NatDigits(n)) == n
  {
    if n >= 10 {
      var init := NatDigits(n / 10);
      var s := init + [DigitChar(n % 10)];
      assert s[..|s| - 1] == init;
      DigitsRoundTrip(n / 10);
    }
  }

  /** Different integers have different decimal texts. */
  lemma DecimalStringInjective(m: int, n: int)
    requires DecimalString(m) == DecimalString(n)
    ensures m == n
  {
    if m >= 0 && n >= 0 {
      DigitsRoundTrip(m);
      DigitsRoundTrip(n);
    } else if m < 0 && n < 0 {
      assert NatDigits(-m) == DecimalString(m)[1..];
      assert NatDigits(-n) == DecimalString(n)[1..];
      DigitsRoundTrip(-m);
      DigitsRoundTrip(-n);
    }
  }

  // ---------------------------------------------------------------------------
  // String.split with a one-character pattern and no limit

  /** The pieces between the occurrences of `sep`, empty pieces included:
      one more piece than there are separators. */
  function RawSplit(s: string, sep: char): (r: seq<string>)
    ensures |r| >= 1
    ensures forall i :: 0 <= i < |r| ==> sep !in r[i]
    decreases |s|
  {
    if |s| == 0 then [""]
    else
      var rest := RawSplit(s[1..], sep);
      if s[0] == sep then [""] + rest else [[s[0]] + rest[0]] + rest[1..]
  }

  /** The pieces put back together, separated by `sep`. */
  function Join(parts: seq<string>, sep: char): string
    requires |parts| >= 1
  {
    if |parts| == 1 then parts[0] else parts[0] + [sep] + Join(parts[1..], sep)
  }

  /** Splitting loses nothing: joining the pieces gives the string back. */
  lemma {:induction false} JoinRawSplit(s: string, sep: char)
    ensures Join(RawSplit(s, sep), sep) == s
    decreases |s|
  {
    if |s| > 0 {
      var rest := RawSplit(s[1..], sep);
      JoinRawSplit(s[1..], sep);
      if s[0] == sep {
        assert ([""] + rest)[1..] == rest;
        assert s == [s[0]] + s[1..];
      } else if |rest| == 1 {
        assert s == [s[0]] + s[1..];
      } else {
        var r := [[s[0]] + rest[0]] + rest[1..];
        assert r[1..] == rest[1..];
        assert s == [s[0]] + s[1..];
      }
    }
  }

  /** A string without the separator is a single piece. */
  lemma {:induction false} RawSplitWithout(s: string, sep: char)
    requires sep !in s
    ensures RawSplit(s, sep) == [s]
    decreases |s|
  {
    if |s| > 0 {
      assert sep !in s[1..];
      RawSplitWithout(s[1..], sep);
      assert s == [s[0]] + s[1..];
    }
  }

  /** A separator between two strings splits exactly there. */
  lemma {:induction false} RawSplitAppend(a: string, b: string, sep: char)
    ensures RawSplit(a + [sep] + b, sep) == RawSplit(a, sep) + RawSplit(b, sep)
    decreases |a|
  {
    var s := a + [sep] + b;
    if |a| == 0 {
      assert s == [sep] + b;
      assert s[1..] == b;
    } else {
      assert s[0] == a[0];
      assert s[1..] == a[1..] + [sep] + b;
      RawSplitAppend(a[1..], b, sep);
    }
  }

  /** Java drops the empty strings at the end of a split result. */
  function StripTrailingEmpty(parts: seq<string>): (r: seq<string>)
    ensures |r| <= |parts| && r == parts[..|r|]
    ensures |r| > 0 ==> r[|r| - 1] != ""
    ensures forall i :: |r| <= i < |parts| ==> parts[i] == ""
  {
    if |parts| > 0 && parts[|parts| - 1] == "" then StripTrailingEmpty(parts[..|parts| - 1]) else parts
  }

  /** `s.split(String.valueOf(sep))`: the string itself when the separator does
      not occur, otherwise the pieces with trailing empty ones removed. */
  function JavaSplit(s: string, sep: char): (r: seq<string>)
    ensures sep !in s ==> r == [s]
    ensures forall i :: 0 <= i < |r| ==> sep !in r[i]
  {
    if sep !in s then [s] else StripTrailingEmpty(RawSplit(s, sep))
  }

  /** A string that ends in `p/t/u/` (with `t` and `u` non-empty and free of the
      separator) splits into the pieces of `p` followed by `t` and `u`: the
      trailing slash leaves no piece behind. */
  lemma TrailingSeparatorSplit(p: string, t: string, u: string, sep: char)
    requires sep !in t && sep !in u && u != ""
    ensures JavaSplit(p + [sep] + t + [sep] + u + [sep], sep) == RawSplit(p, sep) + [t, u]
  {
    var s := p + [sep] + t + [sep] + u + [sep];
    var raw := RawSplit(p, sep) + [t, u];
    assert RawSplit(s, sep) == raw + [""] by {
      TwoPiecesAfter(p, t, u, sep);
    }
    assert sep in s by { assert s[|p|] == sep; }
    StripLastEmpty(raw);
  }

  lemma TwoPiecesAfter(p: string, t: string, u: string, sep: char)
    requires sep !in t && sep !in u
    ensures RawSplit(p + [sep] + t + [sep] + u + [sep], sep) == RawSplit(p, sep) + [t, u] + [""]
  {
    var x := u + [sep] + "";
    var y := t + [sep] + x;
    assert p + [sep] + t + [sep] + u + [sep] == p + [sep] + y;
    PieceAfter(u, "", sep);
    PieceAfter(t, x, sep);
    RawSplitAppend(p, y, sep);
  }

  lemma PieceAfter(a: string, b: string, sep: char)
    requires sep !in a
    ensures RawSplit(a + [sep] + b, sep) == [a] + RawSplit(b, sep)
  {
    RawSplitAppend(a, b, sep);
    RawSplitWithout(a, sep);
  }

  /** One trailing empty piece is dropped and a non-empty last piece stops the
      stripping. */
  lemma StripLastEmpty(parts: seq<string>)
    requires |parts| > 0 && parts[|parts| - 1] != ""
    ensures StripTrailingEmpty(parts + [""]) == parts
  {
    assert (parts + [""])[..|parts|] == parts;
  }

  /** A string that ends in `p/n` (with `n` non-empty and free of the separator)
      has `n` as the last piece of its split. */
  lemma LastPieceSplit(p: string, n: string, sep: char)
    requires sep !in n && n != ""
    ensures var r := JavaSplit(p + [sep] + n, sep); |r| > 0 && r[|r| - 1] == n
  {
    var s := p + [sep] + n;
    RawSplitAppend(p, n, sep);
    RawSplitWithout(n, sep);
    assert sep in s by { assert s[|p|] == sep; }
  }
}
