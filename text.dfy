/** The Python string operations the scan parsers rely on, over `string` (a `seq<char>`):
    slicing with clamped bounds, `startswith`/`endswith`, `replace`, `split`, `rstrip`,
    `lower`, and the number conversions `int(s)`, `int(s, 16)` and `int(float(s))`. */
module Text {
  import opened Wrappers

  predicate StartsWith(s: string, prefix: string)
  {
    |prefix| <= |s| && s[..|prefix|] == prefix
  }

  predicate EndsWith(s: string, suffix: string)
  {
    |suffix| <= |s| && s[|s| - |suffix|..] == suffix
  }

  /** Python's `s[i:j]` for a non-negative start; a negative `j` is clamped to 0 and a
      `j` past the end to `|s|`, as Python does once `s[i:-k]` is written `s[i:len(s)-k]`. */
  function Slice(s: string, i: nat, j: int): (r: string)
    ensures |r| <= |s|
    ensures i <= j <= |s| ==> r == s[i..j]
  {
    var hi := if j < 0 then 0 else if j <= |s| then j else |s|;
    var lo := if i <= hi then i else hi;
    s[lo..hi]
  }

  /** Python's `s[i:]`. */
  function From(s: string, i: nat): string
  {
    Slice(s, i, |s|)
  }

  /** Python's `s.replace(pat, rep)`: every non-overlapping occurrence of `pat`, scanning
      left to right, is replaced by `rep`. */
  function Replace(s: string, pat: string, rep: string): string
    requires |pat| > 0
    decreases |s|
  {
    if |s| < |pat| then s
    else if s[..|pat|] == pat then rep + Replace(s[|pat|..], pat, rep)
    else [s[0]] + Replace(s[1..], pat, rep)
  }

  /** A character absent from the input and from the replacement is absent from the result. */
  lemma {:induction false} ReplaceKeepsOut(s: string, pat: string, rep: string, c: char)
    requires |pat| > 0 && c !in s && c !in rep
    ensures c !in Replace(s, pat, rep)
    decreases |s|
  {
    if |s| < |pat| {
    } else if s[..|pat|] == pat {
      ReplaceKeepsOut(s[|pat|..], pat, rep, c);
    } else {
      ReplaceKeepsOut(s[1..], pat, rep, c);
    }
  }

  /** Replacing a one-character string by a text that does not contain it removes every
      occurrence of that character. */
  lemma {:induction false} ReplaceRemoves(s: string, c: char, rep: string)
    requires c !in rep
    ensures c !in Replace(s, [c], rep)
    decreases |s|
  {
    if |s| < 1 {
    } else if s[..1] == [c] {
      ReplaceRemoves(s[1..], c, rep);
    } else {
      assert s[0] != c by { assert s[..1] == [s[0]]; }
      ReplaceRemoves(s[1..], c, rep);
    }
  }

  /** Python's `s.split(c)` for a one-character separator. */
  function Split(s: string, c: char): (r: seq<string>)
    ensures |r| >= 1
    decreases |s|
  {
    if s == [] then [[]]
    else
      var rest := Split(s[1..], c);
      if s[0] == c then [[]] + rest
      else [[s[0]] + rest[0]] + rest[1..]
  }

  /** Python's `c.join(parts)`. */
  function Join(parts: seq<string>, c: char): string
  {
    if |parts| == 0 then []
    else if |parts| == 1 then parts[0]
    else parts[0] + [c] + Join(parts[1..], c)
  }

  /** Splitting and joining back give the original text, and no piece holds the separator. */
  lemma {:induction false} SplitJoin(s: string, c: char)
    ensures Join(Split(s, c), c) == s
    ensures forall p :: p in Split(s, c) ==> c !in p
    decreases |s|
  {
    if s != [] {
      var rest := Split(s[1..], c);
      SplitJoin(s[1..], c);
      if s[0] == c {
        assert Split(s, c)[1..] == rest;
      } else {
        var r := Split(s, c);
        assert r[0] == [s[0]] + rest[0];
        assert r[1..] == rest[1..];
        if |rest| > 1 {
          assert Join(rest, c) == rest[0] + [c] + Join(rest[1..], c);
          assert Join(r, c) == r[0] + [c] + Join(r[1..], c);
        }
        assert s == [s[0]] + s[1..];
        forall p | p in r
          ensures c !in p
        {
          if p != r[0] {
            assert p in rest;
          }
        }
      }
    }
  }

  /** Python's `s.splitlines()` on text whose only line break is `\n`: no empty piece
      after a final line break, and no line at all for the empty text. */
  function SplitLines(s: string): (r: seq<string>)
    ensures forall p :: p in r ==> '\n' !in p
  {
    var parts := Split(s, '\n');
    SplitJoin(s, '\n');
    if parts[|parts| - 1] == [] then parts[..|parts| - 1] else parts
  }

  /** Python's `s.split(c, 1)` unpacked into two names: `None` when `c` does not occur
      (the unpacking raises ValueError), else the text before the first `c` and the rest. */
  function SplitFirst(s: string, c: char): (r: Option<(string, string)>)
    ensures r.None? <==> c !in s
    ensures r.Some? ==> s == r.value.0 + [c] + r.value.1 && c !in r.value.0
    decreases |s|
  {
    if s == [] then None
    else if s[0] == c then Some(([], s[1..]))
    else
      match SplitFirst(s[1..], c)
      case None => None
      case Some(kv) => Some(([s[0]] + kv.0, kv.1))
  }

  /** The characters Python's `str.isspace` accepts. */
  predicate IsSpace(ch: char)
  {
    ch == ' ' || ch == '\t' || ch == '\n' || ch == '\r' || ch == '\U{000B}' || ch == '\U{000C}'
    || ('\U{001C}' <= ch <= '\U{001F}') || ch == '\U{0085}' || ch == '\U{00A0}' || ch == '\U{1680}'
    || ('\U{2000}' <= ch <= '\U{200A}') || ch == '\U{2028}' || ch == '\U{2029}' || ch == '\U{202F}'
    || ch == '\U{205F}' || ch == '\U{3000}'
  }

  /** Python's `s.rstrip()`: the longest prefix that does not end in whitespace and is
      followed only by whitespace. */
  function RStrip(s: string): (r: string)
    ensures |r| <= |s| && r == s[..|r|]
    ensures |r| == 0 || !IsSpace(r[|r| - 1])
    ensures forall i :: |r| <= i < |s| ==> IsSpace(s[i])
    decreases |s|
  {
    if |s| > 0 && IsSpace(s[|s| - 1]) then RStrip(s[..|s| - 1]) else s
  }

  /** Python's `s.lstrip()`. */
  function LStrip(s: string): (r: string)
    ensures |r| <= |s| && r == s[|s| - |r|..]
    ensures |r| == 0 || !IsSpace(r[0])
    ensures forall i :: 0 <= i < |s| - |r| ==> IsSpace(s[i])
    decreases |s|
  {
    if |s| > 0 && IsSpace(s[0]) then LStrip(s[1..]) else s
  }

  function Strip(s: string): string
  {
    LStrip(RStrip(s))
  }

  predicate IsUpper(ch: char)
  {
    'A' <= ch <= 'Z'
  }

  /** Python's `s.lower()` on ASCII letters: no capital is left, each capital becomes the
      small letter at the same place in the alphabet, and every other character stays. */
  function Lower(s: string): (r: string)
    ensures |r| == |s|
    ensures forall i :: 0 <= i < |r| ==> !IsUpper(r[i])
    ensures forall i :: 0 <= i < |s| && !IsUpper(s[i]) ==> r[i] == s[i]
    ensures forall i :: 0 <= i < |s| && IsUpper(s[i]) ==>
      'a' <= r[i] <= 'z' && r[i] as int - 'a' as int == s[i] as int - 'A' as int
  {
    seq(|s|, i requires 0 <= i < |s| => if 'A' <= s[i] <= 'Z' then (s[i] as int + 32) as char else s[i])
  }

  /** Lower-casing twice is lower-casing once. */
  lemma LowerIdempotent(s: string)
    ensures Lower(Lower(s)) == Lower(s)
  {
    var t := Lower(s);
    assert forall i :: 0 <= i < |t| ==> Lower(t)[i] == t[i];
  }

  predicate IsDigit(ch: char)
  {
    '0' <= ch <= '9'
  }

  predicate IsHexDigit(ch: char)
    ensures IsHexDigit(ch) ==> !IsSpace(ch)
  {
    IsDigit(ch) || 'a' <= ch <= 'f' || 'A' <= ch <= 'F'
  }

  predicate AllDigits(s: string)
  {
    forall i :: 0 <= i < |s| ==> IsDigit(s[i])
  }

  predicate AllHex(s: string)
  {
    forall i :: 0 <= i < |s| ==> IsHexDigit(s[i])
  }

  function HexDigitValue(ch: char): (v: nat)
    requires IsHexDigit(ch)
    ensures v < 16
  {
    if IsDigit(ch) then ch as int - '0' as int
    else if 'a' <= ch <= 'f' then ch as int - 'a' as int + 10
    else ch as int - 'A' as int + 10
  }

  function Pow(b: nat, e: nat): nat
  {
    if e == 0 then 1 else b * Pow(b, e - 1)
  }

  /** The number a string of decimal digits denotes. */
  function DecValue(s: string): nat
    requires AllDigits(s)
  {
    if s == [] then 0 else DecValue(s[..|s| - 1]) * 10 + (s[|s| - 1] as int - '0' as int)
  }

  /** The number a string of hexadecimal digits denotes. */
  function HexValue(s: string): nat
    requires AllHex(s)
  {
    if s == [] then 0 else HexValue(s[..|s| - 1]) * 16 + HexDigitValue(s[|s| - 1])
  }

  /** `n` hexadecimal digits denote a number below 16^n. */
  lemma {:induction false} HexValueBound(s: string)
    requires AllHex(s)
    ensures HexValue(s) < Pow(16, |s|)
  {
    if s != [] {
      var p := s[..|s| - 1];
      HexValueBound(p);
      assert Pow(16, |s|) == 16 * Pow(16, |p|);
    }
  }

  /** A leading `-` or `+`, as `int()` and `float()` accept it. */
  function Sign(t: string): (bool, string)
  {
    if |t| > 0 && (t[0] == '-' || t[0] == '+') then (t[0] == '-', t[1..]) else (false, t)
  }

  /** Python's `int(s)`: surrounding whitespace, an optional sign, then decimal digits. */
  function ParseInt(s: string): Option<int>
  {
    var (negative, body) := Sign(Strip(s));
    if |body| > 0 && AllDigits(body) then
      var v: int := DecValue(body);
      Some(if negative then -v else v)
    else None
  }

  /** Python's `int(s, 16)`: surrounding whitespace, an optional sign, an optional `0x`
      prefix, then hexadecimal digits. */
  function ParseHex(s: string): Option<int>
  {
    var (negative, b) := Sign(Strip(s));
    var body := Unprefixed(b);
    if |body| > 0 && AllHex(body) then
      var v: int := HexValue(body);
      Some(if negative then -v else v)
    else None
  }

  /** The digits after an optional `0x` or `0X` prefix. */
  function Unprefixed(b: string): string
  {
    if |b| >= 2 && b[0] == '0' && (b[1] == 'x' || b[1] == 'X') then b[2..] else b
  }

  /** A string of hexadecimal digits alone parses to the number it denotes. */
  lemma HexDigitsParse(s: string)
    requires |s| > 0 && AllHex(s)
    ensures ParseHex(s) == Some(HexValue(s))
  {
    HexPlain(s);
  }

  /** Hexadecimal digits carry no whitespace, sign or `0x` prefix. */
  lemma HexPlain(s: string)
    requires |s| > 0 && AllHex(s)
    ensures Sign(Strip(s)) == (false, s) && Unprefixed(s) == s
  {
    assert IsHexDigit(s[0]) && IsHexDigit(s[|s| - 1]);
    StripUnchanged(s);
    assert Sign(s) == (false, s);
    if |s| >= 2 {
      assert IsHexDigit(s[1]);
      assert s[1] != 'x' && s[1] != 'X';
    }
  }

  /** A string of decimal digits alone parses to the number it denotes. */
  lemma DigitsParse(s: string)
    requires |s| > 0 && AllDigits(s)
    ensures ParseInt(s) == Some(DecValue(s))
  {
    DigitsPlain(s);
  }

  /** Decimal digits carry no whitespace or sign. */
  lemma DigitsPlain(s: string)
    requires |s| > 0 && AllDigits(s)
    ensures Sign(Strip(s)) == (false, s)
  {
    assert IsDigit(s[0]) && IsDigit(s[|s| - 1]);
    StripUnchanged(s);
  }

  /** Text that neither starts nor ends with whitespace is its own `strip()`. */
  lemma StripUnchanged(s: string)
    requires |s| > 0 && !IsSpace(s[0]) && !IsSpace(s[|s| - 1])
    ensures Strip(s) == s
  {
    assert RStrip(s) == s;
  }

  /** `n` colon-separated pairs of hexadecimal digits, as in `00:1a:2b:3c:4d:5e`. */
  predicate HexPairs(s: string, n: nat)
    decreases n
  {
    if n <= 1 then n == 1 && |s| == 2 && IsHexDigit(s[0]) && IsHexDigit(s[1])
    else |s| >= 3 && IsHexDigit(s[0]) && IsHexDigit(s[1]) && s[2] == ':' && HexPairs(s[3..], n - 1)
  }

  /** A MAC address as `iw` and `iwlist` print it. */
  predicate IsMac(s: string)
  {
    HexPairs(s, 6)
  }

  /** Dropping the colons of `n` hexadecimal pairs leaves `2n` hexadecimal digits. */
  lemma {:induction false} HexPairsDigits(s: string, n: nat)
    requires HexPairs(s, n)
    ensures |Replace(s, ":", "")| == 2 * n && AllHex(Replace(s, ":", ""))
    decreases n
  {
    assert s[..1] != ":" by { assert s[..1][0] == s[0]; }
    assert s[1..][..1] != ":" by { assert s[1..][..1][0] == s[1]; }
    assert Replace(s, ":", "") == [s[0]] + Replace(s[1..], ":", "");
    assert Replace(s[1..], ":", "") == [s[1]] + Replace(s[2..], ":", "");
    if n == 1 {
      assert Replace(s[2..], ":", "") == [];
    } else {
      assert s[2..][..1] == ":";
      assert s[2..][1..] == s[3..];
      assert Replace(s[2..], ":", "") == Replace(s[3..], ":", "");
      HexPairsDigits(s[3..], n - 1);
    }
  }

  /** The identifier the tool derives from a MAC address, `int(mac.replace(':', ''), 16)`,
      is a 48-bit number. */
  lemma MacId(mac: string)
    requires IsMac(mac)
    ensures ParseHex(Replace(mac, ":", "")).Some?
    ensures 0 <= ParseHex(Replace(mac, ":", "")).value < 0x1_0000_0000_0000
  {
    var d := Replace(mac, ":", "");
    HexPairsDigits(mac, 6);
    HexDigitsParse(d);
    HexValueBound(d);
    Pow16();
  }

  /** 16^12 = 2^48. */
  lemma Pow16()
    ensures Pow(16, 12) == 0x1_0000_0000_0000
  {
    assert Pow(16, 2) == 0x100;
    assert Pow(16, 4) == 0x1_0000 by { assert Pow(16, 3) == 0x1000; }
    assert Pow(16, 6) == 0x100_0000 by { assert Pow(16, 5) == 0x10_0000; }
    assert Pow(16, 8) == 0x1_0000_0000 by { assert Pow(16, 7) == 0x1000_0000; }
    assert Pow(16, 10) == 0x100_0000_0000 by { assert Pow(16, 9) == 0x10_0000_0000; }
    assert Pow(16, 11) == 0x1000_0000_0000;
  }

  /** A decimal literal as `float()` reads it: sign, digits before and after the point. */
  datatype Decimal = Decimal(negative: bool, whole: string, frac: string)

  /** The subset of Python's `float(s)` the tool meets: surrounding whitespace, an optional
      sign, digits with at most one decimal point and at least one digit. */
  function ParseDecimal(s: string): (r: Option<Decimal>)
    ensures r.Some? ==> AllDigits(r.value.whole) && AllDigits(r.value.frac)
    ensures r.Some? ==> |r.value.whole| + |r.value.frac| > 0
    ensures r.Some? ==>
      var (negative, body) := Sign(Strip(s));
      && r.value.negative == negative
      && (if '.' in body then body == r.value.whole + "." + r.value.frac
          else body == r.value.whole && r.value.frac == [])
  {
    var (negative, body) := Sign(Strip(s));
    match SplitFirst(body, '.')
    case None =>
      if |body| > 0 && AllDigits(body) then Some(Decimal(negative, body, [])) else None
    case Some(wf) =>
      if AllDigits(wf.0) && AllDigits(wf.1) && |wf.0| + |wf.1| > 0
      then Some(Decimal(negative, wf.0, wf.1)) else None
  }

  /** Digits, a point and digits read back as the decimal they spell. */
  lemma DecimalParse(whole: string, frac: string)
    requires |whole| > 0 && AllDigits(whole) && AllDigits(frac)
    ensures ParseDecimal(whole + "." + frac) == Some(Decimal(false, whole, frac))
  {
    var s := whole + "." + frac;
    assert s[0] == whole[0] && IsDigit(s[0]);
    assert s[|s| - 1] == '.' || IsDigit(s[|s| - 1]) by {
      if frac != [] {
        assert s[|s| - 1] == frac[|frac| - 1];
      }
    }
    StripUnchanged(s);
    assert Sign(s) == (false, s);
    assert '.' !in whole by {
      forall i | 0 <= i < |whole|
        ensures whole[i] != '.'
      {
        assert IsDigit(whole[i]);
      }
    }
    SplitFirstAt(whole, '.', frac);
  }

  /** A decimal literal holds no space. */
  lemma DecimalNoSpace(whole: string, frac: string)
    requires AllDigits(whole) && AllDigits(frac)
    ensures ' ' !in whole + "." + frac
  {
    var d := whole + "." + frac;
    forall i | 0 <= i < |d|
      ensures d[i] != ' '
    {
      if i < |whole| {
        assert d[i] == whole[i] && IsDigit(whole[i]);
      } else if i > |whole| {
        assert d[i] == frac[i - |whole| - 1] && IsDigit(frac[i - |whole| - 1]);
      }
    }
  }

  /** The first `c` of `a + [c] + b` is the one after `a` when `a` has none. */
  lemma {:induction false} SplitFirstAt(a: string, c: char, b: string)
    requires c !in a
    ensures SplitFirst(a + [c] + b, c) == Some((a, b))
    decreases |a|
  {
    if a == [] {
      assert a + [c] + b == [c] + b;
    } else {
      assert (a + [c] + b)[1..] == a[1..] + [c] + b;
      SplitFirstAt(a[1..], c, b);
      assert [a[0]] + a[1..] == a;
    }
  }

  /** Dropping a suffix whose first character does not occur before it. */
  lemma {:induction false} ReplaceSuffix(x: string, pat: string)
    requires |pat| > 0 && pat[0] !in x
    ensures Replace(x + pat, pat, "") == x
    decreases |x|
  {
    var s := x + pat;
    if x == [] {
      assert s == pat && s[..|pat|] == pat;
      assert s[|pat|..] == [];
    } else {
      assert s[..|pat|] != pat by { assert s[0] == x[0]; }
      assert s[1..] == x[1..] + pat;
      ReplaceSuffix(x[1..], pat);
      assert [x[0]] + x[1..] == x;
    }
  }

  /** The first `k` fraction digits, padded with zeros. */
  function FracDigits(frac: string, k: nat): (r: string)
    requires AllDigits(frac)
    ensures |r| == k && AllDigits(r)
  {
    if k == 0 then []
    else if frac == [] then ['0'] + FracDigits([], k - 1)
    else [frac[0]] + FracDigits(frac[1..], k - 1)
  }

  /** The decimal times 10^scale, truncated toward zero, as `int(float(s) * 10**scale)`
      computes it on exact decimals. */
  function Truncate(d: Decimal, scale: nat): int
    requires AllDigits(d.whole) && AllDigits(d.frac)
  {
    var magnitude := DecValue(d.whole) * Pow(10, scale) + DecValue(FracDigits(d.frac, scale));
    if d.negative then -magnitude else magnitude
  }

  /** Python's `int(float(s))` on decimal literals. */
  function IntOfFloat(s: string): Option<int>
  {
    match ParseDecimal(s)
    case None => None
    case Some(d) => Some(Truncate(d, 0))
  }
}
