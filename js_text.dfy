/**
 * The pieces of the JavaScript string and number library that the orders
 * table relies on: `String.prototype.trim`, `String.prototype.toLowerCase`,
 * the decimal rendering of an integer (`String(n)`) and `parseInt(s, 10)`.
 */
module JsText {

  /** WhiteSpace and LineTerminator characters of ECMAScript: what `trim` and `parseInt` skip. */
  predicate IsWhitespace(c: char)
  {
    c == '\t' || c == '\n' || c == '\r' || c == ' ' || c == '\U{000B}' || c == '\U{000C}'
    || c == '\U{00A0}' || c == '\U{1680}' || ('\U{2000}' <= c <= '\U{200A}')
    || c == '\U{2028}' || c == '\U{2029}' || c == '\U{202F}' || c == '\U{205F}'
    || c == '\U{3000}' || c == '\U{FEFF}'
  }

  predicate AllWhitespace(s: string)
  {
    forall i :: 0 <= i < |s| ==> IsWhitespace(s[i])
  }

  /** Neither end of `s` is whitespace. */
  predicate IsTrimmed(s: string)
  {
    s == [] || (!IsWhitespace(s[0]) && !IsWhitespace(s[|s| - 1]))
  }

  /** `s` without its leading whitespace. */
  function TrimStart(s: string): string
  {
    if |s| > 0 && IsWhitespace(s[0]) then TrimStart(s[1..]) else s
  }

  /** What `TrimStart` drops is a run of whitespace, and what it keeps does not start with one. */
  lemma {:induction false} TrimStartSpec(s: string)
    ensures var r := TrimStart(s);
      && |r| <= |s| && r == s[|s| - |r|..]
      && AllWhitespace(s[..|s| - |r|])
      && (r == [] || !IsWhitespace(r[0]))
  {
    if |s| > 0 && IsWhitespace(s[0]) {
      TrimStartSpec(s[1..]);
      var r := TrimStart(s);
      assert s[..|s| - |r|] == [s[0]] + s[1..][..|s| - 1 - |r|];
    }
  }

  /** `s` without its trailing whitespace. */
  function TrimEnd(s: string): string
  {
    if |s| > 0 && IsWhitespace(s[|s| - 1]) then TrimEnd(s[..|s| - 1]) else s
  }

  /** What `TrimEnd` drops is a run of whitespace, and what it keeps does not end with one. */
  lemma {:induction false} TrimEndSpec(s: string)
    ensures var r := TrimEnd(s);
      && |r| <= |s| && r == s[..|r|]
      && AllWhitespace(s[|r|..])
      && (r == [] || !IsWhitespace(r[|r| - 1]))
  {
    if |s| > 0 && IsWhitespace(s[|s| - 1]) {
      TrimEndSpec(s[..|s| - 1]);
      var r := TrimEnd(s);
      assert s[|r|..] == s[..|s| - 1][|r|..] + [s[|s| - 1]];
    }
  }

  /** `String.prototype.trim`: neither end of the result is whitespace. */
  function Trim(s: string): (r: string)
    ensures IsTrimmed(r)
  {
    var t := TrimStart(s);
    TrimStartSpec(s);
    TrimEndSpec(t);
    var r := TrimEnd(t);
    assert r != [] ==> r[0] == t[0];
    r
  }

  /** `trim` empties exactly the strings made of whitespace only. */
  lemma TrimEmptyIff(s: string)
    ensures Trim(s) == [] <==> AllWhitespace(s)
  {
    var t := TrimStart(s);
    TrimStartSpec(s);
    TrimEndSpec(t);
    var k := |s| - |t|;
    if TrimEnd(t) == [] {
      assert t == [];
      assert s[..k] == s;
    }
  }

  lemma {:induction false} TrimOfTrimmed(s: string)
    requires IsTrimmed(s)
    ensures Trim(s) == s
  {
    assert TrimStart(s) == s;
    assert TrimEnd(s) == s;
  }

  lemma {:induction false} TrimIdempotent(s: string)
    ensures Trim(Trim(s)) == Trim(s)
  {
    TrimOfTrimmed(Trim(s));
  }

  /** The upper-case letters `toLowerCase` maps here: ASCII `A`-`Z` and Latin-1 `À`-`Þ` except `×`. */
  predicate IsUpper(c: char)
  {
    ('A' <= c <= 'Z') || ('\U{00C0}' <= c <= '\U{00DE}' && c != '\U{00D7}')
  }

  predicate NoUpper(s: string)
  {
    forall i :: 0 <= i < |s| ==> !IsUpper(s[i])
  }

  /** The lower-case letters those map to: ASCII `a`-`z` and Latin-1 `à`-`þ` except `÷`. */
  predicate IsLowerLetter(c: char)
  {
    ('a' <= c <= 'z') || ('\U{00E0}' <= c <= '\U{00FE}' && c != '\U{00F7}')
  }

  /** `String.prototype.toUpperCase` on the letters `IsLowerLetter` names; other characters are kept. */
  function UpperChar(c: char): (u: char)
    ensures IsLowerLetter(c) ==> IsUpper(u)
    ensures !IsLowerLetter(c) ==> u == c
  {
    if IsLowerLetter(c) then (c as int - 32) as char else c
  }

  /** An upper-case letter becomes its own lower-case letter; every other character is kept. */
  function LowerChar(c: char): (d: char)
    ensures !IsUpper(d)
    ensures IsWhitespace(d) == IsWhitespace(c)
    ensures !IsUpper(c) ==> d == c
    ensures IsUpper(c) ==> IsLowerLetter(d) && UpperChar(d) == c
  {
    if IsUpper(c) then (c as int + 32) as char else c
  }

  /** Upper-casing undoes lower-casing on letters: the two are inverse on the case pairs. */
  lemma CasePairs(c: char)
    ensures IsUpper(c) ==> UpperChar(LowerChar(c)) == c
    ensures IsLowerLetter(c) ==> LowerChar(UpperChar(c)) == c
  {
  }

  /** `String.prototype.toLowerCase`, one character at a time. */
  function Lower(s: string): (r: string)
    ensures |r| == |s|
  {
    seq(|s|, i requires 0 <= i < |s| => LowerChar(s[i]))
  }

  /** Lower-casing leaves no upper-case letter, keeps whitespace where it was and changes nothing else. */
  lemma LowerSpec(s: string)
    ensures NoUpper(Lower(s))
    ensures forall i :: 0 <= i < |s| ==> IsWhitespace(Lower(s)[i]) == IsWhitespace(s[i])
    ensures forall i :: 0 <= i < |s| && !IsUpper(s[i]) ==> Lower(s)[i] == s[i]
    ensures forall i :: 0 <= i < |s| && IsUpper(s[i]) ==>
              IsLowerLetter(Lower(s)[i]) && UpperChar(Lower(s)[i]) == s[i]
  {
  }

  lemma {:induction false} LowerKeepsTrimmed(s: string)
    requires IsTrimmed(s)
    ensures IsTrimmed(Lower(s))
  {
    var r := Lower(s);
    LowerSpec(s);
    if s != [] {
      assert IsWhitespace(r[0]) == IsWhitespace(s[0]);
      assert IsWhitespace(r[|r| - 1]) == IsWhitespace(s[|s| - 1]);
    }
  }

  lemma {:induction false} LowerIdempotent(s: string)
    ensures Lower(Lower(s)) == Lower(s)
  {
    var r := Lower(s);
    LowerSpec(s);
    LowerSpec(r);
    assert forall i :: 0 <= i < |r| ==> Lower(r)[i] == r[i];
  }

  // ---------------------------------------------------------------------
  // Numbers

  /** The values `parseInt` can produce: an integer or NaN (`-0` is the integer 0). */
  datatype JsNum = NaN | Int(value: int)

  predicate IsDigit(c: char)
  {
    '0' <= c <= '9'
  }

  predicate AllDigits(s: string)
  {
    forall i :: 0 <= i < |s| ==> IsDigit(s[i])
  }

  function DigitChar(d: nat): (c: char)
    requires d < 10
    ensures IsDigit(c)
  {
    ('0' as int + d) as char
  }

  /** Decimal digits of `n`, most significant first, with no leading zero. */
  function ShowNat(n: nat): (r: string)
    ensures r != [] && AllDigits(r)
    ensures r[0] == '0' <==> n == 0
    ensures n == 0 ==> r == "0"
  {
    if n < 10 then [DigitChar(n)] else ShowNat(n / 10) + [DigitChar(n % 10)]
  }

  /** `String(i)` for an integer `i`. */
  function ShowInt(i: int): (r: string)
    ensures r != [] && (r[0] == '-' <==> i < 0)
    ensures i >= 0 ==> IsDigit(r[0])
  {
    if i < 0 then "-" + ShowNat(-i) else ShowNat(i)
  }

  /** `String(x)`: how the router writes a number into the query string. */
  function ShowNum(x: JsNum): (r: string)
    ensures r == "NaN" <==> x.NaN?
  {
    match x
    case NaN => "NaN"
    case Int(i) => ShowInt(i)
  }

  /** The value of a string of decimal digits. */
  function DigitsValue(ds: string): nat
    requires AllDigits(ds)
  {
    if ds == [] then 0 else DigitsValue(ds[..|ds| - 1]) * 10 + (ds[|ds| - 1] as int - '0' as int)
  }

  /** The longest prefix of `s` made of decimal digits. */
  function DigitPrefix(s: string): (r: string)
    ensures AllDigits(r) && r <= s
    ensures |r| < |s| ==> !IsDigit(s[|r|])
  {
    if |s| > 0 && IsDigit(s[0]) then [s[0]] + DigitPrefix(s[1..]) else []
  }

  /**
   * `parseInt(s, 10)`: skip leading whitespace, take one optional sign, then
   * the longest run of digits; NaN when that run is empty. Anything after the
   * digits is ignored.
   */
  function ParseInt(s: string): (r: JsNum)
    ensures r.Int? ==> exists i :: 0 <= i < |s| && IsDigit(s[i])
  {
    SuffixDigit(s, TrimStart(s));
    ParseSigned(TrimStart(s))
  }

  /** A digit of `TrimStart(s)` is a digit of `s`. */
  lemma SuffixDigit(s: string, t: string)
    requires t == TrimStart(s)
    ensures (exists j :: 0 <= j < |t| && IsDigit(t[j])) ==> exists i :: 0 <= i < |s| && IsDigit(s[i])
  {
    TrimStartSpec(s);
    if j :| 0 <= j < |t| && IsDigit(t[j]) {
      assert s[|s| - |t| + j] == t[j];
    }
  }

  /** `parseInt` after the leading whitespace is gone: an optional sign, then digits. */
  function ParseSigned(t: string): (r: JsNum)
    ensures r.Int? ==> exists i :: 0 <= i < |t| && IsDigit(t[i])
  {
    if |t| > 0 && t[0] == '-' then Negate(ParseDigits(t[1..]))
    else if |t| > 0 && t[0] == '+' then ParseDigits(t[1..])
    else ParseDigits(t)
  }

  /** The value of the leading digits of `body`, NaN when it does not start with a digit. */
  function ParseDigits(body: string): (r: JsNum)
    ensures r.Int? ==> body != [] && IsDigit(body[0])
  {
    var ds := DigitPrefix(body);
    if ds == [] then NaN else Int(DigitsValue(ds))
  }

  function Negate(x: JsNum): JsNum
  {
    match x
    case NaN => NaN
    case Int(v) => Int(-v)
  }

  lemma {:induction false} ShowNatValue(n: nat)
    ensures DigitsValue(ShowNat(n)) == n
  {
    if n >= 10 {
      var s := ShowNat(n);
      assert s[..|s| - 1] == ShowNat(n / 10);
      ShowNatValue(n / 10);
    }
  }

  /** Digits worth nothing are all zeros. */
  lemma {:induction false} ZeroValueDigits(ds: string)
    requires AllDigits(ds) && DigitsValue(ds) == 0
    ensures forall i :: 0 <= i < |ds| ==> ds[i] == '0'
  {
    if ds != [] {
      ZeroValueDigits(ds[..|ds| - 1]);
      forall i | 0 <= i < |ds| ensures ds[i] == '0' {
        if i < |ds| - 1 {
          assert ds[i] == ds[..|ds| - 1][i];
        }
      }
    }
  }

  /** The decimal text without leading zeros is unique: it is the one `String(n)` writes. */
  lemma {:induction false} ShowNatUnique(ds: string, n: nat)
    requires ds != [] && AllDigits(ds) && (ds[0] != '0' || ds == "0")
    requires DigitsValue(ds) == n
    ensures ds == ShowNat(n)
  {
    var init := ds[..|ds| - 1];
    var last := ds[|ds| - 1];
    if init == [] {
      assert ds == [last];
    } else {
      assert init[0] == ds[0];
      if DigitsValue(init) == 0 {
        ZeroValueDigits(init);
        assert false;
      }
      assert n / 10 == DigitsValue(init) && n % 10 == last as int - '0' as int;
      ShowNatUnique(init, n / 10);
      assert ds == init + [last];
    }
  }

  lemma {:induction false} DigitPrefixOfDigits(ds: string, rest: string)
    requires AllDigits(ds)
    requires rest == [] || !IsDigit(rest[0])
    ensures DigitPrefix(ds + rest) == ds
  {
    if ds != [] {
      assert (ds + rest)[1..] == ds[1..] + rest;
      DigitPrefixOfDigits(ds[1..], rest);
    }
  }

  lemma ShowNatParses(n: nat)
    ensures ParseDigits(ShowNat(n)) == Int(n)
  {
    ShowNatValue(n);
    DigitPrefixOfDigits(ShowNat(n), []);
    assert ShowNat(n) + [] == ShowNat(n);
  }

  lemma StartsWithoutWhitespace(s: string)
    requires s != [] && (IsDigit(s[0]) || s[0] == '-')
    ensures TrimStart(s) == s
  {
    assert !IsWhitespace(s[0]);
  }

  lemma ShowNegativeParses(n: nat)
    ensures ParseInt("-" + ShowNat(n)) == Int(-(n as int))
  {
    var digits := ShowNat(n);
    var s := "-" + digits;
    assert s[0] == '-' && s[1..] == digits;
    StartsWithoutWhitespace(s);
    ShowNatParses(n);
    calc {
      ParseInt(s);
      ParseSigned(s);
      Negate(ParseDigits(digits));
    }
  }

  lemma ShowNonNegativeParses(n: nat)
    ensures ParseInt(ShowNat(n)) == Int(n)
  {
    var s := ShowNat(n);
    StartsWithoutWhitespace(s);
    assert ParseInt(s) == ParseSigned(s);
    ShowNatParses(n);
  }

  lemma ShowIntParses(i: int)
    ensures ParseInt(ShowInt(i)) == Int(i)
  {
    if i < 0 {
      ShowNegativeParses(-i);
    } else {
      ShowNonNegativeParses(i);
    }
  }

  /** `parseInt` reads back what `String` wrote, NaN included. */
  lemma ParseShowRoundTrip(x: JsNum)
    ensures ParseInt(ShowNum(x)) == x
  {
    match x
    case NaN =>
      assert TrimStart("NaN") == "NaN";
      assert DigitPrefix("NaN") == [];
    case Int(i) =>
      ShowIntParses(i);
  }

  /** `parseInt` stops at the first character that is not a digit: `parseInt("2abc") == 2`. */
  lemma ParseIntIgnoresTail(ds: string, rest: string)
    requires ds != [] && AllDigits(ds)
    requires rest == [] || !IsDigit(rest[0])
    ensures ParseInt(ds + rest) == Int(DigitsValue(ds))
  {
    var s := ds + rest;
    assert s[0] == ds[0] && IsDigit(s[0]) && !IsWhitespace(s[0]);
    assert TrimStart(s) == s;
    DigitPrefixOfDigits(ds, rest);
  }

  /** Without a digit after the optional sign, `parseInt` yields NaN. */
  lemma ParseIntNoDigits(s: string)
    requires s == [] || (!IsWhitespace(s[0]) && !IsDigit(s[0]) && s[0] != '-' && s[0] != '+')
    ensures ParseInt(s) == NaN
  {
  }

  lemma {:induction false} TrimStartSkipsWhitespace(w: string, s: string)
    requires AllWhitespace(w)
    ensures TrimStart(w + s) == TrimStart(s)
  {
    if w != [] {
      assert (w + s)[1..] == w[1..] + s;
      TrimStartSkipsWhitespace(w[1..], s);
    } else {
      assert w + s == s;
    }
  }

  /** Leading whitespace does not change what `parseInt` reads. */
  lemma ParseIntSkipsWhitespace(w: string, s: string)
    requires AllWhitespace(w)
    ensures ParseInt(w + s) == ParseInt(s)
  {
    TrimStartSkipsWhitespace(w, s);
  }
}
