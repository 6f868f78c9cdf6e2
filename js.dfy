/** The few ECMAScript built-ins the attendance UI relies on, as pure functions:
    the white-space set of String.prototype.trim and parseInt, parseInt with radix 10,
    the truthiness of a value that is a string or undefined, `a || b || c` chains,
    and Array.prototype.join; and, as a reference definition, the lines a text shows
    when its line breaks are kept (white-space: pre-wrap). */
module Js {

  datatype Option<+T> = None | Some(value: T)

  /** A property that holds a string or is undefined/null. */
  type Text = Option<string>

  /** A string or undefined is truthy exactly when it is a non-empty string. */
  predicate Truthy(t: Text) {
    t.Some? && t.value != ""
  }

  // ---------------------------------------------------------------------------
  // White space (ECMA-262 WhiteSpace and LineTerminator code points)

  /** TAB, VT, FF, SP, NBSP, ZWNBSP, every Zs code point, LF, CR, LS and PS. */
  predicate IsWhitespace(c: char) {
    var n := c as int;
    n == 0x09 || n == 0x0B || n == 0x0C || n == 0x20 || n == 0xA0 || n == 0xFEFF
    || n == 0x1680 || (0x2000 <= n <= 0x200A) || n == 0x202F || n == 0x205F || n == 0x3000
    || n == 0x0A || n == 0x0D || n == 0x2028 || n == 0x2029
  }

  predicate AllWhitespace(s: string) {
    forall i :: 0 <= i < |s| ==> IsWhitespace(s[i])
  }

  /** Drops the leading white space, as the first step of parseInt does. */
  function TrimStart(s: string): (r: string)
    ensures |r| <= |s| && r == s[|s| - |r|..]
    ensures r == [] || !IsWhitespace(r[0])
    ensures AllWhitespace(s[..|s| - |r|])
  {
    if s != [] && IsWhitespace(s[0]) then TrimStart(s[1..]) else s
  }

  /** Drops the trailing white space. */
  function TrimEnd(s: string): (r: string)
    ensures |r| <= |s| && r == s[..|r|]
    ensures r == [] || !IsWhitespace(r[|r| - 1])
    ensures AllWhitespace(s[|r|..])
  {
    if s != [] && IsWhitespace(s[|s| - 1]) then TrimEnd(s[..|s| - 1]) else s
  }

  /** String.prototype.trim: a piece of the input with white space at neither end. */
  function Trim(s: string): (r: string)
    ensures |r| <= |s|
    ensures r == [] || (!IsWhitespace(r[0]) && !IsWhitespace(r[|r| - 1]))
  {
    TrimEnd(TrimStart(s))
  }

  /** A term trims to the empty string exactly when it is white space only. */
  lemma TrimEmptyIffBlank(s: string)
    ensures Trim(s) == "" <==> AllWhitespace(s)
  {
    var t := TrimStart(s);
    if Trim(s) == "" && t != [] {
      assert false;
    }
    if Trim(s) == "" {
      assert s[..|s|] == s;
    }
  }

  // ---------------------------------------------------------------------------
  // Decimal digits and parseInt(string, 10) (section 19.2.5 of ECMA-262)

  predicate IsDigit(c: char) {
    '0' <= c <= '9'
  }

  predicate AllDigits(s: string) {
    forall i :: 0 <= i < |s| ==> IsDigit(s[i])
  }

  function DigitValue(c: char): nat
    requires IsDigit(c)
  {
    c as int - '0' as int
  }

  function DigitChar(d: nat): (c: char)
    requires d < 10
    ensures IsDigit(c) && DigitValue(c) == d
  {
    ('0' as int + d) as char
  }

  /** The longest prefix of `s` made of decimal digits. */
  function DigitPrefix(s: string): (r: string)
    ensures |r| <= |s| && r == s[..|r|]
    ensures AllDigits(r)
    ensures |r| == |s| || !IsDigit(s[|r|])
  {
    if s != [] && IsDigit(s[0]) then [s[0]] + DigitPrefix(s[1..]) else []
  }

  /** The mathematical value of a string of decimal digits (most significant first). */
  function DigitsValue(ds: string): nat
    requires AllDigits(ds)
  {
    if ds == [] then 0 else 10 * DigitsValue(ds[..|ds| - 1]) + DigitValue(ds[|ds| - 1])
  }

  /** The decimal rendering of a natural number, as ToString gives it. */
  function NatToString(n: nat): (r: string)
    ensures |r| >= 1 && AllDigits(r)
    ensures n > 0 ==> r[0] != '0'
  {
    if n < 10 then [DigitChar(n)] else NatToString(n / 10) + [DigitChar(n % 10)]
  }

  /** parseInt(s, 10): None stands for NaN.  Leading white space is skipped, one sign
      is taken, and the longest run of decimal digits after it is read; everything
      from the first non-digit on is ignored.  (-0 reads as 0.) */
  function ParseInt(s: string): (r: Option<int>)
    ensures AllWhitespace(s) ==> r.None?
  {
    ParseSigned(TrimStart(s))
  }

  /** parseInt after the leading white space is gone: an optional sign, then digits. */
  function ParseSigned(t: string): Option<int> {
    if t == [] then None
    else if t[0] == '-' then
      (match ParseDigits(t[1..]) case None => None case Some(v) => Some(-(v as int)))
    else if t[0] == '+' then
      (match ParseDigits(t[1..]) case None => None case Some(v) => Some(v as int))
    else
      (match ParseDigits(t) case None => None case Some(v) => Some(v as int))
  }

  function ParseDigits(u: string): Option<nat> {
    var z := DigitPrefix(u);
    if z == [] then None else Some(DigitsValue(z))
  }

  lemma DigitIsNotWhitespace(c: char)
    requires IsDigit(c)
    ensures !IsWhitespace(c)
  {
  }

  /** Rendering a natural number and reading it back gives the number. */
  lemma {:induction false} DigitsValueOfNatToString(n: nat)
    ensures DigitsValue(NatToString(n)) == n
  {
    if n >= 10 {
      var s := NatToString(n);
      assert s[..|s| - 1] == NatToString(n / 10);
      DigitsValueOfNatToString(n / 10);
    }
  }

  /** A run of digits followed by anything that does not start with a digit parses
      to the value of the run: "15abc" reads 15, "2.5" reads 2. */
  lemma ParseIntStopsAtNonDigit(ds: string, tail: string)
    requires ds != [] && AllDigits(ds)
    requires tail == [] || !IsDigit(tail[0])
    ensures ParseInt(ds + tail) == Some(DigitsValue(ds) as int)
  {
    var s := ds + tail;
    assert s[0] == ds[0];
    DigitIsNotWhitespace(s[0]);
    TrimStartNoop(s);
    DigitPrefixOfDigitsThen(ds, tail);
    ParseSignedDigits(s, ds);
  }

  lemma TrimStartNoop(s: string)
    requires s == [] || !IsWhitespace(s[0])
    ensures TrimStart(s) == s
  {
  }

  lemma ParseSignedDigits(s: string, ds: string)
    requires ds != [] && AllDigits(ds) && DigitPrefix(s) == ds
    ensures ParseSigned(s) == Some(DigitsValue(ds) as int)
  {
    assert s[0] == ds[0];
  }

  lemma {:induction false} DigitPrefixOfDigitsThen(ds: string, tail: string)
    requires AllDigits(ds)
    requires tail == [] || !IsDigit(tail[0])
    ensures DigitPrefix(ds + tail) == ds
  {
    if ds != [] {
      assert (ds + tail)[1..] == ds[1..] + tail;
      DigitPrefixOfDigitsThen(ds[1..], tail);
    }
  }

  /** The digit run of a rendering is all of it, and reads back as the number. */
  lemma ParseDigitsOfNatToString(n: nat)
    ensures ParseDigits(NatToString(n)) == Some(n)
  {
    var ds := NatToString(n);
    assert ds + "" == ds;
    DigitPrefixOfDigitsThen(ds, "");
    DigitsValueOfNatToString(n);
  }

  /** The decimal rendering of every natural number parses back to it. */
  lemma ParseIntOfNatToString(n: nat)
    ensures ParseInt(NatToString(n)) == Some(n as int)
  {
    var ds := NatToString(n);
    DigitIsNotWhitespace(ds[0]);
    TrimStartNoop(ds);
    ParseDigitsOfNatToString(n);
  }

  /** A minus sign in front of a rendering gives the negated number. */
  lemma ParseIntOfNegative(n: nat)
    ensures ParseInt("-" + NatToString(n)) == Some(-(n as int))
  {
    var ds := NatToString(n);
    var s := "-" + ds;
    assert s[0] == '-' && s[1..] == ds;
    TrimStartNoop(s);
    ParseDigitsOfNatToString(n);
  }

  /** A rendering between leading white space and text that does not start with a
      digit parses to the number. */
  lemma ParseIntOfDigitsThen(w: string, n: nat, tail: string)
    requires AllWhitespace(w)
    requires tail == [] || !IsDigit(tail[0])
    ensures ParseInt(w + NatToString(n) + tail) == Some(n as int)
  {
    var ds := NatToString(n);
    var rest := ds + tail;
    assert w + ds + tail == w + rest;
    ParseIntSkipsWhitespace(w, rest);
    ParseIntStopsAtNonDigit(ds, tail);
    DigitsValueOfNatToString(n);
  }

  /** White space, an optional sign, a run of digits and text that does not start
      with a digit: no sign or "+" gives the run's value and "-" its negation, so
      "+7" reads 7, " 007" reads 7 and "-1.5" reads -1. */
  lemma {:induction false} ParseIntOfSignedDigitsThen(w: string, sign: string, ds: string, tail: string)
    requires AllWhitespace(w)
    requires sign == "" || sign == "+" || sign == "-"
    requires ds != [] && AllDigits(ds)
    requires tail == [] || !IsDigit(tail[0])
    ensures ParseInt(w + sign + ds + tail)
            == Some(if sign == "-" then -(DigitsValue(ds) as int) else DigitsValue(ds) as int)
  {
    var rest := sign + ds + tail;
    assert w + sign + ds + tail == w + rest;
    ParseIntSkipsWhitespace(w, rest);
    ParseIntOfSignThen(sign, ds, tail);
  }

  lemma {:induction false} ParseIntOfSignThen(sign: string, ds: string, tail: string)
    requires sign == "" || sign == "+" || sign == "-"
    requires ds != [] && AllDigits(ds)
    requires tail == [] || !IsDigit(tail[0])
    ensures ParseInt(sign + ds + tail)
            == Some(if sign == "-" then -(DigitsValue(ds) as int) else DigitsValue(ds) as int)
  {
    if sign == "" {
      assert sign + ds + tail == ds + tail;
      ParseIntStopsAtNonDigit(ds, tail);
    } else {
      assert sign == [sign[0]];
      assert sign + ds + tail == sign + (ds + tail);
      ParseIntOfSignCharThen(sign[0], ds, tail);
    }
  }

  lemma {:induction false} ParseIntOfSignCharThen(sign: char, ds: string, tail: string)
    requires sign == '+' || sign == '-'
    requires ds != [] && AllDigits(ds)
    requires tail == [] || !IsDigit(tail[0])
    ensures ParseInt([sign] + (ds + tail))
            == Some(if sign == '-' then -(DigitsValue(ds) as int) else DigitsValue(ds) as int)
  {
    ParseDigitsOfDigitsThen(ds, tail);
    ParseIntAfterSign(sign, ds + tail, DigitsValue(ds));
  }

  lemma {:induction false} ParseDigitsOfDigitsThen(ds: string, tail: string)
    requires ds != [] && AllDigits(ds)
    requires tail == [] || !IsDigit(tail[0])
    ensures ParseDigits(ds + tail) == Some(DigitsValue(ds))
  {
    DigitPrefixOfDigitsThen(ds, tail);
  }

  /** A sign that no digit follows is NaN: "-", "+" and " -x" all read NaN. */
  lemma {:induction false} ParseIntSignWithoutDigits(w: string, sign: char, tail: string)
    requires AllWhitespace(w)
    requires sign == '+' || sign == '-'
    requires tail == [] || !IsDigit(tail[0])
    ensures ParseInt(w + [sign] + tail) == None
  {
    var rest := [sign] + tail;
    assert w + [sign] + tail == w + rest;
    ParseIntSkipsWhitespace(w, rest);
    ParseIntSignNoDigits(sign, tail);
  }

  /** After a sign, parseInt reads the digits that follow it. */
  lemma {:induction false} ParseIntAfterSign(sign: char, u: string, v: nat)
    requires sign == '+' || sign == '-'
    requires ParseDigits(u) == Some(v)
    ensures ParseInt([sign] + u) == Some(if sign == '-' then -(v as int) else v as int)
  {
    var t := [sign] + u;
    assert !IsWhitespace(t[0]);
    TrimStartNoop(t);
    assert t[1..] == u;
  }

  lemma {:induction false} ParseIntSignNoDigits(sign: char, u: string)
    requires sign == '+' || sign == '-'
    requires ParseDigits(u) == None
    ensures ParseInt([sign] + u) == None
  {
    var t := [sign] + u;
    assert !IsWhitespace(t[0]);
    TrimStartNoop(t);
    assert t[1..] == u;
  }

  /** Leading white space never changes what parseInt reads. */
  lemma {:induction false} ParseIntSkipsWhitespace(w: string, s: string)
    requires AllWhitespace(w)
    ensures ParseInt(w + s) == ParseInt(s)
  {
    TrimStartSkipsWhitespace(w, s);
  }

  lemma {:induction false} TrimStartSkipsWhitespace(w: string, s: string)
    requires AllWhitespace(w)
    ensures TrimStart(w + s) == TrimStart(s)
  {
    if w != [] {
      assert (w + s)[0] == w[0];
      assert (w + s)[1..] == w[1..] + s;
      TrimStartSkipsWhitespace(w[1..], s);
    } else {
      assert w + s == s;
    }
  }

  /** Text that does not start (after white space) with a sign or a digit is NaN;
      in particular the empty string is. */
  lemma ParseIntNaN(s: string)
    requires s == [] || (!IsWhitespace(s[0]) && !IsDigit(s[0]) && s[0] != '+' && s[0] != '-')
    ensures ParseInt(s) == None
  {
  }

  predicate StartsWith(s: string, prefix: string) {
    |prefix| <= |s| && s[..|prefix|] == prefix
  }

  predicate EndsWith(s: string, suffix: string) {
    |suffix| <= |s| && s[|s| - |suffix|..] == suffix
  }

  // ---------------------------------------------------------------------------
  // `a || b || ... || fallback` over strings that may be undefined

  /** The value of `candidates[0] || candidates[1] || ... || fallback`: the first
      truthy candidate, or the fallback when there is none. */
  function FirstTruthy(candidates: seq<Text>, fallback: string): (r: string)
    ensures fallback != "" ==> r != ""
    ensures forall i :: 0 <= i < |candidates| && Truthy(candidates[i]) && NoneTruthyBefore(candidates, i)
              ==> r == candidates[i].value
    ensures NoneTruthyBefore(candidates, |candidates|) ==> r == fallback
    ensures r == fallback || Some(r) in candidates
  {
    if candidates == [] then fallback
    else if Truthy(candidates[0]) then candidates[0].value
    else
      var r := FirstTruthy(candidates[1..], fallback);
      assert forall i :: 1 <= i <= |candidates| && NoneTruthyBefore(candidates, i)
               ==> NoneTruthyBefore(candidates[1..], i - 1);
      r
  }

  predicate NoneTruthyBefore(candidates: seq<Text>, k: nat)
    requires k <= |candidates|
  {
    forall j :: 0 <= j < k ==> !Truthy(candidates[j])
  }

  // ---------------------------------------------------------------------------
  // Array.prototype.join, and the pieces a text breaks into at one character

  /** Array.prototype.join: the elements with `sep` between consecutive ones. */
  function Join(parts: seq<string>, sep: string): (r: string)
    ensures |parts| == 0 ==> r == ""
    ensures |parts| == 1 ==> r == parts[0]
    ensures |parts| >= 1 ==> StartsWith(r, parts[0])
  {
    if |parts| == 0 then ""
    else if |parts| == 1 then parts[0]
    else parts[0] + sep + Join(parts[1..], sep)
  }

  /** Join of a first part and a non-empty rest puts the separator between them. */
  lemma JoinCons(head: string, rest: seq<string>, sep: string)
    requires |rest| >= 1
    ensures Join([head] + rest, sep) == head + sep + Join(rest, sep)
  {
    assert ([head] + rest)[1..] == rest;
  }

  /** The pieces a text breaks into at every occurrence of a one-character
      separator, as String.prototype.split gives them.  With the separator '\n' these
      are the lines a multi-line text shows when its line breaks are kept. */
  function Split(s: string, sep: char): (r: seq<string>)
    ensures |r| >= 1
  {
    if s == [] then [""]
    else if s[0] == sep then [""] + Split(s[1..], sep)
    else var rest := Split(s[1..], sep); [[s[0]] + rest[0]] + rest[1..]
  }

  lemma {:induction false} SplitNoSeparator(s: string, sep: char)
    requires sep !in s
    ensures Split(s, sep) == [s]
  {
    if s != [] {
      SplitNoSeparator(s[1..], sep);
      assert [s[0]] + s[1..] == s;
    }
  }

  lemma {:induction false} SplitAtFirst(a: string, sep: char, rest: string)
    requires sep !in a
    ensures Split(a + [sep] + rest, sep) == [a] + Split(rest, sep)
  {
    var s := a + [sep] + rest;
    if a == [] {
      assert s == [sep] + rest;
      assert s[1..] == rest;
    } else {
      assert s[1..] == a[1..] + [sep] + rest;
      SplitAtFirst(a[1..], sep, rest);
      assert [a[0]] + a[1..] == a;
    }
  }

  /** Splitting a join on its separator gives back the parts, provided no part
      contains the separator. */
  lemma {:induction false} SplitJoin(parts: seq<string>, sep: char)
    requires |parts| >= 1
    requires forall i :: 0 <= i < |parts| ==> sep !in parts[i]
    ensures Split(Join(parts, [sep]), sep) == parts
  {
    if |parts| == 1 {
      SplitNoSeparator(parts[0], sep);
    } else {
      SplitJoin(parts[1..], sep);
      SplitAtFirst(parts[0], sep, Join(parts[1..], [sep]));
      assert [parts[0]] + parts[1..] == parts;
    }
  }
}
