/** JavaScript numbers as the modelled code reads and writes them: `parseInt(s, 10)`
    on the server, `Number(s)` and `String(n)` on the client. A number here is an
    integer or NaN; fractions and infinities are outside the model. */
module Numbers {
  import opened Strings

  datatype Num = Int(value: int) | NaN

  /** `Number.MAX_SAFE_INTEGER`: up to it every integer is a double, and
      `String` writes it in plain digits. */
  const MaxSafe: int := 9007199254740991

  predicate Safe(n: Num)
  {
    n.NaN? || -MaxSafe <= n.value <= MaxSafe
  }

  predicate IsDigit(c: char)
  {
    '0' <= c <= '9'
  }

  predicate AllDigits(s: string)
  {
    forall i :: 0 <= i < |s| ==> IsDigit(s[i])
  }

  function DigitChar(d: nat): (c: char)
    requires d < 10
    ensures IsDigit(c) && c as int - '0' as int == d
  {
    ('0' as int + d) as char
  }

  /** The value of a run of decimal digits. */
  function DigitsValue(ds: string): nat
    requires AllDigits(ds)
  {
    if ds == [] then 0
    else 10 * DigitsValue(ds[..|ds| - 1]) + (ds[|ds| - 1] as int - '0' as int)
  }

  /** The decimal digits of `n`, with no leading zero. */
  function NatToDigits(n: nat): (r: string)
    ensures r != [] && AllDigits(r)
    ensures DigitsValue(r) == n
  {
    if n < 10 then [DigitChar(n)]
    else
      var r := NatToDigits(n / 10) + [DigitChar(n % 10)];
      assert r[..|r| - 1] == NatToDigits(n / 10);
      r
  }

  /** `String(n)`. */
  function ToText(n: Num): string
  {
    match n
    case NaN => "NaN"
    case Int(i) => if i < 0 then "-" + NatToDigits(-i) else NatToDigits(i)
  }

  /** The longest prefix of `s` made of decimal digits. */
  function LeadingDigits(s: string): (r: string)
    ensures |r| <= |s| && r == s[..|r|] && AllDigits(r)
    ensures |r| == |s| || !IsDigit(s[|r|])
  {
    if s != [] && IsDigit(s[0]) then [s[0]] + LeadingDigits(s[1..]) else []
  }

  /** `parseInt(s, 10)`: leading white space, an optional sign, then the longest
      run of digits; NaN when there is no digit. Text after the digits is ignored. */
  function ParseInt(s: string): (r: Num)
    ensures r == NaN <==> LeadingDigits(SignedBody(DropLeading(s, Whitespace))) == []
  {
    var t := DropLeading(s, Whitespace);
    var ds := LeadingDigits(SignedBody(t));
    if ds == [] then NaN
    else if t[0] == '-' then Int(-(DigitsValue(ds) as int))
    else Int(DigitsValue(ds))
  }

  /** What follows an optional leading sign. */
  function SignedBody(t: string): (r: string)
    ensures r == t || (t != [] && r == t[1..] && (t[0] == '-' || t[0] == '+'))
  {
    if t != [] && (t[0] == '-' || t[0] == '+') then t[1..] else t
  }

  /** `Number(s)` on text that is blank (0), an optionally signed run of decimal
      digits, or anything else (NaN). */
  function ToNumber(s: string): (r: Num)
    ensures Trim(s) == [] ==> r == Int(0)
  {
    var t := Trim(s);
    if t == [] then Int(0)
    else
      var body := SignedBody(t);
      if body == [] || !AllDigits(body) then NaN
      else if t[0] == '-' then Int(-(DigitsValue(body) as int))
      else Int(DigitsValue(body))
  }

  /** The text `String(n)` writes for an integer starts with a sign or a digit
      and ends with a digit. */
  lemma {:induction false} ToTextShape(n: int)
    ensures var s := ToText(Int(n));
      s != [] && s[0] !in Whitespace && s[|s| - 1] !in Whitespace
      && SignedBody(s) == NatToDigits(if n < 0 then -n else n)
      && (s[0] == '-' <==> n < 0)
  {
    var d := NatToDigits(if n < 0 then -n else n);
    var s := ToText(Int(n));
    assert IsDigit(d[0]) && IsDigit(d[|d| - 1]);
    assert d[0] !in Whitespace && d[|d| - 1] !in Whitespace;
    if n < 0 {
      assert s == "-" + d;
      assert s[0] == '-' && s[1..] == d && s[|s| - 1] == d[|d| - 1];
    } else {
      assert s == d;
    }
  }

  lemma {:induction false} LeadingDigitsAll(s: string)
    requires AllDigits(s)
    ensures LeadingDigits(s) == s
  {
    if s != [] {
      LeadingDigitsAll(s[1..]);
    }
  }

  /** The server's `parseInt` reads back what the client's `String` wrote. */
  lemma {:induction false} ParseIntToText(n: int)
    requires -MaxSafe <= n <= MaxSafe
    ensures ParseInt(ToText(Int(n))) == Int(n)
  {
    var s := ToText(Int(n));
    ToTextShape(n);
    var d := NatToDigits(if n < 0 then -n else n);
    LeadingDigitsAll(d);
  }

  lemma {:induction false} LeadingDigitsPrefix(ds: string, rest: string)
    requires AllDigits(ds)
    requires rest == [] || !IsDigit(rest[0])
    ensures LeadingDigits(ds + rest) == ds
  {
    if ds == [] {
      assert ds + rest == rest;
    } else {
      assert (ds + rest)[0] == ds[0] && (ds + rest)[1..] == ds[1..] + rest;
      LeadingDigitsPrefix(ds[1..], rest);
      assert [ds[0]] + ds[1..] == ds;
    }
  }

  /** An optional sign before a digit is all that `SignedBody` drops. */
  lemma {:induction false} SignedBodyOf(sign: string, x: string)
    requires sign == [] || sign == ['-'] || sign == ['+']
    requires x != [] && IsDigit(x[0])
    ensures SignedBody(sign + x) == x
    ensures (sign + x)[0] == '-' <==> sign == ['-']
    ensures (sign + x)[0] !in Whitespace
  {
    assert (sign + x)[0] == (if sign == [] then x[0] else sign[0]);
    if sign != [] {
      assert (sign + x)[1..] == x;
    }
  }

  /** The value `parseInt` reads: after white space and an optional sign, the
      run of digits, whatever text follows it. */
  lemma {:induction false} ParseIntValue(ws: string, sign: string, ds: string, rest: string)
    requires forall i :: 0 <= i < |ws| ==> ws[i] in Whitespace
    requires sign == [] || sign == ['-'] || sign == ['+']
    requires ds != [] && AllDigits(ds)
    requires rest == [] || !IsDigit(rest[0])
    ensures ParseInt(ws + sign + ds + rest) == Int(if sign == ['-'] then -(DigitsValue(ds) as int) else DigitsValue(ds))
  {
    var x := ds + rest;
    var body := sign + x;
    assert ws + sign + ds + rest == ws + body by {
      assert sign + ds + rest == body;
    }
    assert body[0] !in Whitespace && (body[0] == '-' <==> sign == ['-'])
        && SignedBody(body) == x by {
      assert x[0] == ds[0];
      SignedBodyOf(sign, x);
    }
    assert DropLeading(ws + body, Whitespace) == body by {
      DropLeadingAfter(ws, body, Whitespace);
    }
    assert LeadingDigits(x) == ds by {
      LeadingDigitsPrefix(ds, rest);
    }
    ParseIntOfBody(ws + body, body, ds);
  }

  /** `parseInt` of text whose white space ends where `body` starts. */
  lemma {:induction false} ParseIntOfBody(s: string, body: string, ds: string)
    requires DropLeading(s, Whitespace) == body
    requires ds != [] && AllDigits(ds)
    requires LeadingDigits(SignedBody(body)) == ds
    ensures ParseInt(s) == Int(if body[0] == '-' then -(DigitsValue(ds) as int) else DigitsValue(ds))
  {
  }

  /** The value `Number` reads from text that trims to an optionally signed
      run of digits. */
  lemma {:induction false} ToNumberValue(s: string, sign: string, ds: string)
    requires sign == [] || sign == ['-'] || sign == ['+']
    requires ds != [] && AllDigits(ds)
    requires Trim(s) == sign + ds
    ensures ToNumber(s) == Int(if sign == ['-'] then -(DigitsValue(ds) as int) else DigitsValue(ds))
  {
    var t := sign + ds;
    assert t[0] == (if sign == [] then ds[0] else sign[0]);
    assert SignedBody(t) == ds;
  }

  /** Text that starts with neither white space, a sign nor a digit is NaN to
      `parseInt`. */
  lemma {:induction false} ParseIntNoDigit(s: string)
    requires s != [] && s[0] !in Whitespace && s[0] != '-' && s[0] != '+' && !IsDigit(s[0])
    ensures ParseInt(s) == NaN
  {
    assert DropLeading(s, Whitespace) == s;
    assert SignedBody(s) == s;
  }

  /** `Number(String(n))` is `n`, NaN included. */
  lemma {:induction false} ToNumberToText(n: Num)
    ensures ToNumber(ToText(n)) == n
  {
    if n.Int? {
      var s := ToText(n);
      ToTextShape(n.value);
      assert Trim(s) == s;
    } else {
      var s := ToText(n);
      assert s[0] == 'N' && s[|s| - 1] == 'N' && 'N' !in Whitespace;
      assert Trim(s) == s;
      assert SignedBody(s) == s && !IsDigit(s[0]);
    }
  }
}
