/** The JavaScript built-ins that the chunk and collider keys rely on:
    an integer's decimal text (as template literals print it), `split(':')`,
    and `parseInt(p, 10)`, whose failure value NaN is a constructor of `Num`. */
module JsText {

  /** A JavaScript number as far as the keys need one: an integer or NaN. */
  datatype Num = Int(value: int) | NaN

  predicate IsDigit(c: char) {
    '0' <= c <= '9'
  }

  function DigitChar(d: nat): (c: char)
    requires d < 10
    ensures IsDigit(c) && c as int - '0' as int == d
  {
    (d + '0' as int) as char
  }

  function DigitValue(c: char): (d: nat)
    requires IsDigit(c)
    ensures d < 10 && c as int - '0' as int == d
  {
    c as int - '0' as int
  }

  predicate AllDigits(s: string) {
    forall i :: 0 <= i < |s| ==> IsDigit(s[i])
  }

  /** Decimal text of a natural number, most significant digit first, no leading zeros. */
  function NatToString(n: nat): (s: string)
    ensures |s| >= 1 && AllDigits(s)
    decreases n
  {
    if n < 10 then [DigitChar(n)] else NatToString(n / 10) + [DigitChar(n % 10)]
  }

  /** `String(n)` for an integer-valued number (template literals use it). */
  function IntToString(n: int): string {
    if n < 0 then "-" + NatToString(-n) else NatToString(n)
  }

  /** The white-space characters `parseInt` skips before the number: the ECMAScript
      `WhiteSpace` and `LineTerminator` code points, every `Zs` space among them. */
  predicate IsSpace(c: char) {
    c == ' ' || c == '\t' || c == '\n' || c == '\r' || c == '\U{000B}' || c == '\U{000C}'
    || c == '\U{00A0}' || c == '\U{FEFF}' || c == '\U{2028}' || c == '\U{2029}'
    || c == '\U{1680}' || '\U{2000}' <= c <= '\U{200A}' || c == '\U{202F}' || c == '\U{205F}' || c == '\U{3000}'
  }

  function TrimStart(s: string): string {
    if s != [] && IsSpace(s[0]) then TrimStart(s[1..]) else s
  }

  /** `acc` extended, digit by digit, with the run of decimal digits that `u` starts with. */
  function DigitRun(u: string, acc: int): int {
    if u == [] || !IsDigit(u[0]) then acc else DigitRun(u[1..], acc * 10 + DigitValue(u[0]))
  }

  /** The value of the digits `u` starts with; NaN when it does not start with a digit. */
  function ParseDigits(u: string): Num {
    if u == [] || !IsDigit(u[0]) then NaN else Int(DigitRun(u, 0))
  }

  function Negate(n: Num): Num {
    match n
    case Int(v) => Int(-v)
    case NaN => NaN
  }

  /** `parseInt(s, 10)`: leading white space, an optional sign, then the longest run of
      digits; NaN when there is none. */
  function ParseInt(s: string): Num {
    var t := TrimStart(s);
    if t != [] && t[0] == '-' then Negate(ParseDigits(t[1..]))
    else if t != [] && t[0] == '+' then ParseDigits(t[1..])
    else ParseDigits(t)
  }

  /** A leading white-space character, the ideographic space U+3000 included, does not change
      what `parseInt` reads. */
  lemma ParseIntSkipsSpace(c: char, s: string)
    requires IsSpace(c)
    ensures ParseInt([c] + s) == ParseInt(s)
    ensures ParseInt("\U{3000}1") == Int(1)
  {
    assert ([c] + s)[1..] == s;
    assert "\U{3000}1"[1..] == "1";
  }

  /** `s.split(':')`. */
  function Split(s: string): (parts: seq<string>)
    ensures |parts| >= 1
  {
    if s == [] then [""]
    else
      var rest := Split(s[1..]);
      if s[0] == ':' then [""] + rest else [[s[0]] + rest[0]] + rest[1..]
  }

  /** The decimal texts of `xs` joined with ':' (a template literal such as `${a}:${b}:${c}`). */
  function Join(xs: seq<int>): string
  {
    if |xs| == 0 then ""
    else if |xs| == 1 then IntToString(xs[0])
    else IntToString(xs[0]) + ":" + Join(xs[1..])
  }

  /** The decimal text of each of `xs`. */
  function Texts(xs: seq<int>): (r: seq<string>)
    ensures |r| == |xs| && forall i :: 0 <= i < |xs| ==> r[i] == IntToString(xs[i])
  {
    if xs == [] then [] else [IntToString(xs[0])] + Texts(xs[1..])
  }

  /** An integer's text is a sign or a digit, then digits only; in particular it holds no ':'. */
  lemma IntToStringShape(n: int)
    ensures var s := IntToString(n);
      |s| >= 1 && (s[0] == '-' || IsDigit(s[0])) && AllDigits(s[1..]) && ':' !in s
  {
    var s := IntToString(n);
    if n < 0 {
      assert s[1..] == NatToString(-n);
    } else {
      assert AllDigits(s[1..]);
    }
  }

  /** Reading a run of digits and then the rest is reading the rest from the run's value. */
  lemma {:induction false} DigitRunAppend(a: string, b: string, acc: int)
    requires AllDigits(a)
    ensures DigitRun(a + b, acc) == DigitRun(b, DigitRun(a, acc))
    decreases |a|
  {
    if a == [] {
      assert a + b == b;
    } else {
      assert (a + b)[1..] == a[1..] + b;
      assert AllDigits(a[1..]) by {
        forall i | 0 <= i < |a[1..]| ensures IsDigit(a[1..][i]) {
          assert a[1..][i] == a[i + 1];
        }
      }
      DigitRunAppend(a[1..], b, acc * 10 + DigitValue(a[0]));
    }
  }

  /** The digits of `n`, followed by anything that is not a digit, read back as `n`. */
  lemma {:induction false} DigitRunOfNat(n: nat, rest: string)
    requires rest == [] || !IsDigit(rest[0])
    ensures DigitRun(NatToString(n) + rest, 0) == n
    decreases n
  {
    var d := [DigitChar(n % 10)];
    if n < 10 {
      assert (d + rest)[1..] == rest;
    } else {
      var high := NatToString(n / 10);
      DigitRunOfNat(n / 10, []);
      assert high + [] == high;
      assert NatToString(n) + rest == high + (d + rest);
      DigitRunAppend(high, d + rest, 0);
      assert (d + rest)[1..] == rest;
    }
  }

  /** `parseInt` reads back the text of an integer, whatever non-digit text follows it. */
  lemma ParseIntOfString(n: int, rest: string)
    requires rest == [] || !IsDigit(rest[0])
    ensures ParseInt(IntToString(n) + rest) == Int(n)
  {
    var s := IntToString(n) + rest;
    IntToStringShape(n);
    assert TrimStart(s) == s;
    if n < 0 {
      assert s[1..] == NatToString(-n) + rest;
      DigitRunOfNat(-n, rest);
    } else {
      DigitRunOfNat(n, rest);
    }
  }

  lemma {:induction false} SplitPlain(a: string)
    requires ':' !in a
    ensures Split(a) == [a]
  {
    if a != [] {
      assert forall i :: 0 <= i < |a[1..]| ==> a[1..][i] == a[i + 1];
      SplitPlain(a[1..]);
      assert [a[0]] + a[1..] == a;
    }
  }

  lemma {:induction false} SplitAt(a: string, b: string)
    requires ':' !in a
    ensures Split(a + ":" + b) == [a] + Split(b)
  {
    if a == [] {
      assert (a + ":" + b)[1..] == b;
    } else {
      assert (a + ":" + b)[1..] == a[1..] + ":" + b;
      SplitAt(a[1..], b);
      assert [a[0]] + a[1..] == a;
    }
  }

  /** Splitting the joined text of `xs` gives the text of each of `xs`. */
  lemma {:induction false} SplitJoin(xs: seq<int>)
    requires |xs| >= 1
    ensures Split(Join(xs)) == Texts(xs)
  {
    IntToStringShape(xs[0]);
    if |xs| == 1 {
      SplitPlain(IntToString(xs[0]));
    } else {
      SplitAt(IntToString(xs[0]), Join(xs[1..]));
      SplitJoin(xs[1..]);
    }
  }

  /** Distinct integer sequences have distinct joined texts. */
  lemma JoinInjective(xs: seq<int>, ys: seq<int>)
    requires |xs| >= 1 && |ys| >= 1 && Join(xs) == Join(ys)
    ensures xs == ys
  {
    SplitJoin(xs);
    SplitJoin(ys);
    assert |xs| == |Texts(xs)| == |Texts(ys)| == |ys|;
    forall i | 0 <= i < |xs| ensures xs[i] == ys[i] {
      assert IntToString(xs[i]) == Texts(xs)[i] == Texts(ys)[i] == IntToString(ys[i]);
      ParseIntOfString(xs[i], []);
      ParseIntOfString(ys[i], []);
      assert IntToString(xs[i]) + [] == IntToString(xs[i]);
      assert IntToString(ys[i]) + [] == IntToString(ys[i]);
    }
  }
}
