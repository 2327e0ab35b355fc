/** The pieces of Ruby's core library the client relies on to build statements:
    Integer#to_s (what format's %s does with an Integer), Array#join with a single
    space and Kernel#format restricted to %s; and the reference server's tokenizer,
    which splits a statement at every single space. */
module Text {
  import opened Wrappers

  predicate IsDigit(c: char) {
    '0' <= c <= '9'
  }

  predicate AllDigits(s: string) {
    forall i :: 0 <= i < |s| ==> IsDigit(s[i])
  }

  function DigitChar(d: nat): (c: char)
    requires d < 10
    ensures IsDigit(c)
  {
    (('0' as int) + d) as char
  }

  function DigitValue(c: char): (d: nat)
    requires IsDigit(c)
    ensures d < 10 && DigitChar(d) == c
  {
    (c as int) - ('0' as int)
  }

  /** Decimal digits of a natural number, most significant first, no leading zeros. */
  function NatToStr(n: nat): (s: string)
    ensures |s| > 0 && AllDigits(s)
    ensures (|s| > 1) == (n >= 10)
  {
    if n < 10 then [DigitChar(n)] else NatToStr(n / 10) + [DigitChar(n % 10)]
  }

  /** Value of a string of decimal digits. */
  function StrToNat(s: string): nat
    requires AllDigits(s)
    decreases |s|
  {
    if |s| == 0 then 0 else StrToNat(s[..|s| - 1]) * 10 + DigitValue(s[|s| - 1])
  }

  lemma {:induction false} StrToNatOfNatToStr(n: nat)
    ensures StrToNat(NatToStr(n)) == n
  {
    if n >= 10 {
      var s := NatToStr(n / 10);
      var t := s + [DigitChar(n % 10)];
      assert NatToStr(n) == t;
      assert t[..|t| - 1] == s;
      StrToNatOfNatToStr(n / 10);
    }
  }

  /** Integer#to_s: an optional minus sign followed by the decimal digits. */
  function IntToStr(i: int): (s: string)
    ensures |s| > 0 && ' ' !in s && '%' !in s
  {
    if i < 0 then "-" + NatToStr(-i) else NatToStr(i)
  }

  /** Reads back an integer literal as PostgreSQL's grammar accepts it in a
      CREATE SEQUENCE clause: an optional minus sign and at least one digit. */
  function ParseInt(s: string): Option<int> {
    if |s| > 1 && s[0] == '-' && AllDigits(s[1..]) then Some(0 - StrToNat(s[1..]))
    else if |s| > 0 && AllDigits(s) then Some(StrToNat(s))
    else None
  }

  /** Rendering an integer and reading it back gives the integer again. */
  lemma ParseIntOfIntToStr(i: int)
    ensures ParseInt(IntToStr(i)) == Some(i)
  {
    if i < 0 {
      var s := IntToStr(i);
      assert s[1..] == NatToStr(-i);
      StrToNatOfNatToStr(-i);
    } else {
      assert !IsDigit('-');
      StrToNatOfNatToStr(i);
    }
  }

  /** Text rendering of integers is injective. */
  lemma IntToStrInjective(i: int, j: int)
    requires IntToStr(i) == IntToStr(j)
    ensures i == j
  {
    ParseIntOfIntToStr(i);
    ParseIntOfIntToStr(j);
  }

  /** Array#join(' '). */
  function Join(parts: seq<string>): string {
    if |parts| == 0 then ""
    else if |parts| == 1 then parts[0]
    else parts[0] + " " + Join(parts[1..])
  }

  /** The reference server's tokenizer: a split at every single space that keeps
      empty fields (so it is not Ruby's String#split, which the client never calls). */
  function Split(s: string): (words: seq<string>)
    ensures |words| > 0
  {
    if |s| == 0 then [""]
    else if s[0] == ' ' then [""] + Split(s[1..])
    else [[s[0]] + Split(s[1..])[0]] + Split(s[1..])[1..]
  }

  /** The words of each part, in order. */
  function SplitAll(parts: seq<string>): seq<string> {
    if |parts| == 0 then [] else Split(parts[0]) + SplitAll(parts[1..])
  }

  lemma {:induction false} SplitWithoutSpace(s: string)
    requires ' ' !in s
    ensures Split(s) == [s]
  {
    if |s| > 0 {
      SplitWithoutSpace(s[1..]);
      assert [s[0]] + s[1..] == s;
    }
  }

  /** Splitting around a space splits each side separately. */
  lemma {:induction false} SplitAroundSpace(a: string, b: string)
    ensures Split(a + " " + b) == Split(a) + Split(b)
  {
    if |a| == 0 {
      assert a + " " + b == " " + b;
      assert (" " + b)[1..] == b;
    } else {
      var s := a + " " + b;
      assert s[0] == a[0];
      assert s[1..] == a[1..] + " " + b;
      SplitAroundSpace(a[1..], b);
    }
  }

  lemma {:induction false} SplitAllAppend(p: seq<string>, q: seq<string>)
    ensures SplitAll(p + q) == SplitAll(p) + SplitAll(q)
  {
    if |p| > 0 {
      assert (p + q)[0] == p[0];
      assert (p + q)[1..] == p[1..] + q;
      SplitAllAppend(p[1..], q);
    } else {
      assert p + q == q;
    }
  }

  /** Joining with spaces and splitting at spaces yields the words of every part. */
  lemma {:induction false} SplitOfJoin(parts: seq<string>)
    requires |parts| > 0
    ensures Split(Join(parts)) == SplitAll(parts)
  {
    if |parts| == 1 {
      assert SplitAll(parts[1..]) == [];
    } else {
      SplitOfJoin(parts[1..]);
      SplitAroundSpace(parts[0], Join(parts[1..]));
    }
  }

  /** A join of two or more parts starts with the first part and a space. */
  lemma JoinHead(parts: seq<string>)
    requires |parts| > 1
    ensures Join(parts) == parts[0] + " " + Join(parts[1..])
  {
  }

  /** A template for Kernel#format whose only directive is %s. */
  predicate IsTemplate(t: string) {
    forall i :: 0 <= i < |t| && t[i] == '%' ==> i + 1 < |t| && t[i + 1] == 's'
  }

  /** Number of %s directives in a template. */
  function Directives(t: string): nat
    requires IsTemplate(t)
    decreases |t|
  {
    if |t| == 0 then 0
    else if t[0] == '%' then assert IsTemplate(t[2..]) by { TemplateTail(t, 2); } 1 + Directives(t[2..])
    else assert IsTemplate(t[1..]) by { TemplateTail(t, 1); } Directives(t[1..])
  }

  lemma TemplateTail(t: string, k: nat)
    requires IsTemplate(t) && k <= |t|
    requires k == 2 ==> |t| >= 2 && t[0] == '%'
    requires k == 1 ==> |t| >= 1 && t[0] != '%'
    requires k == 1 || k == 2
    ensures IsTemplate(t[k..])
  {
    forall i | 0 <= i < |t[k..]| && t[k..][i] == '%'
      ensures i + 1 < |t[k..]| && t[k..][i + 1] == 's'
    {
      assert t[k + i] == '%';
    }
  }

  /** Kernel#format: each %s is replaced by the next argument, in order. Ruby
      raises ArgumentError when there are fewer arguments than directives;
      every template here has exactly as many. */
  function Format(t: string, args: seq<string>): string
    requires IsTemplate(t) && Directives(t) <= |args|
    decreases |t|
  {
    if |t| == 0 then ""
    else if t[0] == '%' then
      assert IsTemplate(t[2..]) by { TemplateTail(t, 2); }
      args[0] + Format(t[2..], args[1..])
    else
      assert IsTemplate(t[1..]) by { TemplateTail(t, 1); }
      [t[0]] + Format(t[1..], args)
  }

  lemma {:induction false} FormatLiteral(s: string, args: seq<string>)
    requires '%' !in s
    ensures IsTemplate(s) && Directives(s) == 0 && Format(s, args) == s
  {
    if |s| > 0 {
      FormatLiteral(s[1..], args);
      assert [s[0]] + s[1..] == s;
    }
  }

  lemma TemplateOne(prefix: string, suffix: string)
    requires '%' !in prefix && '%' !in suffix
    ensures IsTemplate(prefix + "%s" + suffix)
  {
    var t := prefix + "%s" + suffix;
    assert forall i :: 0 <= i < |prefix| ==> t[i] == prefix[i];
    assert forall i :: |prefix| + 2 <= i < |t| ==> t[i] == suffix[i - |prefix| - 2];
  }

  /** Formatting a template with a single %s substitutes the argument for it. */
  lemma {:induction false} FormatOne(prefix: string, arg: string, suffix: string)
    requires '%' !in prefix && '%' !in suffix
    ensures IsTemplate(prefix + "%s" + suffix) && Directives(prefix + "%s" + suffix) == 1
    ensures Format(prefix + "%s" + suffix, [arg]) == prefix + arg + suffix
  {
    var t := prefix + "%s" + suffix;
    TemplateOne(prefix, suffix);
    if |prefix| == 0 {
      assert t[0] == '%' && t[2..] == suffix;
      FormatLiteral(suffix, []);
      assert [arg][1..] == [];
      assert Format(t, [arg]) == arg + Format(suffix, []);
    } else {
      var rest := prefix[1..] + "%s" + suffix;
      assert t[0] == prefix[0] && t[0] != '%';
      assert t[1..] == rest;
      FormatOne(prefix[1..], arg, suffix);
      assert Directives(t) == Directives(rest);
      assert Format(t, [arg]) == [t[0]] + Format(rest, [arg]);
      assert [prefix[0]] + prefix[1..] == prefix;
    }
  }
}
