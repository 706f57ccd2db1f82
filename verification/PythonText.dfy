/** The string operations the bridge uses on camera output: find, replace, strip, isdigit, int and str. */
module PythonText {
  import opened Features

  /** s.find(part) > -1 */
  predicate Contains(s: string, part: string) {
    exists i | 0 <= i <= |s| :: part <= s[i..]
  }

  /** s.replace(c, "") */
  function Without(s: string, c: char): string {
    if s == [] then []
    else if s[0] == c then Without(s[1..], c)
    else [s[0]] + Without(s[1..], c)
  }

  lemma {:induction false} WithoutRemoves(s: string, c: char)
    ensures c !in Without(s, c)
  {
    if s != [] {
      WithoutRemoves(s[1..], c);
    }
  }

  lemma {:induction false} WithoutAppend(s: string, c: char)
    requires c !in s
    ensures Without(s + [c], c) == s
  {
    if s == [] {
      assert (s + [c])[1..] == [];
    } else {
      assert (s + [c])[1..] == s[1..] + [c];
      WithoutAppend(s[1..], c);
    }
  }

  function TrimLeft(s: string, cs: set<char>): string {
    if s != [] && s[0] in cs then TrimLeft(s[1..], cs) else s
  }

  function TrimRight(s: string, cs: set<char>): string {
    if s != [] && s[|s| - 1] in cs then TrimRight(s[..|s| - 1], cs) else s
  }

  /** s.strip(cs) */
  function Strip(s: string, cs: set<char>): string {
    TrimRight(TrimLeft(s, cs), cs)
  }

  lemma {:induction false} TrimLeftEnds(s: string, cs: set<char>, c: char)
    ensures var r := TrimLeft(s, cs); (r == [] || r[0] !in cs) && (c !in s ==> c !in r)
  {
    if s != [] && s[0] in cs {
      TrimLeftEnds(s[1..], cs, c);
    }
  }

  lemma {:induction false} TrimRightEnds(s: string, cs: set<char>, c: char)
    ensures var r := TrimRight(s, cs); r <= s && (r == [] || r[|r| - 1] !in cs) && (c !in s ==> c !in r)
  {
    if s != [] && s[|s| - 1] in cs {
      TrimRightEnds(s[..|s| - 1], cs, c);
    }
  }

  /** What strip leaves neither starts nor ends with a stripped character and holds no new character. */
  lemma StripEnds(s: string, cs: set<char>, c: char)
    ensures var r := Strip(s, cs);
            (r == [] || (r[0] !in cs && r[|r| - 1] !in cs)) && (c !in s ==> c !in r)
  {
    TrimLeftEnds(s, cs, c);
    TrimRightEnds(TrimLeft(s, cs), cs, c);
  }

  predicate AllIn(s: string, cs: set<char>) {
    forall i | 0 <= i < |s| :: s[i] in cs
  }

  lemma {:induction false} TrimLeftExact(s: string, cs: set<char>) returns (a: string)
    ensures s == a + TrimLeft(s, cs) && AllIn(a, cs)
  {
    if s != [] && s[0] in cs {
      var rest := TrimLeftExact(s[1..], cs);
      a := [s[0]] + rest;
      assert s == [s[0]] + s[1..];
    } else {
      a := [];
    }
  }

  lemma {:induction false} TrimRightExact(s: string, cs: set<char>) returns (b: string)
    ensures s == TrimRight(s, cs) + b && AllIn(b, cs)
  {
    if s != [] && s[|s| - 1] in cs {
      var rest := TrimRightExact(s[..|s| - 1], cs);
      b := rest + [s[|s| - 1]];
      assert s == s[..|s| - 1] + [s[|s| - 1]];
    } else {
      b := [];
    }
  }

  /** strip takes characters of the set off both ends and nothing else; with StripEnds, as many as there are. */
  lemma StripExact(s: string, cs: set<char>) returns (a: string, b: string)
    ensures s == a + Strip(s, cs) + b && AllIn(a, cs) && AllIn(b, cs)
  {
    a := TrimLeftExact(s, cs);
    b := TrimRightExact(TrimLeft(s, cs), cs);
  }

  lemma {:induction false} TrimLeftOf(a: string, s: string, cs: set<char>)
    requires AllIn(a, cs) && (s == [] || s[0] !in cs)
    ensures TrimLeft(a + s, cs) == s
  {
    if a == [] {
      assert a + s == s;
    } else {
      assert (a + s)[0] == a[0] && (a + s)[1..] == a[1..] + s;
      TrimLeftOf(a[1..], s, cs);
    }
  }

  lemma {:induction false} TrimRightOf(s: string, b: string, cs: set<char>)
    requires AllIn(b, cs) && (s == [] || s[|s| - 1] !in cs)
    ensures TrimRight(s + b, cs) == s
  {
    if b == [] {
      assert s + b == s;
    } else {
      var n := |b| - 1;
      assert (s + b)[|s| + n] == b[n] && (s + b)[..|s| + n] == s + b[..n];
      TrimRightOf(s, b[..n], cs);
    }
  }

  /**
   * Padding is stripped: what stands between it is left, if that is not empty and has no such character at its ends.
   */
  lemma StripPadded(a: string, s: string, b: string, cs: set<char>)
    requires AllIn(a, cs) && AllIn(b, cs) && s != [] && s[0] !in cs && s[|s| - 1] !in cs
    ensures Strip(a + s + b, cs) == s
  {
    assert a + s + b == a + (s + b);
    TrimLeftOf(a, s + b, cs);
    TrimRightOf(s, b, cs);
  }

  /** part in s, said with what stands around it. */
  lemma ContainsAround(a: string, part: string, b: string)
    ensures Contains(a + part + b, part)
  {
    assert (a + part + b)[|a|..] == part + b;
  }

  predicate IsDigit(c: char) {
    '0' <= c <= '9'
  }

  /** s.isdigit(), for ASCII */
  predicate IsDigits(s: string) {
    s != [] && forall i | 0 <= i < |s| :: IsDigit(s[i])
  }

  function DigitValue(c: char): nat
    requires IsDigit(c)
  {
    c as int - '0' as int
  }

  const BLANKS: set<char> := {' ', '\t', '\n', '\r', '\U{000B}', '\U{000C}'}

  /** Digits with single underscores between them, after the first digit. */
  function MoreDigits(s: string, value: nat): Option<int> {
    if s == [] then Some(value)
    else if IsDigit(s[0]) then MoreDigits(s[1..], 10 * value + DigitValue(s[0]))
    else if s[0] == '_' && |s| > 1 && IsDigit(s[1]) then MoreDigits(s[1..], value)
    else None
  }

  function UnsignedInt(s: string): Option<int> {
    if s != [] && IsDigit(s[0]) then MoreDigits(s[1..], DigitValue(s[0])) else None
  }

  /** int(s), for ASCII text; None is the ValueError. */
  function PyInt(s: string): Option<int> {
    var t := Strip(s, BLANKS);
    if t == [] then None
    else if t[0] == '+' then UnsignedInt(t[1..])
    else if t[0] == '-' then
      match UnsignedInt(t[1..])
      case Some(v) => Some(-v)
      case None => None
    else UnsignedInt(t)
  }

  function DigitChar(d: nat): (c: char)
    requires d < 10
    ensures IsDigit(c) && DigitValue(c) == d
  {
    ('0' as int + d) as char
  }

  /** str(n) for n >= 0 */
  function Decimal(n: nat): (s: string)
    ensures IsDigits(s)
  {
    if n < 10 then [DigitChar(n)] else Decimal(n / 10) + [DigitChar(n % 10)]
  }

  lemma {:induction false} MoreDigitsAppend(s: string, value: nat, d: char)
    requires forall i | 0 <= i < |s| :: IsDigit(s[i])
    requires IsDigit(d)
    ensures MoreDigits(s, value).Some? && MoreDigits(s, value).value >= 0
    ensures MoreDigits(s + [d], value) == Some(10 * MoreDigits(s, value).value + DigitValue(d))
  {
    if s == [] {
      assert ([d])[1..] == [];
    } else {
      assert (s + [d])[1..] == s[1..] + [d];
      MoreDigitsAppend(s[1..], 10 * value + DigitValue(s[0]), d);
    }
  }

  lemma UnsignedIntAppend(s: string, d: char)
    requires IsDigits(s) && IsDigit(d)
    ensures UnsignedInt(s).Some?
    ensures UnsignedInt(s + [d]) == Some(10 * UnsignedInt(s).value + DigitValue(d))
  {
    MoreDigitsAppend(s[1..], DigitValue(s[0]), d);
    assert (s + [d])[1..] == s[1..] + [d];
  }

  lemma {:induction false} UnsignedIntDecimal(n: nat)
    ensures UnsignedInt(Decimal(n)) == Some(n)
  {
    if n >= 10 {
      UnsignedIntDecimal(n / 10);
      UnsignedIntAppend(Decimal(n / 10), DigitChar(n % 10));
    }
  }

  /** int undoes str on every natural number. */
  lemma IntOfDecimal(n: nat)
    ensures PyInt(Decimal(n)) == Some(n)
  {
    var s := Decimal(n);
    assert IsDigit(s[0]) && IsDigit(s[|s| - 1]);
    UnsignedIntDecimal(n);
  }

  /** int reads a decimal number with a sign and blanks around it; a minus sign makes it negative. */
  lemma IntOfSigned(a: string, n: nat, b: string)
    requires AllIn(a, BLANKS) && AllIn(b, BLANKS)
    ensures PyInt(a + Decimal(n) + b) == Some(n)
    ensures PyInt(a + ("-" + Decimal(n)) + b) == Some(-(n as int))
    ensures PyInt(a + ("+" + Decimal(n)) + b) == Some(n)
  {
    var s := Decimal(n);
    assert IsDigit(s[0]) && IsDigit(s[|s| - 1]);
    UnsignedIntDecimal(n);
    StripPadded(a, s, b, BLANKS);
    StripPadded(a, "-" + s, b, BLANKS);
    StripPadded(a, "+" + s, b, BLANKS);
    assert ("-" + s)[1..] == s && ("+" + s)[1..] == s;
  }

  lemma {:induction false} MoreDigitsRejects(s: string, value: nat, i: nat)
    requires i < |s| && !IsDigit(s[i]) && s[i] != '_'
    ensures MoreDigits(s, value) == None
  {
    if i > 0 {
      if IsDigit(s[0]) {
        MoreDigitsRejects(s[1..], 10 * value + DigitValue(s[0]), i - 1);
      } else if s[0] == '_' {
        MoreDigitsRejects(s[1..], value, i - 1);
      }
    }
  }

  /** Text without blanks that holds anything but digits, underscores and a leading sign is no number. */
  lemma IntRejects(s: string, i: nat)
    requires i < |s| && !IsDigit(s[i]) && s[i] != '_' && (i == 0 ==> s[0] != '+' && s[0] != '-')
    requires s[0] !in BLANKS && s[|s| - 1] !in BLANKS
    ensures PyInt(s) == None
  {
    StripPadded([], s, [], BLANKS);
    assert [] + s + [] == s;
    if i > 0 {
      if s[0] == '+' || s[0] == '-' {
        if i > 1 && IsDigit(s[1]) {
          MoreDigitsRejects(s[1..][1..], DigitValue(s[1]), i - 2);
        }
      } else if IsDigit(s[0]) {
        MoreDigitsRejects(s[1..], DigitValue(s[0]), i - 1);
      }
    }
  }

  lemma {:induction false} MoreDigitsUnderscore(s: string, value: nat, t: string)
    requires forall i | 0 <= i < |s| :: IsDigit(s[i])
    ensures MoreDigits(s + "_" + t, value) == if t != [] && IsDigit(t[0]) then MoreDigits(s + t, value) else None
  {
    if s == [] {
      assert [] + "_" + t == "_" + t && ("_" + t)[1..] == t && [] + t == t;
    } else {
      assert (s + "_" + t)[1..] == s[1..] + "_" + t && (s + t)[1..] == s[1..] + t;
      MoreDigitsUnderscore(s[1..], 10 * value + DigitValue(s[0]), t);
    }
  }

  /** int passes over an underscore between two digits, and refuses one anywhere else after the first digit. */
  lemma UnderscorePassed(s: string, t: string)
    requires IsDigits(s)
    ensures UnsignedInt(s + "_" + t) == if t != [] && IsDigit(t[0]) then UnsignedInt(s + t) else None
  {
    assert (s + "_" + t)[1..] == s[1..] + "_" + t && (s + t)[1..] == s[1..] + t;
    MoreDigitsUnderscore(s[1..], DigitValue(s[0]), t);
  }
}
