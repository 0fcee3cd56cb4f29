/** SerialPortDescriptor: the immutable name, baud rate and driver flags of one line. */
module Descriptors {

  import opened JavaTypes
  import opened Decimal

  /** Baud rate used when none is given. */
  const DEFAULT_BAUD: int32 := 9600

  /** The three fields; the datatype's destructors are the getters getName,
      getBaudrate and getFlags. Nothing is validated. */
  datatype SerialPortDescriptor = SerialPortDescriptor(name: string, baudrate: int32, flags: int32)

  /** The three-argument constructor: every field exactly as given. */
  function FromAll(name: string, baudrate: int32, flags: int32): (d: SerialPortDescriptor)
    ensures d.name == name && d.baudrate == baudrate && d.flags == flags
  {
    SerialPortDescriptor(name, baudrate, flags)
  }

  /** The two-argument constructor chains to the three-argument one with flags 0. */
  function FromNameBaudrate(name: string, baudrate: int32): (d: SerialPortDescriptor)
    ensures d.name == name && d.baudrate == baudrate && d.flags == 0
  {
    FromAll(name, baudrate, 0)
  }

  /** The one-argument constructor chains to the two-argument one with the default baud rate. */
  function FromName(name: string): (d: SerialPortDescriptor)
    ensures d.name == name && d.baudrate == 9600 && d.flags == 0
  {
    FromNameBaudrate(name, DEFAULT_BAUD)
  }

  const HEAD := "SerialPortDescriptor{name='"
  const BAUD_LABEL := "', baudrate="
  const FLAGS_LABEL := ", flags="

  /** toString: `SerialPortDescriptor{name='<name>', baudrate=<baud>, flags=<flags>}`.
      The fixed head, then the name verbatim, then a tail from which baud rate and flags
      read back exactly. */
  function ToString(d: SerialPortDescriptor): (s: string)
    ensures |HEAD| + |d.name| <= |s|
    ensures s[..|HEAD|] == HEAD
    ensures s[|HEAD|..|HEAD| + |d.name|] == d.name
    ensures ParseFields(s[|HEAD| + |d.name|..]) == Some((d.baudrate as int, d.flags as int))
  {
    var tail := Tail(d.baudrate as int, d.flags as int);
    TailReadsBack(d.baudrate as int, d.flags as int);
    var s := HEAD + d.name + tail;
    assert s[|HEAD| + |d.name|..] == tail;
    s
  }

  /** The text ToString puts after the name. */
  function Tail(baudrate: int, flags: int): string {
    BAUD_LABEL + IntToString(baudrate) + FLAGS_LABEL + IntToString(flags) + "}"
  }

  /** Position of the first `c` in `s`, or |s| when there is none. */
  function FirstIndex(s: string, c: char): (k: nat)
    ensures k <= |s| && (k < |s| ==> s[k] == c)
    ensures forall i :: 0 <= i < k ==> s[i] != c
  {
    if s == [] then 0 else if s[0] == c then 0 else 1 + FirstIndex(s[1..], c)
  }

  /** Reads back baud rate and flags from the text that follows the name in ToString. */
  function ParseFields(t: string): Option<(int, int)> {
    if |t| >= |BAUD_LABEL| && t[..|BAUD_LABEL|] == BAUD_LABEL then
      var r := t[|BAUD_LABEL|..];
      var k := FirstIndex(r, ',');
      var rest := r[k..];
      if |rest| > |FLAGS_LABEL| && rest[..|FLAGS_LABEL|] == FLAGS_LABEL && rest[|rest| - 1] == '}' then
        match (ParseInt(r[..k]), ParseInt(rest[|FLAGS_LABEL|..|rest| - 1]))
        case (Some(b), Some(f)) => Some((b, f))
        case _ => None
      else None
    else None
  }

  lemma {:induction false} FirstIndexOfSeparator(a: string, b: string, c: char)
    requires forall i :: 0 <= i < |a| ==> a[i] != c
    requires |b| > 0 && b[0] == c
    ensures FirstIndex(a + b, c) == |a|
  {
    if a != [] {
      assert (a + b)[1..] == a[1..] + b;
      FirstIndexOfSeparator(a[1..], b, c);
    }
  }

  lemma TailReadsBack(baudrate: int, flags: int)
    ensures ParseFields(Tail(baudrate, flags)) == Some((baudrate, flags))
  {
    var b := IntToString(baudrate);
    var f := IntToString(flags);
    var rest := FLAGS_LABEL + f + "}";
    var t := Tail(baudrate, flags);
    assert t == BAUD_LABEL + (b + rest);
    assert t[..|BAUD_LABEL|] == BAUD_LABEL;
    var r := t[|BAUD_LABEL|..];
    assert r == b + rest;
    FirstIndexOfSeparator(b, rest, ',');
    assert r[..|b|] == b;
    assert r[|b|..] == rest;
    assert rest[..|FLAGS_LABEL|] == FLAGS_LABEL;
    assert rest[|FLAGS_LABEL|..|rest| - 1] == f;
    ParseIntToString(baudrate);
    ParseIntToString(flags);
  }

  /** The characters Integer.toString can produce at each position. */
  predicate NumeralText(t: string) {
    forall i :: 0 <= i < |t| ==> IsDigit(t[i]) || (i == 0 && t[i] == '-')
  }

  /** A numeral placed after a text ending in '=' cannot reach past that '='. */
  lemma NumeralAfterEquals(p: string, a: string, q: string, b: string)
    requires |p| > 0 && p[|p| - 1] == '='
    requires NumeralText(b)
    requires p + a == q + b
    ensures |b| <= |a|
  {
    assert (p + a)[|p| - 1] == '=';
  }

  /** Cutting the decimal text of an `int` off the end of a text ending in '=' gives
      back both the text and the `int`. */
  lemma SplitNumeral(p: string, n: int, q: string, m: int)
    requires |p| > 0 && p[|p| - 1] == '=' && |q| > 0 && q[|q| - 1] == '='
    requires p + IntToString(n) == q + IntToString(m)
    ensures p == q && n == m
  {
    var a, b := IntToString(n), IntToString(m);
    NumeralAfterEquals(p, a, q, b);
    NumeralAfterEquals(q, b, p, a);
    var s := p + a;
    assert p == s[..|p|] && q == s[..|q|];
    assert a == s[|p|..] && b == s[|q|..];
    ParseIntToString(n);
    ParseIntToString(m);
  }

  lemma CancelSuffix(u: string, v: string, t: string)
    requires u + t == v + t
    ensures u == v
  {
    assert u == (u + t)[..|u|] && v == (v + t)[..|v|];
  }

  lemma CancelPrefix(t: string, u: string, v: string)
    requires t + u == t + v
    ensures u == v
  {
    assert u == (t + u)[|t|..] && v == (t + v)[|t|..];
  }

  /** ToString with its parts grouped from the left, the order in which they are split off. */
  lemma ToStringShape(d: SerialPortDescriptor)
    ensures ToString(d) == HEAD + d.name + BAUD_LABEL + IntToString(d.baudrate as int)
                           + FLAGS_LABEL + IntToString(d.flags as int) + "}"
  {
    Regroup(HEAD + d.name, IntToString(d.baudrate as int), IntToString(d.flags as int));
  }

  lemma Regroup(x: string, b: string, f: string)
    ensures x + (BAUD_LABEL + b + FLAGS_LABEL + f + "}") == x + BAUD_LABEL + b + FLAGS_LABEL + f + "}"
  {
  }

  /** toString is injective: two descriptors with the same text have the same name, baud
      rate and flags, even when a name itself contains the labels. */
  lemma ToStringInjective(d: SerialPortDescriptor, e: SerialPortDescriptor)
    ensures ToString(d) == ToString(e) ==> d == e
  {
    if ToString(d) == ToString(e) {
      var pd, pe := HEAD + d.name + BAUD_LABEL, HEAD + e.name + BAUD_LABEL;
      var fd := pd + IntToString(d.baudrate as int) + FLAGS_LABEL;
      var fe := pe + IntToString(e.baudrate as int) + FLAGS_LABEL;
      ToStringShape(d);
      ToStringShape(e);
      CancelSuffix(fd + IntToString(d.flags as int), fe + IntToString(e.flags as int), "}");
      assert fd[|fd| - 1] == '=' && fe[|fe| - 1] == '=';
      SplitNumeral(fd, d.flags as int, fe, e.flags as int);
      CancelSuffix(pd + IntToString(d.baudrate as int), pe + IntToString(e.baudrate as int), FLAGS_LABEL);
      assert pd[|pd| - 1] == '=' && pe[|pe| - 1] == '=';
      SplitNumeral(pd, d.baudrate as int, pe, e.baudrate as int);
      CancelSuffix(HEAD + d.name, HEAD + e.name, BAUD_LABEL);
      CancelPrefix(HEAD, d.name, e.name);
    }
  }
}
