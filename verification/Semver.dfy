/** Version numbers: how their text is read, and their order. */
module Semver {
  import opened Wrappers

  datatype Semver = Semver(major: int, minor: int, patch: int)

  const MAX_INT: int := 0x7fff_ffff

  predicate IsDigit(c: char) {
    '0' <= c <= '9'
  }

  // The characters formatted input skips.
  predicate IsSpace(c: char) {
    c == ' ' || '\t' <= c <= '\r'
  }

  function SkipSpaces(s: string): (r: string)
    ensures |r| <= |s|
  {
    if s != [] && IsSpace(s[0]) then SkipSpaces(s[1..]) else s
  }

  function DigitValue(c: char): nat
    requires IsDigit(c)
  {
    (c - '0') as nat
  }

  /** Reads on from the value so far as long as there are digits. */
  function ReadDigits(s: string, value: nat): (r: (nat, string))
    ensures |r.1| <= |s|
  {
    if s != [] && IsDigit(s[0]) then ReadDigits(s[1..], 10 * value + DigitValue(s[0])) else (value, s)
  }

  /** A number with an optional sign, after any spaces; None if there is none or it does not
      fit a 32-bit integer. */
  function ReadInt(s: string): Option<(int, string)> {
    var t := SkipSpaces(s);
    var negative := t != [] && t[0] == '-';
    var u := if t != [] && (t[0] == '-' || t[0] == '+') then t[1..] else t;
    if u == [] || !IsDigit(u[0]) then None
    else
      var (n, rest) := ReadDigits(u, 0);
      var value := if negative then 0 - n else n as int;
      if -MAX_INT - 1 <= value <= MAX_INT then Some((value, rest)) else None
  }

  function ReadDot(s: string): Option<string> {
    var t := SkipSpaces(s);
    if t != [] && t[0] == '.' then Some(t[1..]) else None
  }

  /** Three numbers with dots between them. Whatever follows the third number is ignored. */
  function Parse(s: string): Option<Semver> {
    var (major, s1) :- ReadInt(s);
    var s2 :- ReadDot(s1);
    var (minor, s3) :- ReadInt(s2);
    var s4 :- ReadDot(s3);
    var (patch, s5) :- ReadInt(s4);
    Some(Semver(major, minor, patch))
  }

  predicate Greater(a: Semver, b: Semver) {
    if a.major != b.major then a.major > b.major
    else if a.minor != b.minor then a.minor > b.minor
    else a.patch > b.patch
  }

  /** A strict total order: of two versions that are not the same exactly one is greater. */
  lemma GreaterTotal(a: Semver, b: Semver, c: Semver)
    ensures !(Greater(a, b) && Greater(b, a)) && (Greater(a, b) || Greater(b, a) <==> a != b)
    ensures Greater(a, b) && Greater(b, c) ==> Greater(a, c)
  {
  }

  /** The order is that of numbers: for parts below any base, a version is greater exactly if its
      parts, read as digits to that base, are the larger number. */
  lemma GreaterIsNumber(a: Semver, b: Semver, base: nat)
    requires 0 <= a.major < base && 0 <= a.minor < base && 0 <= a.patch < base
    requires 0 <= b.major < base && 0 <= b.minor < base && 0 <= b.patch < base
    ensures Greater(a, b) <==> (a.major * base + a.minor) * base + a.patch > (b.major * base + b.minor) * base + b.patch
  {
    DigitsCompare(a.major, a.minor, b.major, b.minor, base);
    DigitsCompare(b.major, b.minor, a.major, a.minor, base);
    DigitsCompare(a.major * base + a.minor, a.patch, b.major * base + b.minor, b.patch, base);
    DigitsCompare(b.major * base + b.minor, b.patch, a.major * base + a.minor, a.patch, base);
  }

  lemma DigitsCompare(x: int, c: int, y: int, d: int, base: nat)
    requires 0 <= c < base && 0 <= d < base
    ensures x > y ==> x * base + c > y * base + d
  {
    if x > y {
      assert x * base >= (y + 1) * base == y * base + base;
    }
  }

  /** Raising a part makes a version greater, whatever the parts after it become. */
  lemma RaisedGreater(v: Semver, more: nat, minor: int, patch: int)
    requires more > 0
    ensures Greater(v.(patch := v.patch + more), v)
    ensures Greater(v.(minor := v.minor + more, patch := patch), v)
    ensures Greater(v.(major := v.major + more, minor := minor, patch := patch), v)
  {
  }

  // ---- written versions ----

  function Digits(n: nat): (r: string)
    ensures r != [] && forall c :: c in r ==> IsDigit(c)
  {
    (if n < 10 then "" else Digits(n / 10)) + [('0' as int + n % 10) as char]
  }

  function Write(v: Semver): string
    requires 0 <= v.major && 0 <= v.minor && 0 <= v.patch
  {
    Digits(v.major) + "." + Digits(v.minor) + "." + Digits(v.patch)
  }

  lemma {:induction false} ReadWritten(n: nat, rest: string)
    requires rest == [] || !IsDigit(rest[0])
    ensures ReadDigits(Digits(n) + rest, 0) == (n, rest)
    decreases n
  {
    var last := [('0' as int + n % 10) as char];
    assert (last + rest)[1..] == rest;
    if n < 10 {
      assert Digits(n) == last;
    } else {
      var front := Digits(n / 10);
      assert Digits(n) + rest == front + (last + rest);
      assert front + [] == front;
      ReadFront(front, last + rest, 0);
      ReadWritten(n / 10, []);
      assert ReadDigits(last + rest, n / 10) == (10 * (n / 10) + n % 10, rest);
    }
  }

  lemma {:induction false} ReadFront(front: string, rest: string, value: nat)
    requires forall c :: c in front ==> IsDigit(c)
    ensures ReadDigits(front, value).1 == []
    ensures ReadDigits(front + rest, value) == ReadDigits(rest, ReadDigits(front, value).0)
    decreases |front|
  {
    if front == [] {
      assert front + rest == rest;
    } else {
      assert (front + rest)[1..] == front[1..] + rest;
      ReadFront(front[1..], rest, 10 * value + DigitValue(front[0]));
    }
  }

  lemma ReadIntWritten(n: nat, rest: string)
    requires n <= MAX_INT && (rest == [] || !IsDigit(rest[0]))
    ensures ReadInt(Digits(n) + rest) == Some((n, rest))
  {
    ReadWritten(n, rest);
    assert IsDigit((Digits(n) + rest)[0]) by {
      assert Digits(n)[0] in Digits(n);
    }
  }

  /** A version written as X.Y.Z reads back, whatever text follows it. */
  lemma ParseWritten(v: Semver, rest: string)
    requires 0 <= v.major <= 0x7fff_ffff && 0 <= v.minor <= 0x7fff_ffff && 0 <= v.patch <= 0x7fff_ffff
    requires rest == "" || !('0' <= rest[0] <= '9')
    ensures Parse(Write(v) + rest) == Some(v)
  {
    hide ReadInt, ReadDot, Digits;
    var s4 := Digits(v.patch) + rest;
    var s2 := Digits(v.minor) + ("." + s4);
    assert Write(v) + rest == Digits(v.major) + ("." + s2);
    ReadIntWritten(v.major, "." + s2);
    ReadDotWritten(s2);
    ReadIntWritten(v.minor, "." + s4);
    ReadDotWritten(s4);
    ReadIntWritten(v.patch, rest);
  }

  lemma ReadDotWritten(rest: string)
    ensures ReadDot("." + rest) == Some(rest)
  {
    assert ("." + rest)[1..] == rest;
  }

  /** A first number that does not fit 32 bits cannot be read. */
  lemma TooLarge(n: nat, rest: string)
    requires n > 0x7fff_ffff && (rest == "" || !('0' <= rest[0] <= '9'))
    ensures Parse(Digits(n) + rest) == None
  {
    ReadWritten(n, rest);
    assert IsDigit((Digits(n) + rest)[0]) by {
      assert Digits(n)[0] in Digits(n);
    }
  }

  lemma Small(n: nat)
    requires n < 10
    ensures Digits(n) == [('0' as int + n) as char]
  {
  }

  /** Some texts and what they are read as. */
  lemma Texts()
    ensures Parse("1.2.0") == Some(Semver(1, 2, 0)) && Parse("1.10.0") == Some(Semver(1, 10, 0)) && Parse("2.0.0") == Some(Semver(2, 0, 0))
    ensures Parse("1.2.3-beta") == Some(Semver(1, 2, 3)) && Parse("v1.2.3") == None && Parse("1.2") == None && Parse("") == None
  {
    hide Parse;
    Small(0);
    Small(1);
    Small(2);
    Small(3);
    assert Digits(10) == "10";
    assert Write(Semver(1, 2, 0)) == "1.2.0" && Write(Semver(1, 10, 0)) == "1.10.0" && Write(Semver(2, 0, 0)) == "2.0.0";
    assert "1.2.0" + "" == "1.2.0" && "1.10.0" + "" == "1.10.0" && "2.0.0" + "" == "2.0.0";
    ParseWritten(Semver(1, 2, 0), "");
    ParseWritten(Semver(1, 10, 0), "");
    ParseWritten(Semver(2, 0, 0), "");
    assert Write(Semver(1, 2, 3)) + "-beta" == "1.2.3-beta";
    ParseWritten(Semver(1, 2, 3), "-beta");
    NotVersions();
  }

  lemma NotVersions()
    ensures Parse("v1.2.3") == None && Parse("1.2") == None && Parse("") == None
  {
    assert Digits(1) + ".2" == "1.2" && Digits(2) + "" == "2" && ".2"[1..] == "2";
    ReadIntWritten(1, ".2");
    ReadIntWritten(2, "");
  }

  lemma WrittenHasNoAt(v: Semver)
    requires 0 <= v.major && 0 <= v.minor && 0 <= v.patch
    ensures '@' !in Write(v)
  {
  }
}
