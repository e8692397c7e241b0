/** String literals byte by byte: what each escape stands for, and where a literal fails. */
module Escapes {
  import opened Wrappers
  import opened Lexing
  import opened Rendering

  // ---- named escapes ----

  /** The letter that stands for a byte after a backslash, by the number of the byte. */
  function Letter(n: nat): Option<char> {
    match n
    case 10 => Some('n')
    case 9 => Some('t')
    case 13 => Some('r')
    case 92 => Some('\\')
    case 39 => Some('\'')
    case 34 => Some('"')
    case 0 => Some('0')
    case 7 => Some('a')
    case 8 => Some('b')
    case 12 => Some('f')
    case 11 => Some('v')
    case 27 => Some('e')
    case _ => None
  }

  /** Writes every byte that has a letter with it, and all others as they are. */
  function WriteNamed(v: string): string {
    if v == "" then ""
    else (if Letter(v[0] as nat).Some? then ['\\', Letter(v[0] as nat).value] else [v[0]]) + WriteNamed(v[1..])
  }

  lemma NamedByte(c: char, quote: char, tail: string)
    requires quote == 34 as char || quote == 39 as char
    ensures LexString((if Letter(c as nat).Some? then ['\\', Letter(c as nat).value] else [c]) + tail, quote) ==
            match LexString(tail, quote)
            case Got(more, rest) => Got([c] + more, rest)
            case Stuck(rest) => Stuck(rest)
  {
    if Letter(c as nat).Some? {
      var l := Letter(c as nat).value;
      var s := ['\\', l] + tail;
      assert s[1..] == [l] + tail && ([l] + tail)[1..] == tail;
      assert SimpleEscape(l) == Some(c);
      assert Escape(s[1..]) == Got([c], tail);
    } else {
      assert ([c] + tail)[1..] == tail;
    }
  }

  /** Every string, written with the named escapes, is read back between either quotes. */
  lemma {:induction false} NamedReads(v: string, quote: char, tail: string)
    requires quote == 34 as char || quote == 39 as char
    ensures LexString(WriteNamed(v) + [quote] + tail, quote) == Got(v, tail)
    decreases |v|
  {
    hide LexString, Letter;
    if v == "" {
      EndReads(quote, tail);
      assert WriteNamed(v) + [quote] + tail == [quote] + tail;
    } else {
      var after := WriteNamed(v[1..]) + [quote] + tail;
      var first := if Letter(v[0] as nat).Some? then ['\\', Letter(v[0] as nat).value] else [v[0]];
      assert WriteNamed(v) + [quote] + tail == first + after;
      NamedByte(v[0], quote, after);
      NamedReads(v[1..], quote, tail);
      assert v == [v[0]] + v[1..];
    }
  }

  // The letters that begin an escape.
  predicate IsLetter(c: char) {
    c in "ntr\\'\"0abfvexuU"
  }

  /** Any other byte after a backslash is kept, and so is the backslash. */
  lemma OtherKept(c: char, quote: char, tail: string)
    requires !IsLetter(c) && (quote == 34 as char || quote == 39 as char)
    ensures LexString(['\\', c] + tail, quote) ==
            match LexString(tail, quote)
            case Got(more, rest) => Got(['\\', c] + more, rest)
            case Stuck(rest) => Stuck(rest)
  {
    var s := ['\\', c] + tail;
    var letters := "ntr\\'\"0abfvexuU";
    assert forall k :: 0 <= k < |letters| ==> c != letters[k];
    assert letters[0] == 'n' && letters[1] == 't' && letters[2] == 'r' && letters[3] == '\\' && letters[4] == '\'' && letters[5] == '"';
    assert letters[6] == '0' && letters[7] == 'a' && letters[8] == 'b' && letters[9] == 'f' && letters[10] == 'v' && letters[11] == 'e';
    assert letters[12] == 'x' && letters[13] == 'u' && letters[14] == 'U';
    assert s[1..] == [c] + tail && s[1..][1..] == tail;
    assert Escape(s[1..]) == Got(['\\', c], tail);
  }

  // ---- hexadecimal escapes ----

  /** The digit, by its number: 0 to 9 begin at 48, the capital letters at 65, the small ones at 97. */
  function HexChar(d: nat, capital: bool): char
    requires d < 16
  {
    (if d < 10 then 48 + d else if capital then 55 + d else 87 + d) as char
  }

  // No digit to base 16 comes first.
  predicate NoHex(s: string) {
    s == "" || !(48 <= s[0] as int <= 57 || 65 <= s[0] as int <= 70 || 97 <= s[0] as int <= 102)
  }

  lemma HexCharValue(d: nat, capital: bool)
    requires d < 16
    ensures IsHex(HexChar(d, capital)) && HexValue(HexChar(d, capital)) == d
  {
  }

  /** After an x one digit counts, or two; without any the escape fails. */
  lemma HexEscapes(a: nat, b: nat, m: bool, n: bool, tail: string)
    requires a < 16 && b < 16
    ensures Escape("x" + [HexChar(a, m), HexChar(b, n)] + tail) == Got([(16 * a + b) as char], tail)
    ensures NoHex(tail) ==> Escape("x" + [HexChar(a, m)] + tail) == Got([a as char], tail)
    ensures NoHex(tail) ==> Escape("x" + tail) == Stuck(tail)
  {
    HexCharValue(a, m);
    HexCharValue(b, n);
    hide HexChar, IsHex, HexValue;
    var two, one := [HexChar(a, m), HexChar(b, n)], [HexChar(a, m)];
    assert ("x" + two + tail)[1..] == two + tail && (two + tail)[2..] == tail;
    assert ("x" + one + tail)[1..] == one + tail && (one + tail)[1..] == tail;
    assert ("x" + tail)[1..] == tail;
    NoHexFirst(tail);
  }

  lemma NoHexFirst(s: string)
    ensures NoHex(s) <==> s == "" || !IsHex(s[0])
  {
  }

  // ---- where a literal ends too early ----

  /** Text without quotes, backslashes and line ends. */
  predicate Quiet(v: string, quote: char) {
    forall i :: 0 <= i < |v| ==> v[i] != quote && v[i] != '\\' && v[i] != 10 as char
  }

  /** A literal whose line or source ends before its quote fails there. */
  lemma {:induction false} Unterminated(v: string, quote: char, rest: string)
    requires Quiet(v, quote) && (quote == 34 as char || quote == 39 as char)
    ensures LexString(v, quote) == Stuck("") && LexString(v + "\n" + rest, quote) == Stuck("\n" + rest)
    ensures LexString(v + "\\", quote) == Stuck("")
    decreases |v|
  {
    if v == "" {
      assert v + "\n" + rest == "\n" + rest && v + "\\" == "\\";
    } else {
      assert (v + "\n" + rest)[1..] == v[1..] + "\n" + rest && (v + "\\")[1..] == v[1..] + "\\";
      Unterminated(v[1..], quote, rest);
    }
  }
}
