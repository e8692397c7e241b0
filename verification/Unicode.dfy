/** Unicode escapes: the bytes they stand for are the UTF-8 encoding, and no other numbers
    are let through. */
module Unicode {
  import opened Wrappers
  import opened Lexing
  import opened Rendering

  // ---- decoding, as section 4 of RFC 3629 describes it ----

  predicate In(s: string, i: nat, lo: int, hi: int) {
    i < |s| && lo <= s[i] as int <= hi
  }

  predicate Tail(s: string, i: nat) {
    In(s, i, 0x80, 0xBF)
  }

  // The last six bits of a following byte.
  function Low(c: char): int {
    c as int - 0x80
  }

  /** The first character of the text and its length; None if the bytes are not well formed. */
  function DecodeFirst(s: string): (r: Option<(int, nat)>)
    ensures r.Some? ==> 0 < r.value.1 <= |s|
  {
    if In(s, 0, 0, 0x7F) then Some((s[0] as int, 1))
    else if In(s, 0, 0xC2, 0xDF) && Tail(s, 1) then Some(((s[0] as int - 0xC0) * 64 + Low(s[1]), 2))
    else if (|| (In(s, 0, 0xE0, 0xE0) && In(s, 1, 0xA0, 0xBF)) || (In(s, 0, 0xE1, 0xEC) && Tail(s, 1))
             || (In(s, 0, 0xED, 0xED) && In(s, 1, 0x80, 0x9F)) || (In(s, 0, 0xEE, 0xEF) && Tail(s, 1))) && Tail(s, 2) then
      Some(((s[0] as int - 0xE0) * 4096 + Low(s[1]) * 64 + Low(s[2]), 3))
    else if (|| (In(s, 0, 0xF0, 0xF0) && In(s, 1, 0x90, 0xBF)) || (In(s, 0, 0xF1, 0xF3) && Tail(s, 1))
             || (In(s, 0, 0xF4, 0xF4) && In(s, 1, 0x80, 0x8F))) && Tail(s, 2) && Tail(s, 3) then
      Some(((s[0] as int - 0xF0) * 262144 + Low(s[1]) * 4096 + Low(s[2]) * 64 + Low(s[3]), 4))
    else None
  }

  function Decode(s: string): Option<seq<int>> {
    if s == "" then Some([])
    else
      var (n, size) :- DecodeFirst(s);
      var more :- Decode(s[size..]);
      Some([n] + more)
  }

  lemma Parts(n: nat)
    ensures n == n / 64 * 64 + n % 64
    ensures n == n / 4096 * 4096 + n / 64 % 64 * 64 + n % 64
    ensures n == n / 262144 * 262144 + n / 4096 % 64 * 4096 + n / 64 % 64 * 64 + n % 64
  {
    assert n / 64 / 64 == n / 4096 && n / 4096 / 64 == n / 262144;
  }

  /** The bytes of a scalar value decode to it, whatever follows. */
  lemma EncodedDecodes(n: nat, tail: string)
    requires n <= 0xD7FF || 0xE000 <= n <= 0x10FFFF
    ensures DecodeFirst(Utf8(n) + tail) == Some((n as int, |Utf8(n)|))
  {
    Parts(n);
  }

  function Utf8All(ns: seq<nat>): string
    requires forall i :: 0 <= i < |ns| ==> IsScalar(ns[i])
  {
    if ns == [] then "" else assert IsScalar(ns[0]); Utf8(ns[0]) + Utf8All(ns[1..])
  }

  lemma {:induction false} AllDecode(ns: seq<nat>)
    requires forall i :: 0 <= i < |ns| ==> IsScalar(ns[i])
    ensures Decode(Utf8All(ns)) == Some(ns)
    decreases |ns|
  {
    hide Utf8, DecodeFirst;
    if ns != [] {
      var tail := Utf8All(ns[1..]);
      EncodedDecodes(ns[0], tail);
      assert (Utf8(ns[0]) + tail)[|Utf8(ns[0])|..] == tail;
      AllDecode(ns[1..]);
      assert [ns[0] as int] + ns[1..] == ns;
    }
  }

  // ---- escapes ----

  /** The last `k` hexadecimal digits of a number. */
  function Hex(n: nat, k: nat): (r: string)
    ensures |r| == k && forall i :: 0 <= i < k ==> IsHex(r[i])
  {
    if k == 0 then "" else Hex(n / 16, k - 1) + [HexDigit(n % 16)]
  }

  function Pow16(k: nat): (r: nat)
    ensures r > 0
  {
    if k == 0 then 1 else 16 * Pow16(k - 1)
  }

  lemma {:induction false} HexReads(n: nat, k: nat, tail: string)
    requires n < Pow16(k)
    ensures (forall i :: 0 <= i < k ==> IsHex((Hex(n, k) + tail)[i])) && HexNumber(Hex(n, k) + tail, k) == n
    decreases k
  {
    if k > 0 {
      var d := [HexDigit(n % 16)];
      HexReads(n / 16, k - 1, d + tail);
      assert Hex(n, k) + tail == Hex(n / 16, k - 1) + (d + tail);
    }
  }

  lemma Eight()
    ensures Pow16(8) == 0x1_0000_0000
  {
    assert Pow16(4) == 0x1_0000;
  }

  /** An escape of eight digits is accepted exactly if its number is a Unicode scalar value:
      no surrogate, and not above 10FFFF. */
  lemma EscapeReads(n: nat, tail: string)
    requires n < 0x1_0000_0000
    ensures Escape("U" + Hex(n, 8) + tail) == if IsScalar(n) then Got(Utf8(n), tail) else Stuck(tail)
  {
    hide Utf8, Hex, HexNumber, HexRun;
    Eight();
    HexReads(n, 8, tail);
    var s := "U" + Hex(n, 8) + tail;
    assert s[1..] == Hex(n, 8) + tail;
    assert s[1..][8..] == tail;
  }

  /** An escape of four digits is accepted exactly if its number is no surrogate. */
  lemma ShortEscapeReads(n: nat, tail: string)
    requires n < 0x1_0000
    ensures Escape("u" + Hex(n, 4) + tail) == if 0xD800 <= n <= 0xDFFF then Stuck(tail) else Got(Utf8(n), tail)
  {
    hide Utf8, Hex, HexNumber, HexRun;
    assert Pow16(4) == 0x1_0000;
    HexReads(n, 4, tail);
    var s := "u" + Hex(n, 4) + tail;
    assert s[1..] == Hex(n, 4) + tail;
    assert s[1..][4..] == tail;
  }

  function WriteEscapes(ns: seq<nat>): string {
    if ns == [] then "" else "\\U" + Hex(ns[0], 8) + WriteEscapes(ns[1..])
  }

  // A backslash, and then the rest of a string.
  lemma EscapeFirst(s: string, quote: char)
    requires s != "" && IsQuote(quote)
    ensures Escape(s).Stuck? ==> LexString("\\" + s, quote).Stuck?
    ensures Escape(s).Got? ==>
              var x, y := Escape(s), LexString("\\" + s, quote);
              var z := LexString(x.rest, quote);
              if z.Got? then y == Got(x.value + z.value, z.rest) else y.Stuck?
  {
    hide Escape;
    assert ("\\" + s)[1..] == s;
  }

  /** Numbers written as escapes are read exactly if all of them are scalar values, and then
      the bytes decode to the numbers. */
  lemma {:induction false} EscapesRead(ns: seq<nat>, quote: char, tail: string)
    requires (forall i :: 0 <= i < |ns| ==> ns[i] < 0x1_0000_0000) && IsQuote(quote)
    ensures var r := LexString(WriteEscapes(ns) + [quote] + tail, quote);
            if forall i :: 0 <= i < |ns| ==> IsScalar(ns[i]) then r == Got(Utf8All(ns), tail) else r.Stuck?
    decreases |ns|
  {
    hide Utf8, Hex, Escape, IsScalar, LexString;
    if ns == [] {
      EndReads(quote, tail);
      assert WriteEscapes(ns) + [quote] + tail == [quote] + tail;
    } else {
      var after := WriteEscapes(ns[1..]) + [quote] + tail;
      var first := "U" + Hex(ns[0], 8) + after;
      assert WriteEscapes(ns) + [quote] + tail == "\\" + first;
      EscapeReads(ns[0], after);
      EscapeFirst(first, quote);
      EscapesRead(ns[1..], quote, tail);
      assert (forall i :: 0 <= i < |ns| ==> IsScalar(ns[i])) <==> IsScalar(ns[0]) && forall i :: 0 <= i < |ns[1..]| ==> IsScalar(ns[1..][i]);
    }
  }

  lemma UnicodeRoundTrip(ns: seq<nat>, quote: char, tail: string)
    requires (forall i :: 0 <= i < |ns| ==> ns[i] < 0x1_0000_0000) && IsQuote(quote)
    ensures var r := LexString(WriteEscapes(ns) + [quote] + tail, quote);
            (r.Got? <==> forall i :: 0 <= i < |ns| ==> ns[i] <= 0xD7FF || 0xE000 <= ns[i] <= 0x10FFFF) && (r.Got? ==> r.rest == tail && Decode(r.value) == Some(ns))
  {
    hide LexString, Decode;
    EscapesRead(ns, quote, tail);
    assert forall i :: 0 <= i < |ns| ==> (IsScalar(ns[i]) <==> ns[i] <= 0xD7FF || 0xE000 <= ns[i] <= 0x10FFFF);
    if forall i :: 0 <= i < |ns| ==> IsScalar(ns[i]) {
      AllDecode(ns);
    }
  }
}
