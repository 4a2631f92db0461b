/** The texts of strings and integers in canonical JSON, and how they are read back. */
module JsonText {
  import opened Common

  // ---- integers ----

  function DigitChar(d: nat): char
    requires d < 10
  {
    "0123456789"[d]
  }

  predicate IsDigit(c: char) {
    '0' <= c <= '9'
  }

  function DigitValue(c: char): (d: nat)
    requires IsDigit(c)
    ensures d < 10
  {
    (c as int) - ('0' as int)
  }

  function Digits(n: nat): string {
    if n < 10 then [DigitChar(n)] else Digits(n / 10) + [DigitChar(n % 10)]
  }

  function IntText(n: int): string {
    if n < 0 then "-" + Digits(-n) else Digits(n)
  }

  function Run(s: string): (n: nat)
    ensures n <= |s| && forall i | 0 <= i < n :: IsDigit(s[i])
    ensures n < |s| ==> !IsDigit(s[n])
  {
    if s == "" || !IsDigit(s[0]) then 0 else 1 + Run(s[1..])
  }

  function Value(s: string): nat
    requires forall i | 0 <= i < |s| :: IsDigit(s[i])
  {
    if s == "" then 0 else 10 * Value(s[..|s| - 1]) + DigitValue(s[|s| - 1])
  }

  lemma DigitCharValue(d: nat)
    requires d < 10
    ensures IsDigit(DigitChar(d)) && DigitValue(DigitChar(d)) == d
  {
    assert "0123456789"[0] == '0' && "0123456789"[1] == '1' && "0123456789"[2] == '2' && "0123456789"[3] == '3'
        && "0123456789"[4] == '4' && "0123456789"[5] == '5' && "0123456789"[6] == '6' && "0123456789"[7] == '7'
        && "0123456789"[8] == '8' && "0123456789"[9] == '9';
  }

  lemma {:induction false} DigitsRead(n: nat)
    ensures Digits(n) != "" && forall i | 0 <= i < |Digits(n)| :: IsDigit(Digits(n)[i])
    ensures Value(Digits(n)) == n
  {
    DigitCharValue(n % 10);
    if n >= 10 {
      DigitsRead(n / 10);
      var front, last := Digits(n / 10), DigitChar(n % 10);
      hide Digits;
      assert (front + [last])[..|front + [last]| - 1] == front;
    } else {
      assert [DigitChar(n)][..0] == "";
    }
  }

  predicate StartsWithDigit(s: string) {
    s != "" && IsDigit(s[0])
  }

  lemma {:induction false} RunOf(digits: string, rest: string)
    requires (forall i | 0 <= i < |digits| :: IsDigit(digits[i])) && !StartsWithDigit(rest)
    ensures Run(digits + rest) == |digits|
  {
    if digits == "" {
      assert digits + rest == rest;
    } else {
      RunOf(digits[1..], rest);
      assert (digits + rest)[1..] == digits[1..] + rest;
    }
  }

  function ReadNat(s: string): (r: Option<(nat, string)>)
    ensures r.Some? ==> |r.value.1| < |s|
  {
    var n := Run(s);
    if n == 0 then None else Some((Value(s[..n]), s[n..]))
  }

  /** An integer at the front of a text, with what follows it. */
  function ReadInt(s: string): (r: Option<(int, string)>)
    ensures r.Some? ==> |r.value.1| < |s|
  {
    if s != "" && s[0] == '-' then
      var read := ReadNat(s[1..]);
      if read.None? then None else Some((0 - read.value.0, read.value.1))
    else
      var read := ReadNat(s);
      if read.None? then None else Some((read.value.0, read.value.1))
  }

  lemma NatReads(n: nat, rest: string)
    requires !StartsWithDigit(rest)
    ensures ReadNat(Digits(n) + rest) == Some((n, rest))
    ensures Digits(n) != "" && IsDigit(Digits(n)[0])
  {
    DigitsRead(n);
    RunOf(Digits(n), rest);
    var t := Digits(n) + rest;
    hide Digits, Run, Value;
    assert t[..|Digits(n)|] == Digits(n) && t[|Digits(n)|..] == rest;
  }

  lemma IntReads(n: int, rest: string)
    requires !StartsWithDigit(rest)
    ensures ReadInt(IntText(n) + rest) == Some((n, rest))
    ensures IntText(n) != "" && (IntText(n)[0] == '-' || IsDigit(IntText(n)[0]))
  {
    hide Digits, ReadNat;
    if n < 0 {
      NatReads(-n, rest);
      assert ("-" + Digits(-n) + rest)[1..] == Digits(-n) + rest;
    } else {
      NatReads(n, rest);
    }
  }

  // ---- strings: section 7 of RFC 8259 ----

  function HexChar(d: nat): char
    requires d < 16
  {
    "0123456789abcdef"[d]
  }

  function HexValue(c: char): Option<nat> {
    if '0' <= c <= '9' then Some((c as int) - ('0' as int))
    else if 'a' <= c <= 'f' then Some((c as int) - ('a' as int) + 10)
    else None
  }

  lemma HexRead(d: nat)
    requires d < 16
    ensures HexValue(HexChar(d)) == Some(d)
  {
    var h := "0123456789abcdef";
    assert h[0] == '0' && h[1] == '1' && h[2] == '2' && h[3] == '3' && h[4] == '4' && h[5] == '5' && h[6] == '6' && h[7] == '7';
    assert h[8] == '8' && h[9] == '9' && h[10] == 'a' && h[11] == 'b' && h[12] == 'c' && h[13] == 'd' && h[14] == 'e' && h[15] == 'f';
  }

  /** The two-character escapes. */
  function Short(c: char): Option<char> {
    if c == '\"' then Some('\"')
    else if c == '\\' then Some('\\')
    else if c == '\n' then Some('n')
    else if c == '\r' then Some('r')
    else if c == '\t' then Some('t')
    else if c == '\U{08}' then Some('b')
    else if c == '\U{0c}' then Some('f')
    else None
  }

  function Long(letter: char): Option<char> {
    if letter == '\"' then Some('\"')
    else if letter == '\\' then Some('\\')
    else if letter == 'n' then Some('\n')
    else if letter == 'r' then Some('\r')
    else if letter == 't' then Some('\t')
    else if letter == 'b' then Some('\U{08}')
    else if letter == 'f' then Some('\U{0c}')
    else None
  }

  /** Control characters without a short escape are written with four hexadecimal digits; everything else
      stands for itself. */
  function Escaped(c: char): string {
    if Short(c).Some? then ['\\', Short(c).value]
    else if c < ' ' then ['\\', 'u', '0', '0', HexChar(c as int / 16), HexChar(c as int % 16)]
    else [c]
  }

  function Body(s: string): string {
    if s == "" then "" else Escaped(s[0]) + Body(s[1..])
  }

  function Quoted(s: string): string {
    "\"" + Body(s) + "\""
  }

  /** One character of a string body, with what follows it. */
  function ReadChar(s: string): (r: Option<(char, string)>)
    ensures r.Some? ==> |r.value.1| < |s|
  {
    if s == "" || s[0] == '\"' || s[0] < ' ' then None
    else if s[0] != '\\' then Some((s[0], s[1..]))
    else if |s| < 2 then None
    else if Long(s[1]).Some? then Some((Long(s[1]).value, s[2..]))
    else if |s| < 6 || s[1] != 'u' || s[2] != '0' || s[3] != '0' then None
    else
      var high, low := HexValue(s[4]), HexValue(s[5]);
      if high.None? || low.None? then None else Some(((16 * high.value + low.value) as char, s[6..]))
  }

  /** The rest of a string whose opening quote has been read. */
  function ReadBody(s: string): (r: Option<(string, string)>)
    ensures r.Some? ==> |r.value.1| < |s|
    decreases |s|
  {
    if s == "" then None
    else if s[0] == '\"' then Some(("", s[1..]))
    else
      var first := ReadChar(s);
      if first.None? then None
      else
        var rest := ReadBody(first.value.1);
        if rest.None? then None else Some(([first.value.0] + rest.value.0, rest.value.1))
  }

  lemma ShortLong(c: char)
    requires Short(c).Some?
    ensures Long(Short(c).value) == Some(c)
  {
  }

  lemma CharReads(c: char, rest: string)
    ensures Escaped(c) != "" && Escaped(c)[0] != '\"'
    ensures ReadChar(Escaped(c) + rest) == Some((c, rest))
  {
    if Short(c).Some? {
      ShortLong(c);
      assert (Escaped(c) + rest)[2..] == rest;
    } else if c < ' ' {
      HexRead(c as int / 16);
      HexRead(c as int % 16);
      assert (Escaped(c) + rest)[6..] == rest;
    } else {
      assert (Escaped(c) + rest)[1..] == rest;
    }
  }

  lemma {:induction false} BodyReads(s: string, rest: string)
    ensures ReadBody(Body(s) + "\"" + rest) == Some((s, rest))
  {
    if s == "" {
      assert (Body(s) + "\"" + rest)[1..] == rest;
    } else {
      var tail := Body(s[1..]) + "\"" + rest;
      CharReads(s[0], tail);
      BodyReads(s[1..], rest);
      assert Body(s) + "\"" + rest == Escaped(s[0]) + tail;
      hide Escaped, ReadChar;
      assert [s[0]] + s[1..] == s;
    }
  }

  /** A quoted string is read back exactly, whatever follows. */
  lemma QuotedReads(s: string, rest: string)
    ensures Quoted(s) + rest != "" && (Quoted(s) + rest)[0] == '\"'
    ensures ReadBody((Quoted(s) + rest)[1..]) == Some((s, rest))
  {
    BodyReads(s, rest);
    assert (Quoted(s) + rest)[1..] == Body(s) + "\"" + rest;
  }
}
