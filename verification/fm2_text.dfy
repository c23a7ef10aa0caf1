/** The text handling the FM2 movie parser builds on
    (covnes/src/fm2_movie_file.rs): reading a line, trimming its ending,
    splitting at a separator, Rust's `i32` parsing, and the gamepad field. */
module Fm2Text {
  import opened Common

  // ---------------------------------------------------------------------
  // Lines

  /** `read_line`: the text up to and including the first newline (all of
      it when there is none), and what follows. */
  function ReadLine(text: string): (r: (string, string))
    ensures r.0 + r.1 == text
    ensures text != [] ==> r.0 != []
    ensures forall i :: 0 <= i < |r.0| - 1 ==> r.0[i] != '\n'
    ensures r.1 != [] ==> r.0[|r.0| - 1] == '\n'
    decreases |text|
  {
    if text == [] then ([], [])
    else if text[0] == '\n' then ([text[0]], text[1..])
    else
      var (l, rest) := ReadLine(text[1..]);
      ([text[0]] + l, rest)
  }

  /** A line with no newline, followed by a newline, reads as that line. */
  lemma {:induction false} ReadLineOf(l: string, rest: string)
    requires '\n' !in l
    ensures ReadLine(l + "\n" + rest) == (l + "\n", rest)
    decreases |l|
  {
    if l != [] {
      var t := l + "\n" + rest;
      assert t[0] == l[0] && t[0] != '\n';
      assert t[1..] == l[1..] + "\n" + rest;
      ReadLineOf(l[1..], rest);
      assert [l[0]] + (l[1..] + "\n") == l + "\n";
    }
  }

  /** The line ending is dropped: a final "\n", and a "\r" before it. A
      lone final "\r" stays. */
  function Trim(line: string): (r: string)
    ensures |r| <= |line| && r == line[..|r|]
    ensures line != [] && line[|line| - 1] == '\n' ==> |r| < |line|
  {
    if |line| > 0 && line[|line| - 1] == '\n' then
      var l := line[..|line| - 1];
      if |l| > 0 && l[|l| - 1] == '\r' then l[..|l| - 1] else l
    else line
  }

  /** Trimming undoes either line ending, and leaves a line without one
      alone. */
  lemma TrimEndings(l: string)
    requires l == [] || (l[|l| - 1] != '\r' && l[|l| - 1] != '\n')
    ensures Trim(l) == l
    ensures Trim(l + "\n") == l
    ensures Trim(l + "\r\n") == l
  {
    assert (l + "\n")[..|l|] == l;
    assert (l + "\r\n")[..|l| + 1] == l + "\r";
    assert (l + "\r")[..|l|] == l;
  }

  // ---------------------------------------------------------------------
  // Splitting

  /** `splitn(2, " ")`: the text before the first space and the text after
      it, or nothing when there is no space. */
  function SplitKey(line: string): (r: Option<(string, string)>)
    ensures r.None? <==> ' ' !in line
    ensures r.Some? ==> r.value.0 + " " + r.value.1 == line && ' ' !in r.value.0
    decreases |line|
  {
    if line == [] then None
    else if line[0] == ' ' then Some(([], line[1..]))
    else
      match SplitKey(line[1..])
      case None => None
      case Some((k, v)) => Some(([line[0]] + k, v))
  }

  /** A key without spaces and its value split back apart. */
  lemma {:induction false} SplitKeyOf(k: string, v: string)
    requires ' ' !in k
    ensures SplitKey(k + " " + v) == Some((k, v))
    decreases |k|
  {
    if k != [] {
      var t := k + " " + v;
      assert t[0] == k[0] && t[0] != ' ';
      assert t[1..] == k[1..] + " " + v;
      SplitKeyOf(k[1..], v);
      assert [k[0]] + k[1..] == k;
    }
  }

  /** `split(sep)`: the pieces between separators, at least one. */
  function Split(s: string, sep: char): (parts: seq<string>)
    ensures |parts| >= 1
    ensures forall i :: 0 <= i < |parts| ==> sep !in parts[i]
    decreases |s|
  {
    if s == [] then [[]]
    else
      var rest := Split(s[1..], sep);
      if s[0] == sep then [[]] + rest else [[s[0]] + rest[0]] + rest[1..]
  }

  /** The pieces put back together with the separator between them. */
  function Join(parts: seq<string>, sep: char): (s: string)
    requires |parts| >= 1
    decreases |parts|
  {
    if |parts| == 1 then parts[0] else parts[0] + [sep] + Join(parts[1..], sep)
  }

  /** Splitting loses nothing. */
  lemma {:induction false} JoinSplit(s: string, sep: char)
    ensures Join(Split(s, sep), sep) == s
    decreases |s|
  {
    if s != [] {
      JoinSplit(s[1..], sep);
      var rest := Split(s[1..], sep);
      if s[0] != sep {
        if |rest| > 1 {
          assert ([[s[0]] + rest[0]] + rest[1..])[1..] == rest[1..];
          assert Join(rest, sep) == rest[0] + [sep] + Join(rest[1..], sep);
        }
      } else {
        assert ([[]] + rest)[1..] == rest;
      }
    }
  }

  /** Pieces without the separator come back from splitting their join. */
  lemma {:induction false} SplitJoin(parts: seq<string>, sep: char)
    requires |parts| >= 1 && forall i :: 0 <= i < |parts| ==> sep !in parts[i]
    ensures Split(Join(parts, sep), sep) == parts
    decreases |parts|, |parts[0]|
  {
    if |parts| == 1 {
      NoSeparator(parts[0], sep);
    } else if parts[0] == [] {
      SplitJoin(parts[1..], sep);
      assert Join(parts, sep) == [sep] + Join(parts[1..], sep);
      assert (Join(parts, sep))[1..] == Join(parts[1..], sep);
      assert [[]] + parts[1..] == parts;
    } else {
      var p := [parts[0][1..]] + parts[1..];
      assert p[1..] == parts[1..];
      assert forall i :: 1 <= i < |p| ==> p[i] == parts[i];
      assert sep !in p[0];
      SplitJoin(p, sep);
      assert Join(parts, sep) == [parts[0][0]] + Join(p, sep);
      assert Join(parts, sep)[1..] == Join(p, sep);
      assert [parts[0][0]] + p[0] == parts[0];
      assert [[parts[0][0]] + p[0]] + p[1..] == parts;
    }
  }

  /** Text without the separator is a single piece. */
  lemma {:induction false} NoSeparator(s: string, sep: char)
    requires sep !in s
    ensures Split(s, sep) == [s]
    decreases |s|
  {
    if s != [] {
      NoSeparator(s[1..], sep);
      assert [s[0]] + s[1..] == s;
    }
  }

  // ---------------------------------------------------------------------
  // Integers

  const I32Min: int := -0x8000_0000
  const I32Max: int := 0x7FFF_FFFF

  predicate IsDigit(c: char) {
    '0' <= c <= '9'
  }

  predicate AllDigits(s: string) {
    forall i :: 0 <= i < |s| ==> IsDigit(s[i])
  }

  /** The number a string of decimal digits denotes. */
  function DigitsValue(s: string): (n: nat)
    requires AllDigits(s)
    decreases |s|
  {
    if s == [] then 0 else DigitsValue(s[..|s| - 1]) * 10 + (s[|s| - 1] - '0') as nat
  }

  /** Rust's `str::parse::<i32>`: an optional sign, at least one digit and
      nothing else, within the range of `i32`. */
  function ParseI32(s: string): (r: Option<int>)
    ensures r.Some? ==> I32Min <= r.value <= I32Max
    ensures r.Some? && s != [] && IsDigit(s[0]) ==> AllDigits(s) && r.value == DigitsValue(s)
    ensures r.Some? && s != [] && s[0] == '-' ==> AllDigits(s[1..]) && r.value == -(DigitsValue(s[1..]) as int)
    ensures r.Some? ==> s != [] && (IsDigit(s[0]) || s[0] == '-' || s[0] == '+')
  {
    var (negative, digits) :=
      if |s| > 0 && s[0] == '-' then (true, s[1..])
      else if |s| > 0 && s[0] == '+' then (false, s[1..])
      else (false, s);
    if digits == [] || !AllDigits(digits) then None
    else
      var v := if negative then -(DigitsValue(digits) as int) else DigitsValue(digits);
      if I32Min <= v <= I32Max then Some(v) else None
  }

  /** Reading back the decimal digits of a number gives the number. */
  lemma {:induction false} DigitsOfDecimal(n: nat)
    ensures AllDigits(Decimal(n)) && DigitsValue(Decimal(n)) == n
    decreases n
  {
    if n >= 10 {
      DigitsOfDecimal(n / 10);
      var s := Decimal(n);
      assert s[..|s| - 1] == Decimal(n / 10);
    }
  }

  /** Every `i32` written in decimal parses back to itself. */
  lemma ParseDecimal(v: int)
    requires I32Min <= v <= I32Max
    ensures ParseI32(if v < 0 then "-" + Decimal(-v) else Decimal(v)) == Some(v)
  {
    if v < 0 {
      DigitsOfDecimal(-v);
      assert ("-" + Decimal(-v))[1..] == Decimal(-v);
    } else {
      DigitsOfDecimal(v);
    }
  }

  // ---------------------------------------------------------------------
  // Gamepad fields

  /** A button is released when its column holds '.' or ' '. */
  predicate Pressed(c: char) {
    c != '.' && c != ' '
  }

  /** The field read one character at a time, each shifted in at bit 0:
      the first of eight characters ends up in bit 7. */
  function GamepadBits(s: string): bv8
    decreases |s|
  {
    if s == [] then 0
    else (GamepadBits(s[..|s| - 1]) << 1) | BoolBit(Pressed(s[|s| - 1]))
  }

  /** The bytes a character takes in UTF-8, by its code point. */
  function Utf8Width(c: char): nat {
    if c as int < 0x80 then 1
    else if c as int < 0x800 then 2
    else if c as int < 0x10000 then 3
    else 4
  }

  /** `str::len`: the length of a text in UTF-8 bytes. Every character
      takes one to four bytes, and ASCII text takes one per character. */
  function Utf8Len(s: string): (n: nat)
    ensures |s| <= n <= 4 * |s|
    ensures (forall i :: 0 <= i < |s| ==> s[i] as int < 0x80) ==> n == |s|
    decreases |s|
  {
    if s == [] then 0
    else
      assert forall i :: 0 <= i < |s| - 1 ==> s[..|s| - 1][i] == s[i];
      Utf8Len(s[..|s| - 1]) + Utf8Width(s[|s| - 1])
  }

  /** The byte length of a concatenation is the sum of the parts'. */
  lemma {:induction false} Utf8LenConcat(a: string, b: string)
    ensures Utf8Len(a + b) == Utf8Len(a) + Utf8Len(b)
    decreases |b|
  {
    if b != [] {
      var b' := b[..|b| - 1];
      assert (a + b)[..|a + b| - 1] == a + b';
      Utf8LenConcat(a, b');
    } else {
      assert a + b == a;
    }
  }

  /** Shifting a bit in moves every bit up by one. */
  lemma ShiftIn(x: bv8, b: bool, j: nat)
    requires j < 8
    ensures Bit((x << 1) | BoolBit(b), j) == if j == 0 then b else Bit(x, j - 1)
  {
    if j == 0 {} else if j == 1 {} else if j == 2 {} else if j == 3 {}
    else if j == 4 {} else if j == 5 {} else if j == 6 {} else {}
  }

  /** Character `i` of the field gives bit |s|-1-i; the bits above are
      clear. */
  lemma {:induction false} GamepadBitsAt(s: string, j: nat)
    requires |s| <= 8 && j < 8
    ensures Bit(GamepadBits(s), j) == (j < |s| && Pressed(s[|s| - 1 - j]))
    decreases |s|
  {
    if s != [] {
      var s' := s[..|s| - 1];
      ShiftIn(GamepadBits(s'), Pressed(s[|s| - 1]), j);
      if j > 0 {
        GamepadBitsAt(s', j - 1);
      }
    } else {
      assert GamepadBits(s) == 0;
    }
  }

  /** Two bytes with the same bits are equal. */
  lemma BitsDetermine(a: bv8, b: bv8)
    requires forall j :: 0 <= j < 8 ==> Bit(a, j) == Bit(b, j)
    ensures a == b
  {
    assert Bit(a, 0) == Bit(b, 0) && Bit(a, 1) == Bit(b, 1) && Bit(a, 2) == Bit(b, 2) && Bit(a, 3) == Bit(b, 3);
    assert Bit(a, 4) == Bit(b, 4) && Bit(a, 5) == Bit(b, 5) && Bit(a, 6) == Bit(b, 6) && Bit(a, 7) == Bit(b, 7);
  }

  /** The letters FM2 writes for pressed buttons, bit 7 first: Right, Left,
      Down, Up, sTart, Select, B, A. */
  const ButtonLetters: string := "RLDUTSBA"

  /** The field a recorder writes for a button byte. */
  function FormatGamepad(b: bv8): (s: string)
    ensures |s| == 8
    ensures forall i :: 0 <= i < 8 ==> (Pressed(s[i]) <==> Bit(b, 7 - i))
    ensures forall i :: 0 <= i < 8 ==> s[i] as int < 0x80
    ensures Utf8Len(s) == 8
  {
    seq(8, i requires 0 <= i < 8 => if Bit(b, 7 - i) then ButtonLetters[i] else '.')
  }
}
