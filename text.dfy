/** The string operations the lookup core leans on: Python's `str.lower`,
    `str.upper` and `str.title` (on ASCII letters), `str(int)` for the
    identifier, and splitting a rendering into its lines. */
module Text {

  predicate IsUpper(c: char) { 'A' <= c <= 'Z' }
  predicate IsLower(c: char) { 'a' <= c <= 'z' }

  /** A cased character, in the sense of `str.title`: an ASCII letter. */
  predicate IsLetter(c: char) { IsUpper(c) || IsLower(c) }

  function LowerChar(c: char): char
  {
    if IsUpper(c) then (c as int - 'A' as int + 'a' as int) as char else c
  }

  function UpperChar(c: char): char
  {
    if IsLower(c) then (c as int - 'a' as int + 'A' as int) as char else c
  }

  /** `s.lower()`: every upper-case letter replaced by its lower-case form. */
  function Lower(s: string): (r: string)
    ensures |r| == |s|
    ensures forall i | 0 <= i < |s| :: r[i] == LowerChar(s[i])
  {
    if s == [] then [] else [LowerChar(s[0])] + Lower(s[1..])
  }

  /** `s.upper()`: every lower-case letter replaced by its upper-case form. */
  function Upper(s: string): (r: string)
    ensures |r| == |s|
    ensures forall i | 0 <= i < |s| :: r[i] == UpperChar(s[i])
  {
    if s == [] then [] else [UpperChar(s[0])] + Upper(s[1..])
  }

  /** Upper-casing undoes lower-casing on a string of upper-case letters. */
  lemma UpperOfLower(s: string)
    requires forall i | 0 <= i < |s| :: IsUpper(s[i])
    ensures Upper(Lower(s)) == s
  {
    forall i | 0 <= i < |s| ensures Upper(Lower(s))[i] == s[i] {
      UpperOfLowerChar(s[i]);
    }
  }

  lemma UpperOfLowerChar(c: char)
    requires IsUpper(c)
    ensures UpperChar(LowerChar(c)) == c
  {
    assert IsLower(LowerChar(c));
  }

  /** A letter starts a word when it is first or follows a non-letter. */
  predicate StartsWord(s: string, i: nat)
    requires i < |s|
  {
    i == 0 || !IsLetter(s[i - 1])
  }

  /** What `s.title()` puts at position `i`: the first letter of each word in
      upper case, the other letters in lower case, everything else as is. */
  function TitleCharAt(s: string, i: nat): char
    requires i < |s|
  {
    if !IsLetter(s[i]) then s[i]
    else if StartsWord(s, i) then UpperChar(s[i])
    else LowerChar(s[i])
  }

  /** What the scan behind `Title` puts at position `i` when the character
      just before `s` was a letter exactly if `afterLetter`. */
  function TitleCharFrom(s: string, i: nat, afterLetter: bool): char
    requires i < |s|
  {
    var starts := if i == 0 then !afterLetter else !IsLetter(s[i - 1]);
    if !IsLetter(s[i]) then s[i] else if starts then UpperChar(s[i]) else LowerChar(s[i])
  }

  /** The scan behind `Title`, one character at a time. */
  function TitleFrom(s: string, afterLetter: bool): (r: string)
    ensures |r| == |s|
    ensures forall i | 0 <= i < |s| :: r[i] == TitleCharFrom(s, i, afterLetter)
  {
    if s == [] then []
    else
      var c := s[0];
      var first := if !IsLetter(c) then c else if afterLetter then LowerChar(c) else UpperChar(c);
      var rest := TitleFrom(s[1..], IsLetter(c));
      assert forall i | 1 <= i < |s| :: TitleCharFrom(s[1..], i - 1, IsLetter(c)) == TitleCharFrom(s, i, afterLetter) by {
        forall i | 1 <= i < |s| ensures TitleCharFrom(s[1..], i - 1, IsLetter(c)) == TitleCharFrom(s, i, afterLetter) {
          assert s[1..][i - 1] == s[i];
          if i > 1 { assert s[1..][i - 2] == s[i - 1]; }
        }
      }
      [first] + rest
  }

  /** `s.title()`. */
  function Title(s: string): (r: string)
    ensures |r| == |s|
    ensures forall i | 0 <= i < |s| :: r[i] == TitleCharAt(s, i)
  {
    var r := TitleFrom(s, false);
    assert forall i | 0 <= i < |s| :: TitleCharFrom(s, i, false) == TitleCharAt(s, i);
    r
  }

  /** Title-casing keeps every letter a letter and every other character as it was. */
  lemma TitleKeepsShape(s: string)
    ensures |Title(s)| == |s|
    ensures forall i | 0 <= i < |s| :: IsLetter(Title(s)[i]) == IsLetter(s[i])
    ensures forall i | 0 <= i < |s| && !IsLetter(s[i]) :: Title(s)[i] == s[i]
  {
  }

  /** Title-casing a title-cased string changes nothing. */
  lemma TitleIdempotent(s: string)
    ensures Title(Title(s)) == Title(s)
  {
    var t := Title(s);
    TitleKeepsShape(s);
    forall i | 0 <= i < |s|
      ensures Title(t)[i] == t[i]
    {
      assert StartsWord(t, i) == StartsWord(s, i);
    }
  }

  /** Title-casing an upper-case word gives letters only, and upper-casing
      the result gives the word back. */
  lemma TitleOfUpperWord(s: string)
    requires forall i | 0 <= i < |s| :: IsUpper(s[i])
    ensures Upper(Title(s)) == s
    ensures forall i | 0 <= i < |s| :: IsLetter(Title(s)[i])
    ensures '|' !in Title(s) && '\n' !in Title(s)
  {
    TitleKeepsShape(s);
    forall i | 0 <= i < |s| ensures Upper(Title(s))[i] == s[i] {
      UpperOfLowerChar(s[i]);
    }
  }

  /** A character that is not a letter and is absent before title-casing is absent after it. */
  lemma TitleKeepsAbsent(s: string, c: char)
    requires !IsLetter(c) && c !in s
    ensures c !in Title(s)
  {
    TitleKeepsShape(s);
    forall i | 0 <= i < |s| ensures Title(s)[i] != c {
      if IsLetter(s[i]) { assert IsLetter(Title(s)[i]); }
    }
  }

  /** Lower-casing a lower-cased string changes nothing. */
  lemma LowerIdempotent(s: string)
    ensures Lower(Lower(s)) == Lower(s)
  {
  }

  /** The decimal digit character for `d`. */
  function DigitChar(d: nat): char
    requires d < 10
  {
    ('0' as int + d) as char
  }

  predicate IsDigit(c: char) { '0' <= c <= '9' }

  function DigitValue(c: char): nat
    requires IsDigit(c)
  {
    c as int - '0' as int
  }

  /** The decimal form of a natural number, most significant digit first. */
  function NatToDecimal(n: nat): (r: string)
    ensures |r| > 0
    ensures forall i | 0 <= i < |r| :: IsDigit(r[i])
    ensures r[0] == '0' ==> n == 0 && r == "0"
  {
    if n < 10 then [DigitChar(n)] else NatToDecimal(n / 10) + [DigitChar(n % 10)]
  }

  /** `str(n)` for a Python `int`: a minus sign for a negative value, then the digits. */
  function IntToDecimal(n: int): (r: string)
    ensures |r| > 0
    ensures r[0] == '-' <==> n < 0
    ensures n < 0 ==> |r| > 1
    ensures forall i | (if n < 0 then 1 else 0) <= i < |r| :: IsDigit(r[i])
    ensures r[if n < 0 then 1 else 0] == '0' ==> r == "0"
  {
    if n < 0 then "-" + NatToDecimal(-n) else NatToDecimal(n)
  }

  /** Reads a string of digits as a natural number. */
  function ParseNat(s: string): nat
    requires forall i | 0 <= i < |s| :: IsDigit(s[i])
  {
    if s == [] then 0 else ParseNat(s[..|s| - 1]) * 10 + DigitValue(s[|s| - 1])
  }

  /** Reads what `IntToDecimal` writes. */
  function ParseInt(s: string): int
    requires s != [] && (s[0] == '-' || IsDigit(s[0]))
    requires forall i | 1 <= i < |s| :: IsDigit(s[i])
  {
    if s[0] == '-' then -(ParseNat(s[1..]) as int) else ParseNat(s)
  }

  lemma {:induction false} NatDecimalRoundTrip(n: nat)
    ensures ParseNat(NatToDecimal(n)) == n
  {
    if n >= 10 {
      NatDecimalRoundTrip(n / 10);
      var s := NatToDecimal(n);
      assert s[..|s| - 1] == NatToDecimal(n / 10);
    }
  }

  /** The identifier text can be read back: `int(str(n)) == n`. */
  lemma DecimalRoundTrip(n: int)
    ensures var s := IntToDecimal(n);
      s != [] && (s[0] == '-' || IsDigit(s[0])) &&
      (forall i | 1 <= i < |s| :: IsDigit(s[i])) &&
      ParseInt(s) == n
  {
    if n < 0 {
      NatDecimalRoundTrip(-n);
      assert IntToDecimal(n)[1..] == NatToDecimal(-n);
    } else {
      NatDecimalRoundTrip(n);
    }
  }

  /** The decimal form never holds a line break. */
  lemma DecimalHasNoNewline(n: int)
    ensures '\n' !in IntToDecimal(n)
  {
    var d := if n < 0 then NatToDecimal(-n) else NatToDecimal(n);
    assert forall i | 0 <= i < |d| :: d[i] != '\n';
    if n < 0 {
      assert IntToDecimal(n) == "-" + d;
    }
  }

  /** The rule that closes every card. */
  const Separator: string := "------------------------------"

  /** The rule is thirty dashes and nothing else. */
  lemma SeparatorIsDashes()
    ensures |Separator| == 30
    ensures forall i | 0 <= i < |Separator| :: Separator[i] == '-'
    ensures '\n' !in Separator
  {
  }

  /** In `a + " | " + c` with a bar-free `a`, the first bar stands right after `a` and its space. */
  lemma FirstBarAt(a: string, c: string)
    requires '|' !in a
    ensures (a + " | " + c)[|a| + 1] == '|'
    ensures forall k | 0 <= k <= |a| :: (a + " | " + c)[k] != '|'
  {
  }

  /** A string joined from two bar-free halves around `" | "` splits back
      into those halves. */
  lemma BarJoinInjective(a: string, c: string, b: string, d: string)
    requires '|' !in a && '|' !in b
    requires a + " | " + c == b + " | " + d
    ensures a == b && c == d
  {
    var line := a + " | " + c;
    FirstBarAt(a, c);
    FirstBarAt(b, d);
    assert |a| == |b|;
    assert a == line[..|a|] == b;
    assert c == line[|a| + 3..] == d;
  }

  /** `s.split("\n")`: the pieces between line breaks, in order. */
  function SplitLines(s: string): (r: seq<string>)
    ensures |r| > 0
  {
    if s == [] then [""]
    else
      var rest := SplitLines(s[1..]);
      if s[0] == '\n' then [""] + rest else [[s[0]] + rest[0]] + rest[1..]
  }

  /** A line without breaks followed by a break splits off as the first line. */
  lemma {:induction false} SplitLinesCons(line: string, rest: string)
    requires '\n' !in line
    ensures SplitLines(line + "\n" + rest) == [line] + SplitLines(rest)
  {
    if line == [] {
      assert line + "\n" + rest == "\n" + rest;
      assert ("\n" + rest)[1..] == rest;
    } else {
      SplitLinesCons(line[1..], rest);
      var s := line + "\n" + rest;
      assert s[0] == line[0];
      assert s[1..] == line[1..] + "\n" + rest;
      assert [line[0]] + line[1..] == line;
    }
  }

  /** The lines, each followed by a line break. */
  function Terminated(lines: seq<string>): string
  {
    if lines == [] then "" else lines[0] + "\n" + Terminated(lines[1..])
  }

  /** Four terminated lines, written out. */
  lemma TerminatedFour(l1: string, l2: string, l3: string, l4: string)
    ensures Terminated([l1, l2, l3, l4]) == l1 + "\n" + l2 + "\n" + l3 + "\n" + l4 + "\n"
  {
    assert [l1, l2, l3, l4][1..] == [l2, l3, l4];
    assert [l2, l3, l4][1..] == [l3, l4];
    assert [l3, l4][1..] == [l4];
    var s4 := l4 + "\n";
    var s3 := l3 + "\n" + s4;
    var s2 := l2 + "\n" + s3;
    assert Terminated([l4]) == s4;
    assert Terminated([l3, l4]) == s3;
    assert Terminated([l2, l3, l4]) == s2;
    assert l3 + "\n" + s4 == l3 + "\n" + l4 + "\n";
    assert l2 + "\n" + s3 == l2 + "\n" + l3 + "\n" + l4 + "\n";
  }

  /** Break-free lines, each terminated, split back into those lines and the
      empty remainder after the last break. */
  lemma {:induction false} SplitTerminated(lines: seq<string>)
    requires forall i | 0 <= i < |lines| :: '\n' !in lines[i]
    ensures SplitLines(Terminated(lines)) == lines + [""]
  {
    if lines != [] {
      SplitLinesCons(lines[0], Terminated(lines[1..]));
      SplitTerminated(lines[1..]);
      assert lines == [lines[0]] + lines[1..];
    }
  }

  /** The number line `No. {n}` holds no line break. */
  lemma NumberLineHasNoNewline(n: int)
    ensures '\n' !in "No. " + IntToDecimal(n)
  {
    DecimalHasNoNewline(n);
  }

}
