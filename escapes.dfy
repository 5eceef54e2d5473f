/**
 * Escape processing of a string literal (MethodArgAST::Codegen in
 * decafcomp.cc): the surrounding quotes are dropped, then nine passes run
 * one after another, each replacing, for as long as one is left, the first
 * occurrence of a backslash followed by one letter with the character it
 * names: \n \r \v \b \a \f \t \" and last \\.
 */
module Escapes {
  import opened Wrappers

  const Backslash: char := '\\'

  /** The first position of the two-character pattern [a, b] in s (std::string::find), None for npos. */
  function Find2(s: string, a: char, b: char, from: nat): (r: Option<nat>)
    requires from <= |s|
    ensures r.Some? ==> from <= r.value && r.value + 1 < |s| && s[r.value] == a && s[r.value + 1] == b
    ensures r.Some? ==> forall k :: from <= k < r.value ==> !(s[k] == a && s[k + 1] == b)
    ensures r.None? ==> forall k :: from <= k < |s| - 1 ==> !(s[k] == a && s[k + 1] == b)
    decreases |s| - from
  {
    if from + 1 >= |s| then None
    else if s[from] == a && s[from + 1] == b then Some(from)
    else Find2(s, a, b, from + 1)
  }

  /** No occurrence of the two-character pattern [a, b] remains in s. */
  predicate Absent(s: string, a: char, b: char) {
    forall k :: 0 <= k < |s| - 1 ==> !(s[k] == a && s[k + 1] == b)
  }

  /** temp.replace(i, 2, [c]) */
  function ReplaceAt(s: string, i: nat, c: char): (r: string)
    requires i + 1 < |s|
    ensures |r| == |s| - 1
  {
    s[..i] + [c] + s[i + 2..]
  }

  /**
   * One pass: while the pattern [Backslash, letter] occurs, replace its
   * first occurrence by c. The string shortens at every replacement.
   */
  function Pass(s: string, letter: char, c: char): (r: string)
    ensures Absent(r, Backslash, letter)
    ensures |r| <= |s|
    decreases |s|
  {
    match Find2(s, Backslash, letter, 0)
    case None => s
    case Some(i) => Pass(ReplaceAt(s, i, c), letter, c)
  }

  /** A pass leaves a string without its pattern unchanged. */
  lemma PassWithoutPattern(s: string, letter: char, c: char)
    requires Absent(s, Backslash, letter)
    ensures Pass(s, letter, c) == s
  {
    assert Find2(s, Backslash, letter, 0).None?;
  }

  /** The loop of one pass, as the source writes it: find from the start, replace two characters by one. */
  method ReplaceLoop(s: string, letter: char, c: char) returns (t: string)
    ensures t == Pass(s, letter, c)
    ensures Absent(t, Backslash, letter)
  {
    t := s;
    var found := Find2(t, Backslash, letter, 0);
    while found.Some?
      invariant found == Find2(t, Backslash, letter, 0)
      invariant Pass(t, letter, c) == Pass(s, letter, c)
      decreases |t|
    {
      t := ReplaceAt(t, found.value, c);
      found := Find2(t, Backslash, letter, 0);
    }
  }

  /** The nine passes in the order of the source. */
  function NinePasses(s: string): string {
    var s1 := Pass(s, 'n', '\n');
    var s2 := Pass(s1, 'r', '\r');
    var s3 := Pass(s2, 'v', '\U{000B}');
    var s4 := Pass(s3, 'b', 8 as char);
    var s5 := Pass(s4, 'a', 7 as char);
    var s6 := Pass(s5, 'f', '\U{000C}');
    var s7 := Pass(s6, 't', '\t');
    var s8 := Pass(s7, '"', '"');
    Pass(s8, Backslash, Backslash)
  }

  /** Drop the first and the last character: the quotes of the literal. */
  function Unquote(value: string): (r: string)
    requires |value| >= 2
    ensures |r| == |value| - 2
    ensures forall k :: 0 <= k < |r| ==> r[k] == value[k + 1]
  {
    value[1..|value| - 1]
  }

  /**
   * The processing of a string literal as decafcomp.cc writes it: no two
   * adjacent backslashes survive the last loop, and no loop lengthens the
   * text.
   */
  function ExpandAsWritten(value: string): (r: string)
    requires |value| >= 2
    ensures Absent(r, Backslash, Backslash)
    ensures |r| <= |value| - 2
  {
    NinePasses(Unquote(value))
  }

  /**
   * MethodArgAST::Codegen's rewriting of `temp`: erase the first and last
   * character, then run the nine replacement loops. The result holds no
   * two adjacent backslashes, because the last pass removes them all.
   */
  method ExpandEscapes(value: string) returns (temp: string)
    requires |value| >= 2
    ensures temp == ExpandAsWritten(value)
    ensures Absent(temp, Backslash, Backslash)
    ensures |temp| <= |value| - 2
  {
    temp := value[1..];
    temp := temp[..|temp| - 1];
    assert temp == Unquote(value);
    temp := ReplaceLoop(temp, 'n', '\n');
    temp := ReplaceLoop(temp, 'r', '\r');
    temp := ReplaceLoop(temp, 'v', '\U{000B}');
    temp := ReplaceLoop(temp, 'b', 8 as char);
    temp := ReplaceLoop(temp, 'a', 7 as char);
    temp := ReplaceLoop(temp, 'f', '\U{000C}');
    temp := ReplaceLoop(temp, 't', '\t');
    temp := ReplaceLoop(temp, '"', '"');
    temp := ReplaceLoop(temp, Backslash, Backslash);
  }

  // ---------------------------------------------------------------------
  // Escape sequences read once, left to right
  // ---------------------------------------------------------------------

  /** The letters that may follow a backslash. */
  predicate IsEscapeLetter(c: char) {
    c == 'n' || c == 'r' || c == 'v' || c == 'b' || c == 'a' || c == 'f' || c == 't'
    || c == '"' || c == Backslash
  }

  /** The character an escape letter names. */
  function Unescaped(letter: char): char
    requires IsEscapeLetter(letter)
  {
    match letter
    case 'n' => '\n'
    case 'r' => '\r'
    case 'v' => '\U{000B}'
    case 'b' => 8 as char
    case 'a' => 7 as char
    case 'f' => '\U{000C}'
    case 't' => '\t'
    case '"' => '"'
    case _ => Backslash
  }

  /** The characters that have an escape sequence. */
  predicate HasEscape(c: char) {
    c == '\n' || c == '\r' || c == '\U{000B}' || c == 8 as char || c == 7 as char
    || c == '\U{000C}' || c == '\t' || c == '"' || c == Backslash
  }

  /** The letter of the escape sequence of c. */
  function EscapeLetter(c: char): (letter: char)
    requires HasEscape(c)
    ensures IsEscapeLetter(letter) && Unescaped(letter) == c
  {
    if c == '\n' then 'n'
    else if c == '\r' then 'r'
    else if c == '\U{000B}' then 'v'
    else if c == 8 as char then 'b'
    else if c == 7 as char then 'a'
    else if c == '\U{000C}' then 'f'
    else if c == '\t' then 't'
    else if c == '"' then '"'
    else Backslash
  }

  /**
   * Each escape sequence replaced once, scanning left to right; a
   * character produced by a replacement is never read again.
   */
  function DecodeEscapes(s: string): string {
    if |s| >= 2 && s[0] == Backslash && IsEscapeLetter(s[1]) then [Unescaped(s[1])] + DecodeEscapes(s[2..])
    else if s == [] then []
    else [s[0]] + DecodeEscapes(s[1..])
  }

  /** How a string is written inside a Decaf string literal. */
  function EncodeEscapes(s: string): (r: string)
    ensures |r| >= |s|
  {
    if s == [] then []
    else (if HasEscape(s[0]) then [Backslash, EscapeLetter(s[0])] else [s[0]]) + EncodeEscapes(s[1..])
  }

  lemma {:induction false} DecodeEncode(s: string)
    ensures DecodeEscapes(EncodeEscapes(s)) == s
  {
    if s != [] {
      var e := EncodeEscapes(s);
      var rest := EncodeEscapes(s[1..]);
      DecodeEncode(s[1..]);
      if HasEscape(s[0]) {
        assert e == [Backslash, EscapeLetter(s[0])] + rest;
        assert e[2..] == rest;
      } else {
        assert e == [s[0]] + rest;
        assert e[1..] == rest;
      }
    }
  }

  /** The corrected processing of a string literal: quotes dropped, each escape read once. */
  function ExpandOnce(value: string): (r: string)
    requires |value| >= 2
    ensures forall s :: value == "\"" + EncodeEscapes(s) + "\"" ==> r == s
  {
    forall s | value == "\"" + EncodeEscapes(s) + "\"" ensures DecodeEscapes(Unquote(value)) == s {
      assert Unquote(value) == EncodeEscapes(s);
      DecodeEncode(s);
    }
    DecodeEscapes(Unquote(value))
  }

  /** The literal "a\nb" denotes the three characters a, newline, b. */
  lemma ExpandOnceExample()
    ensures ExpandOnce("\"a\\nb\"") == ['a', '\n', 'b']
  {
    assert "\"a\\nb\"" == "\"" + EncodeEscapes(['a', '\n', 'b']) + "\"";
  }

  /**
   * The \n pass runs before the \\ pass and reads the second backslash of
   * \\ together with the n after it: the literal "\\n", which denotes a
   * backslash followed by n, comes out as a backslash followed by a newline.
   */
  lemma DoubleExpansion()
    ensures ExpandAsWritten("\"\\\\n\"") == [Backslash, '\n']
    ensures ExpandOnce("\"\\\\n\"") == [Backslash, 'n']
    ensures "\"\\\\n\"" == "\"" + EncodeEscapes([Backslash, 'n']) + "\""
  {
    var t := Unquote("\"\\\\n\"");
    assert t == [Backslash, Backslash, 'n'];
    assert Find2(t, Backslash, 'n', 0) == Some(1);
    var s1 := [Backslash, '\n'];
    assert ReplaceAt(t, 1, '\n') == s1;
    assert Absent(s1, Backslash, 'n');
    PassWithoutPattern(s1, 'n', '\n');
    assert Pass(t, 'n', '\n') == s1;
    PassWithoutPattern(s1, 'r', '\r');
    PassWithoutPattern(s1, 'v', '\U{000B}');
    PassWithoutPattern(s1, 'b', 8 as char);
    PassWithoutPattern(s1, 'a', 7 as char);
    PassWithoutPattern(s1, 'f', '\U{000C}');
    PassWithoutPattern(s1, 't', '\t');
    PassWithoutPattern(s1, '"', '"');
    PassWithoutPattern(s1, Backslash, Backslash);
    assert EncodeEscapes(['n']) == ['n'];
    assert [Backslash, 'n'][1..] == ['n'];
    assert EncodeEscapes([Backslash, 'n']) == [Backslash, Backslash, 'n'];
  }
}
