/** The client's colour directives: a typed line may start with "?R", "?G", "?B", "?Y" or "?D",
    which is cut out of the text in place and colours this line and the following ones. */
module Colours {

  const NUL := '\0'
  const ESC := '\U{1B}'

  datatype Colour = Red | Green | Blue | Yellow | Default

  // Colouring: the SGR sequences of ECMA-48, section 8.3.117.

  function Code(c: Colour): char
    requires !c.Default?
  {
    match c
    case Red => '1'
    case Green => '2'
    case Yellow => '3'
    case Blue => '4'
  }

  const RESET := [ESC] + "[0m"

  function Prefix(c: Colour): string
    requires !c.Default?
  {
    [ESC] + "[0;3" + [Code(c)] + "m"
  }

  /** changeColor. */
  function Wrap(c: Colour, text: string): string {
    if c.Default? then text else Prefix(c) + text + RESET
  }

  predicate Wrapped(c: Colour, s: string) {
    !c.Default? && Prefix(c) <= s && |s| >= |Prefix(c)| + |RESET| && s[|s| - |RESET|..] == RESET
  }

  /** The colour a terminal shows a text in. */
  function ColourOf(s: string): Colour {
    if Wrapped(Red, s) then Red
    else if Wrapped(Green, s) then Green
    else if Wrapped(Blue, s) then Blue
    else if Wrapped(Yellow, s) then Yellow
    else Default
  }

  function Unwrap(s: string): string {
    if ColourOf(s).Default? then s else s[7..|s| - 4]
  }

  lemma PrefixesDiffer(c: Colour, d: Colour, s: string)
    requires Wrapped(c, s) && Wrapped(d, s)
    ensures c == d
  {
    assert Prefix(c)[5] == s[5] == Prefix(d)[5];
  }

  lemma ColourOfWrapped(c: Colour, s: string)
    requires Wrapped(c, s)
    ensures ColourOf(s) == c
  {
    forall d | Wrapped(d, s) ensures c == d { PrefixesDiffer(c, d, s); }
  }

  /** Colour and text can be read back from what was sent, except that a text left in the
      default colour must not look coloured already. */
  lemma WrapRoundTrip(c: Colour, text: string)
    ensures ColourOf(Wrap(c, text)) == c && Unwrap(Wrap(c, text)) == text
       <==> (c.Default? ==> ColourOf(text).Default?)
  {
    if !c.Default? {
      var s := Wrap(c, text);
      assert s[|s| - |RESET|..] == RESET;
      ColourOfWrapped(c, s);
      assert s[7..|s| - 4] == text;
    }
  }

  lemma PlainLooksDefault(text: string)
    ensures ESC !in text ==> ColourOf(text).Default?
  {
    forall c | Wrapped(c, text) ensures ESC in text { assert text[0] == Prefix(c)[0]; }
  }

  lemma WrapInjective(c: Colour, text: string, d: Colour, other: string)
    requires Wrap(c, text) == Wrap(d, other)
    requires (c.Default? ==> ESC !in text) && (d.Default? ==> ESC !in other)
    ensures c == d && text == other
  {
    PlainLooksDefault(text);
    PlainLooksDefault(other);
    WrapRoundTrip(c, text);
    WrapRoundTrip(d, other);
  }

  // C strings.

  /** The string a buffer holds ends before the first NUL. */
  function CString(buffer: seq<char>): (s: string)
    ensures |s| <= |buffer| && s == buffer[..|s|] && NUL !in s
    ensures |s| < |buffer| ==> buffer[|s|] == NUL
    ensures NUL in buffer ==> |s| < |buffer|
  {
    if buffer == [] || buffer[0] == NUL then [] else [buffer[0]] + CString(buffer[1..])
  }

  lemma {:induction false} CStringIs(buffer: seq<char>, s: string)
    requires |s| < |buffer| && s == buffer[..|s|] && NUL !in s && buffer[|s|] == NUL
    ensures CString(buffer) == s
  {
    if s != [] { CStringIs(buffer[1..], s[1..]); }
  }

  method StrLen(a: array<char>) returns (n: nat)
    requires NUL in a[..]
    ensures n == |CString(a[..])|
  {
    n := 0;
    while a[n] != NUL
      invariant 0 <= n < a.Length && NUL !in a[..n] && NUL in a[n..]
      decreases a.Length - n
    {
      assert NUL in a[n..][1..];
      assert a[n..][1..] == a[n + 1..];
      n := n + 1;
    }
    CStringIs(a[..], a[..n]);
  }

  // Cutting the directive out.

  function Cleared(m: string): string
    requires |m| >= 2
  {
    if |m| == 2 then ""
    else if |m| == 3 then m[2..]
    else if m[2] == ' ' then m[3..]
    else m
  }

  /** The first j characters have arrived; once the terminator has, the shift is over. */
  ghost predicate Shifted(mess: array<char>, m: string, j: int)
    reads mess
  {
    && 2 <= j <= |m| - 2 && |m| < mess.Length && NUL !in m && mess[|m|] == NUL
    && (forall k :: 0 <= k < j ==> mess[k] == if k + 3 < |m| then m[k + 3] else NUL)
    && (forall k :: j <= k < |m| ==> mess[k] == m[k])
  }

  /** strlen in the middle of the shift. */
  method Measure(mess: array<char>, ghost m: string, ghost j: int) returns (length: nat)
    requires Shifted(mess, m, j)
    ensures length == if j == |m| - 2 then |m| - 3 else |m|
  {
    assert NUL == mess[..][|m|];
    length := StrLen(mess);
    if j == |m| - 2 {
      assert mess[..|m| - 3] == m[3..];
      CStringIs(mess[..], m[3..]);
    } else {
      forall k | 0 <= k < |m| ensures mess[..|m|][k] != NUL { }
      CStringIs(mess[..], mess[..|m|]);
    }
  }

  method ShiftOne(mess: array<char>, ghost m: string, j: int)
    requires Shifted(mess, m, j) && j < |m| - 2
    modifies mess
    ensures Shifted(mess, m, j + 1)
    ensures forall k :: |m| <= k < mess.Length ==> mess[k] == old(mess[k])
  {
    mess[j] := mess[j + 3];
  }

  method ShiftByThree(mess: array<char>)
    requires NUL in mess[..] && |CString(mess[..])| >= 4
    modifies mess
    ensures NUL in mess[..] && CString(mess[..]) == old(CString(mess[..]))[3..]
    ensures forall k :: old(|CString(mess[..])|) < k < mess.Length ==> mess[k] == old(mess[k])
  {
    ghost var m := CString(mess[..]);
    ghost var n := |m|;
    mess[0] := mess[3];
    mess[1] := mess[4];
    var j := 2;
    var length := Measure(mess, m, j);
    while j <= length
      invariant Shifted(mess, m, j) && length == (if j == n - 2 then n - 3 else n)
      invariant forall k :: n <= k < mess.Length ==> mess[k] == old(mess[k])
      decreases n - j
    {
      ShiftOne(mess, m, j);
      j := j + 1;
      length := Measure(mess, m, j);
    }
    CStringIs(mess[..], m[3..]);
  }

  /** The in-place shift: the length is measured again on every turn, while the loop moves the
      terminator itself. Nothing behind the terminator is read or written: the buffer may end
      right there. */
  method ClearOpt(mess: array<char>)
    requires NUL in mess[..] && |CString(mess[..])| >= 2
    modifies mess
    ensures NUL in mess[..]
    ensures var m, r := old(CString(mess[..])), CString(mess[..]);
      && (|m| == 2 ==> r == "")
      && (|m| == 3 ==> r == m[2..])
      && (|m| >= 4 && m[2] == ' ' ==> r == m[3..])
      && (|m| >= 4 && m[2] != ' ' ==> r == m)
    ensures CString(mess[..]) == Cleared(old(CString(mess[..])))
    ensures forall k :: old(|CString(mess[..])|) < k < mess.Length ==> mess[k] == old(mess[k])
  {
    ghost var m := CString(mess[..]);
    var n := StrLen(mess);
    if n == 2 {
      mess[0] := NUL;
      mess[1] := NUL;
    } else if n == 3 {
      mess[0] := mess[2];
      mess[1] := NUL;
      CStringIs(mess[..], m[2..]);
    } else if mess[2] == ' ' {
      ShiftByThree(mess);
    }
  }

  // Detecting the directive.

  datatype Choice = Keep | Pick(colour: Colour)

  function At(line: string, i: nat): char {
    if i < |line| then line[i] else NUL
  }

  function ColourNamed(letter: char): Choice {
    if letter == 'R' || letter == 'r' then Pick(Red)
    else if letter == 'G' || letter == 'g' then Pick(Green)
    else if letter == 'B' || letter == 'b' then Pick(Blue)
    else if letter == 'Y' || letter == 'y' then Pick(Yellow)
    else if letter == 'D' || letter == 'd' then Pick(Default)
    else Keep
  }

  /** The directive a line starts with, if any: it ends at a space, a newline or the end. */
  function Directive(line: string): Choice {
    if At(line, 0) == '?' && At(line, 2) in [' ', NUL, '\n'] then ColourNamed(At(line, 1)) else Keep
  }

  function Chosen(before: Colour, choice: Choice): Colour {
    if choice.Pick? then choice.colour else before
  }

  function Stripped(line: string): string {
    if Directive(line).Pick? && |line| >= 2 then Cleared(line) else line
  }

  function Painted(c: Colour, text: string): string {
    if text == "" then "" else Wrap(c, text)
  }

  /** The work on a buffer of its own. */
  method Cut(line: string) returns (text: string)
    requires NUL !in line && |line| >= 2
    ensures text == Cleared(line)
  {
    var mess := new char[|line| + 1](i requires 0 <= i => if i < |line| then line[i] else NUL);
    assert mess[|line|] == NUL && mess[..|line|] == line;
    CStringIs(mess[..], line);
    ClearOpt(mess);
    var n := StrLen(mess);
    text := mess[..n];
  }

  method DetectMess(line: string, option: Colour) returns (text: string, chosen: Colour)
    requires NUL !in line
    ensures
      if && |line| >= 2 && line[0] == '?' && (|line| == 2 || line[2] == ' ' || line[2] == '\n')
         && line[1] in {'R', 'r', 'G', 'g', 'B', 'b', 'Y', 'y', 'D', 'd'}
      then
        && (line[1] in {'R', 'r'} ==> chosen == Red) && (line[1] in {'G', 'g'} ==> chosen == Green)
        && (line[1] in {'B', 'b'} ==> chosen == Blue) && (line[1] in {'Y', 'y'} ==> chosen == Yellow)
        && (line[1] in {'D', 'd'} ==> chosen == Default)
        && (|line| == 2 ==> text == "") && (|line| == 3 ==> text == Wrap(chosen, line[2..]))
        && (|line| >= 4 && line[2] == ' ' ==> text == Wrap(chosen, line[3..]))
        && (|line| >= 4 && line[2] == '\n' ==> text == Wrap(chosen, line))
      else chosen == option && text == if line == "" then "" else Wrap(option, line)
    ensures chosen == Chosen(option, Directive(line))
    ensures text == Painted(chosen, Stripped(line))
  {
    text, chosen := line, option;
    if |line| >= 2 && line[0] == '?' && (At(line, 2) == ' ' || At(line, 2) == NUL || At(line, 2) == '\n') {
      var choice := ColourNamed(line[1]);
      if choice.Pick? {
        chosen := choice.colour;
        text := Cut(line);
      }
    }
    if text != "" {
      text := Wrap(chosen, text);
    }
  }

  // Lines typed in a chat.

  datatype Sent = Nothing | Leave | Message(text: string)

  predicate BackAt(line: string, i: int) {
    0 <= i <= |line| - 5 && line[i..i + 5] == "?back"
  }

  predicate SaysBack(line: string) {
    exists i :: 0 <= i < |line| && BackAt(line, i)
  }

  /** The colour a line chooses: only lines sent as messages are looked at. */
  function ChosenBy(line: string): Choice {
    if SaysBack(line) then Keep else Directive(line)
  }

  /** The colour of the latest directive in the lines, or the default. */
  function Latest(lines: seq<string>): Colour {
    if lines == [] then Default
    else
      var choice := ChosenBy(lines[|lines| - 1]);
      if choice.Pick? then choice.colour else Latest(lines[..|lines| - 1])
  }

  predicate IsLatest(lines: seq<string>, i: int) {
    && 0 <= i < |lines| && ChosenBy(lines[i]).Pick?
    && forall j :: i < j < |lines| ==> ChosenBy(lines[j]) == Keep
  }

  /** The colour in force is that of the last line that chose one; none did if it is not there. */
  lemma {:induction false} LatestIsLast(lines: seq<string>)
    ensures forall i :: IsLatest(lines, i) ==> Latest(lines) == ChosenBy(lines[i]).colour
    ensures (forall i :: 0 <= i < |lines| ==> ChosenBy(lines[i]) == Keep) ==> Latest(lines) == Default
  {
    if lines != [] {
      var front := lines[..|lines| - 1];
      LatestIsLast(front);
      forall i | IsLatest(lines, i) ensures Latest(lines) == ChosenBy(lines[i]).colour {
        if i < |lines| - 1 {
          assert forall j :: i < j < |front| ==> front[j] == lines[j];
          assert IsLatest(front, i) && front[i] == lines[i];
        }
      }
      assert forall i :: 0 <= i < |front| ==> front[i] == lines[i];
    }
  }

  function SentFor(line: string, c: Colour): Sent {
    if SaysBack(line) then Leave
    else if line == "" then Nothing
    else Message(Painted(c, Stripped(line)))
  }

  method FindBack(line: string) returns (found: bool)
    ensures found <==> SaysBack(line)
  {
    var i := 0;
    while i + 5 <= |line|
      invariant 0 <= i
      invariant forall k :: 0 <= k < i ==> !BackAt(line, k)
    {
      if line[i..i + 5] == "?back" {
        assert BackAt(line, i);
        return true;
      }
      i := i + 1;
    }
    return false;
  }

  method SendLine(line: string, option: Colour) returns (sent: Sent, chosen: Colour)
    requires NUL !in line
    ensures chosen == Chosen(option, ChosenBy(line))
    ensures sent == SentFor(line, chosen)
  {
    chosen := option;
    var back := FindBack(line);
    if back {
      sent := Leave;
    } else if |line| == 0 {
      sent := Nothing;
    } else {
      var text;
      text, chosen := DetectMess(line, option);
      sent := Message(text);
    }
  }

  function SentAt(lines: seq<string>, i: nat): Sent
    requires i < |lines|
  {
    SentFor(lines[i], Latest(lines[..i + 1]))
  }

  method SendNext(lines: seq<string>, i: nat, option: Colour) returns (sent: Sent, chosen: Colour)
    requires i < |lines| && NUL !in lines[i] && option == Latest(lines[..i])
    ensures chosen == Latest(lines[..i + 1]) && sent == SentAt(lines, i)
  {
    assert lines[..i + 1][..i] == lines[..i];
    sent, chosen := SendLine(lines[i], option);
  }

  /** Over any lines typed, each is sent without its directive and in the colour of the latest
      directive so far. */
  method SendLines(lines: seq<string>) returns (sent: seq<Sent>)
    requires forall i :: 0 <= i < |lines| ==> NUL !in lines[i]
    ensures |sent| == |lines|
    ensures forall i :: 0 <= i < |lines| ==> sent[i] == SentAt(lines, i)
  {
    var option := Default;
    sent := [];
    while |sent| < |lines|
      invariant |sent| <= |lines| && option == Latest(lines[..|sent|])
      invariant forall i :: 0 <= i < |sent| ==> sent[i] == SentAt(lines, i)
    {
      var next;
      next, option := SendNext(lines, |sent|, option);
      sent := sent + [next];
    }
  }

  /** The escape sequences written out. */
  lemma WrapIs(text: string)
    ensures Wrap(Red, text) == "\U{1B}[0;31m" + text + "\U{1B}[0m"
    ensures Wrap(Green, text) == "\U{1B}[0;32m" + text + "\U{1B}[0m"
    ensures Wrap(Yellow, text) == "\U{1B}[0;33m" + text + "\U{1B}[0m"
    ensures Wrap(Blue, text) == "\U{1B}[0;34m" + text + "\U{1B}[0m"
    ensures Wrap(Default, text) == text
  {
    assert RESET == "\U{1B}[0m";
    assert Prefix(Red) == "\U{1B}[0;31m" && Prefix(Green) == "\U{1B}[0;32m";
    assert Prefix(Yellow) == "\U{1B}[0;33m" && Prefix(Blue) == "\U{1B}[0;34m";
  }

  /** A directive in front does not make a line end the talk. */
  lemma BackAfterDirective(letter: char, t: string)
    ensures SaysBack(['?', letter, ' '] + t) <==> SaysBack(t)
  {
    var line := ['?', letter, ' '] + t;
    forall i ensures BackAt(line, i + 3) && i >= 0 <==> BackAt(t, i) {
      if 0 <= i <= |t| - 5 { assert line[i + 3..i + 8] == t[i..i + 5]; }
    }
    forall i | 0 <= i < 3 && i <= |line| - 5 ensures !BackAt(line, i) {
      assert line[i..i + 5][0] == line[i] && line[i..i + 5][2 - i] == line[2];
    }
    if i :| 0 <= i < |line| && BackAt(line, i) { assert BackAt(t, i - 3); }
    if i :| 0 <= i < |t| && BackAt(t, i) { assert BackAt(line, i + 3); }
  }

  lemma DirectiveInFront(letter: char, t: string)
    requires |t| >= 1 && ColourNamed(letter).Pick?
    ensures var line := ['?', letter, ' '] + t; Directive(line) == ColourNamed(letter) && Stripped(line) == t
  {
    var line := ['?', letter, ' '] + t;
    assert line[3..] == t && line[0] == '?' && line[1] == letter && line[2] == ' ';
    hide ColourNamed;
  }

  /** A line that is a directive, a space and a text is sent as the text in that colour: the client
      at the other end reads both back, and the directive is nowhere in what was sent. */
  lemma DirectiveIsCut(letter: char, t: string)
    requires |t| >= 1 && letter in {'R', 'r', 'G', 'g', 'B', 'b', 'Y', 'y', 'D', 'd'} && !SaysBack(t)
    ensures
      var line := ['?', letter, ' '] + t;
      var sent := if letter in {'R', 'r'} then "\U{1B}[0;31m" + t + "\U{1B}[0m"
                  else if letter in {'G', 'g'} then "\U{1B}[0;32m" + t + "\U{1B}[0m"
                  else if letter in {'Y', 'y'} then "\U{1B}[0;33m" + t + "\U{1B}[0m"
                  else if letter in {'B', 'b'} then "\U{1B}[0;34m" + t + "\U{1B}[0m"
                  else t;
      && ChosenBy(line).Pick?
      && SentFor(line, ChosenBy(line).colour) == Message(sent)
      && (ESC !in t || letter !in {'D', 'd'} ==> Unwrap(sent) == t && ColourOf(sent) == ChosenBy(line).colour)
  {
    var line, c := ['?', letter, ' '] + t, ColourNamed(letter).colour;
    BackAfterDirective(letter, t);
    DirectiveInFront(letter, t);
    WrapIs(t);
    PlainLooksDefault(t);
    WrapRoundTrip(c, t);
    hide SaysBack, Directive, Stripped, Wrap, Unwrap, ColourOf;
  }

  /** And a line that starts with none is sent whole, in the colour in force. */
  lemma OtherLinesAreWhole(line: string, c: Colour)
    requires line != "" && NUL !in line && !SaysBack(line)
    requires !(&& |line| >= 2 && line[0] == '?' && (|line| == 2 || line[2] == ' ' || line[2] == '\n')
               && line[1] in {'R', 'r', 'G', 'g', 'B', 'b', 'Y', 'y', 'D', 'd'})
    ensures ChosenBy(line) == Keep && SentFor(line, c) == Message(Wrap(c, line))
  {
    assert |line| >= 3 ==> line[2] in line;
    hide Wrap;
  }

  /** A line ends the talk exactly when it has "?back" somewhere, and then chooses no colour; only an
      empty line is not sent. */
  lemma LeaveIff(line: string, c: Colour)
    ensures SentFor(line, c) == Leave <==> exists before: string, after: string :: line == before + "?back" + after
    ensures SentFor(line, c) == Leave ==> ChosenBy(line) == Keep
    ensures SentFor(line, c) == Nothing <==> line == ""
  {
    if i :| 0 <= i < |line| && BackAt(line, i) {
      assert line == line[..i] + "?back" + line[i + 5..];
    }
    forall before: string, after: string | line == before + "?back" + after ensures SaysBack(line) {
      assert BackAt(line, |before|);
    }
  }

  /** What the receiver can read back from a line typed without escape characters. */
  lemma SentCanBeRead(line: string, c: Colour)
    requires ESC !in line && Stripped(line) != ""
    ensures Unwrap(Painted(c, Stripped(line))) == Stripped(line) && ColourOf(Painted(c, Stripped(line))) == c
  {
    PlainLooksDefault(Stripped(line));
    WrapRoundTrip(c, Stripped(line));
  }

  /** An empty text is sent exactly for a line that is nothing but a directive. */
  lemma EmptyTextIff(line: string, c: Colour)
    ensures SentFor(line, c) == Message("") <==> |line| == 2 && line[0] == '?' && ColourNamed(line[1]).Pick?
  {
    if |line| >= 2 && line[0] == '?' && Directive(line).Pick? && Cleared(line) == "" { assert |line| == 2; }
    if Stripped(line) != "" && !c.Default? { assert |Wrap(c, Stripped(line))| >= 11; }
  }
}
