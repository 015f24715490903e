/** Texts cut down to one line of printable ASCII, lines and how they join, and decimal numbers. */
module PlainText {
  import opened Basics

  /** What the pattern \s matches; trimming strips the same characters. */
  predicate IsSpace(c: char) {
    || '\t' <= c <= '\r' || c == ' ' || c == '\U{a0}' || c == '\U{1680}' || '\U{2000}' <= c <= '\U{200a}'
    || c == '\U{2028}' || c == '\U{2029}' || c == '\U{202f}' || c == '\U{205f}' || c == '\U{3000}' || c == '\U{feff}'
  }

  function DropSpaces(s: string): (r: string)
    ensures |r| <= |s| && (r != [] ==> !IsSpace(r[0]))
  {
    if s != [] && IsSpace(s[0]) then DropSpaces(s[1..]) else s
  }

  function DropTrailingSpaces(s: string): (r: string)
    ensures r <= s && (r != [] ==> !IsSpace(r[|r| - 1]))
  {
    if s != [] && IsSpace(s[|s| - 1]) then DropTrailingSpaces(s[..|s| - 1]) else s
  }

  function Trim(s: string): string {
    DropTrailingSpaces(DropSpaces(s))
  }

  /** Every run of white space becomes one space. */
  function Flatten(s: string): string
    decreases |s|
  {
    if s == [] then []
    else if IsSpace(s[0]) then [' '] + Flatten(DropSpaces(s[1..]))
    else [s[0]] + Flatten(s[1..])
  }

  predicate IsPrintable(c: char) {
    ' ' <= c <= '~'
  }

  function Ascii(s: string): (r: string)
    ensures |r| == |s| && forall c :: c in r ==> IsPrintable(c)
  {
    seq(|s|, i requires 0 <= i < |s| => if IsPrintable(s[i]) then s[i] else '?')
  }

  /** One line of at most `maxChars` printable characters; a cut is marked with a tilde. */
  function OneLine(text: string, maxChars: nat): (line: string)
    ensures forall c :: c in line ==> IsPrintable(c)
    ensures |line| <= Max(maxChars, 1)
  {
    var ascii := Ascii(Trim(Flatten(text)));
    if |ascii| <= maxChars then ascii else ascii[..Max(0, maxChars - 1)] + "~"
  }

  // ----- What the line holds -----

  /** The characters before the first white space. */
  function Word(s: string): (w: string)
    ensures w <= s && (forall c <- w :: !IsSpace(c)) && (|w| < |s| ==> IsSpace(s[|w|]))
  {
    if s == [] || IsSpace(s[0]) then [] else
      var later := Word(s[1..]);
      [s[0]] + later
  }

  /** The pieces of a text between its white space. */
  function Words(s: string): (words: seq<string>)
    ensures forall w <- words :: w != "" && forall c <- w :: !IsSpace(c)
    decreases |s|
  {
    if s == [] then []
    else if IsSpace(s[0]) then Words(s[1..])
    else [Word(s)] + Words(s[|Word(s)|..])
  }

  function Spaced(words: seq<string>): string {
    if words == [] then ""
    else if |words| == 1 then words[0]
    else words[0] + " " + Spaced(words[1..])
  }

  lemma {:induction false} WordsAfterSpaces(s: string)
    ensures Words(DropSpaces(s)) == Words(s)
    decreases |s|
  {
    if s != [] && IsSpace(s[0]) {
      WordsAfterSpaces(s[1..]);
    }
  }

  /** Dropping leading white space keeps the text's end, unless there is nothing else. */
  lemma {:induction false} DroppedKeepsTheEnd(s: string)
    ensures var r := DropSpaces(s);
      s != [] ==> if r == [] then IsSpace(s[|s| - 1]) else r[|r| - 1] == s[|s| - 1]
    decreases |s|
  {
    if |s| > 1 {
      DroppedKeepsTheEnd(s[1..]);
    }
  }

  lemma {:induction false} FlattenKeepsAWord(w: string, rest: string)
    requires forall c <- w :: !IsSpace(c)
    ensures Flatten(w + rest) == w + Flatten(rest)
    decreases |w|
  {
    if w == [] {
      assert w + rest == rest;
    } else {
      FirstIsIn(w);
      FlattenKeepsAWord(w[1..], rest);
      assert (w + rest)[0] == w[0] && (w + rest)[1..] == w[1..] + rest;
      ConcatAssociative([w[0]], w[1..], Flatten(rest));
      assert [w[0]] + w[1..] == w;
    }
  }

  ghost predicate AreWords(words: seq<string>) {
    forall w <- words :: w != "" && forall c <- w :: !IsSpace(c)
  }

  lemma WordEnds(w: string)
    requires w != "" && forall c <- w :: !IsSpace(c)
    ensures !IsSpace(w[0]) && !IsSpace(w[|w| - 1])
  {
    assert w[0] in w && w[|w| - 1] in w;
  }

  lemma {:induction false} SpacedEndsInAWord(words: seq<string>)
    requires AreWords(words) && words != []
    ensures var line := Spaced(words); line != "" && !IsSpace(line[0]) && !IsSpace(line[|line| - 1])
    decreases words
  {
    FirstIsIn(words);
    WordEnds(words[0]);
    if |words| > 1 {
      assert forall w <- words[1..] :: w in words;
      SpacedEndsInAWord(words[1..]);
    }
  }

  /** The white space a flattened text ends in. */
  function LastSpace(s: string): string {
    if s != [] && IsSpace(s[|s| - 1]) then " " else ""
  }

  lemma FlattenOneWord(w: string)
    requires w != "" && forall c <- w :: !IsSpace(c)
    ensures Spaced([w]) + LastSpace(w) == w
  {
    WordEnds(w);
  }

  lemma SpaceBetween(w: string, line: string, after: string)
    ensures w + (" " + (line + after)) == (w + " " + line) + after
  {
  }

  lemma SameLastSpace(w: string, rest: string, next: string)
    requires rest != [] && IsSpace(rest[0]) && next == DropSpaces(rest[1..])
    ensures LastSpace(w + rest) == if next == [] then " " else LastSpace(next)
  {
    assert (w + rest)[|w + rest| - 1] == rest[|rest| - 1];
    DroppedKeepsTheEnd(rest);
  }

  lemma SpacedMore(w: string, words: seq<string>)
    ensures words != [] ==> Spaced([w] + words) == w + " " + Spaced(words)
  {
    assert ([w] + words)[1..] == words;
  }

  lemma FlattenMoreWords(w: string, rest: string, next: string)
    requires rest != [] && IsSpace(rest[0]) && next == DropSpaces(rest[1..])
    requires Flatten(next) == Spaced(Words(next)) + LastSpace(next)
    ensures w + Flatten(rest) == Spaced([w] + Words(next)) + LastSpace(w + rest)
  {
    assert Flatten(rest) == " " + Flatten(next);
    SameLastSpace(w, rest, next);
    SpacedMore(w, Words(next));
    SpaceBetween(w, Spaced(Words(next)), LastSpace(next));
  }

  /** A text that begins with a word: its words with one space between, and one more if it ends in white space. */
  lemma {:induction false} FlattenSpacesWords(s: string)
    requires s != [] ==> !IsSpace(s[0])
    ensures Flatten(s) == Spaced(Words(s)) + LastSpace(s)
    decreases |s|
  {
    if s != [] {
      var w, rest := Word(s), s[|Word(s)|..];
      assert s == w + rest;
      FlattenKeepsAWord(w, rest);
      if rest == [] {
        FlattenOneWord(w);
      } else {
        var next := DropSpaces(rest[1..]);
        WordsAfterSpaces(rest[1..]);
        FlattenSpacesWords(next);
        FlattenMoreWords(w, rest, next);
      }
    }
  }

  lemma TrailingSpaceGoes(line: string)
    requires line != "" ==> !IsSpace(line[|line| - 1])
    ensures DropTrailingSpaces(line) == line && DropTrailingSpaces(line + " ") == line
  {
    assert (line + " ")[..|line|] == line;
  }

  lemma LeadingSpaceGoes(line: string)
    requires line != "" ==> !IsSpace(line[0])
    ensures DropSpaces(line) == line && DropSpaces(" " + line) == line
  {
    assert (" " + line)[1..] == line;
  }

  /** A space before a text's words and one after them are trimmed. */
  lemma TrimOfSpaced(words: seq<string>, after: string)
    requires AreWords(words) && (after == "" || (after == " " && words != []))
    ensures Trim(Spaced(words) + after) == Spaced(words) && Trim(" " + (Spaced(words) + after)) == Spaced(words)
  {
    if words != [] {
      SpacedEndsInAWord(words);
    }
    LeadingSpaceGoes(Spaced(words) + after);
    TrailingSpaceGoes(Spaced(words));
    assert after == "" ==> Spaced(words) + after == Spaced(words);
  }

  lemma LastSpaceFollowsAWord(s: string)
    requires s != [] ==> !IsSpace(s[0])
    ensures Words(s) == [] ==> LastSpace(s) == ""
  {
  }

  /** The line holds the text's words in order with one space between, each odd character as a question mark. */
  lemma OneLineHoldsTheWords(text: string, maxChars: nat)
    ensures var line := Ascii(Spaced(Words(text)));
            OneLine(text, maxChars) == if |line| <= maxChars then line else line[..Max(0, maxChars - 1)] + "~"
  {
    if text != [] && IsSpace(text[0]) {
      var body := DropSpaces(text[1..]);
      WordsAfterSpaces(text[1..]);
      FlattenSpacesWords(body);
      LastSpaceFollowsAWord(body);
      TrimOfSpaced(Words(text), LastSpace(body));
    } else {
      FlattenSpacesWords(text);
      LastSpaceFollowsAWord(text);
      TrimOfSpaced(Words(text), LastSpace(text));
    }
  }

  // ----- Lines -----

  predicate IsLine(s: string) {
    '\n' !in s
  }

  function Join(lines: seq<string>): string {
    if lines == [] then ""
    else if |lines| == 1 then lines[0]
    else lines[0] + "\n" + Join(lines[1..])
  }

  /** The first line of a text and the rest after its newline, if it has one. */
  function LineEnd(s: string, from: nat): (i: nat)
    requires from <= |s| && forall k :: 0 <= k < from ==> s[k] != '\n'
    ensures i <= |s| && (i < |s| ==> s[i] == '\n') && forall k :: 0 <= k < i ==> s[k] != '\n'
    decreases |s| - from
  {
    if from == |s| then from
    else if s[from] == '\n' then from
    else LineEnd(s, from + 1)
  }

  function Split(s: string): (lines: seq<string>)
    ensures lines != [] && forall l :: l in lines ==> IsLine(l)
    decreases |s|
  {
    var i := LineEnd(s, 0);
    if i == |s| then [s] else [s[..i]] + Split(s[i + 1..])
  }

  lemma LineEndIs(line: string, rest: string)
    requires IsLine(line)
    ensures LineEnd(line + "\n" + rest, 0) == |line|
  {
    var s := line + "\n" + rest;
    assert s[|line|] == '\n' && forall k :: 0 <= k < |line| ==> s[k] == line[k];
  }

  /** Splitting joined lines gives the lines back. */
  lemma {:induction false} SplitJoin(lines: seq<string>)
    requires lines != [] && forall l :: l in lines ==> IsLine(l)
    ensures Split(Join(lines)) == lines
    decreases lines
  {
    var s := Join(lines);
    if |lines| == 1 {
      assert lines[0] in lines;
    } else {
      LineEndIs(lines[0], Join(lines[1..]));
      assert s[..|lines[0]|] == lines[0] && s[|lines[0]| + 1..] == Join(lines[1..]);
      SplitJoin(lines[1..]);
    }
  }

  // ----- Decimal numbers -----

  predicate IsDigit(c: char) {
    '0' <= c <= '9'
  }

  predicate AllDigits(s: string) {
    forall c :: c in s ==> IsDigit(c)
  }

  function Decimal(n: nat): (s: string)
    ensures s != [] && AllDigits(s)
  {
    var last := [('0' as int + n % 10) as char];
    if n < 10 then last else Decimal(n / 10) + last
  }

  function NumberOf(s: string): (n: nat)
    requires AllDigits(s)
  {
    if s == [] then 0
    else
      assert IsDigit(s[|s| - 1]);
      10 * NumberOf(s[..|s| - 1]) + (s[|s| - 1] as int - '0' as int)
  }

  lemma {:induction false} DecimalRoundTrip(n: nat)
    ensures NumberOf(Decimal(n)) == n
  {
    var last := [('0' as int + n % 10) as char];
    if n < 10 {
      assert Decimal(n)[..0] == [];
    } else {
      DecimalRoundTrip(n / 10);
      assert Decimal(n)[..|Decimal(n)| - 1] == Decimal(n / 10);
    }
  }
}
