/**
 * The scorer and its two renderings (package `guess`).
 *
 * A guessed letter is classified against the solution by looking up the FIRST
 * occurrence of the letter in the solution: 2 when that occurrence is at the
 * letter's own position, 1 when it is elsewhere, 0 when there is none. There
 * is no accounting for repeated letters.
 */
module Scoring {

  // The display constants, code point for code point (ESC is U+001B).
  const GreenSquare: string := "\U{1F7E9}"
  const YellowSquare: string := "\U{1F7E8}"
  const BlackSquare: string := "\U{2B1B}"
  const GreenText: string := "\U{1B}[0m\U{1B}[1;32m"
  const YellowText: string := "\U{1B}[0m\U{1B}[1:33m"
  const DefaultText: string := "\U{1B}[0m\U{1B}[1;37m"
  const ResetText: string := "\U{1B}[0m"

  /** Length of every colour prefix, and of one rendered letter. */
  const ColourWidth: nat := 11
  const LetterWidth: nat := ColourWidth + 1

  datatype Letter = Letter(ch: char, correctness: int)

  datatype Guess = Guess(letters: seq<Letter>)

  predicate IsAscii(s: string) {
    forall i | 0 <= i < |s| :: s[i] < '\U{80}'
  }

  /**
   * What the scorer expects of its inputs: a guess as long as the solution,
   * both ASCII, so that the byte offsets the source iterates over are the
   * character positions used here.
   */
  predicate Comparable(word: string, solution: string) {
    |word| == |solution| && IsAscii(word) && IsAscii(solution)
  }

  /** `i` is the position of the first occurrence of `c` in `s`. */
  predicate FirstAt(s: string, c: char, i: int) {
    0 <= i < |s| && s[i] == c && c !in s[..i]
  }

  lemma FirstAtUnique(s: string, c: char, i: int, j: int)
    ensures FirstAt(s, c, i) && FirstAt(s, c, j) ==> i == j
  {
  }

  /** The index of the first occurrence of `c` in `s`, or -1 (strings.IndexRune). */
  function IndexRune(s: string, c: char): (idx: int)
    ensures -1 <= idx < |s|
    ensures idx == -1 <==> c !in s
    ensures idx >= 0 ==> FirstAt(s, c, idx)
    decreases |s|
  {
    if |s| == 0 then -1
    else if s[0] == c then 0
    else
      var k := IndexRune(s[1..], c);
      assert s == [s[0]] + s[1..];
      if k == -1 then -1
      else
        assert s[..k + 1] == [s[0]] + s[1..][..k];
        k + 1
  }

  /** The correctness of letter `c` guessed at position `i`. */
  function Classify(c: char, i: nat, solution: string): (r: int)
    ensures r == 2 <==> FirstAt(solution, c, i)
    ensures r == 1 <==> c in solution && !FirstAt(solution, c, i)
    ensures r == 0 <==> c !in solution
  {
    var idx := IndexRune(solution, c);
    FirstAtUnique(solution, c, i, idx);
    if i == idx then 2 else if idx >= 0 then 1 else 0
  }

  /** The scored guess: one letter per position, each classified on its own. */
  function Scored(word: string, solution: string): (g: Guess)
    requires Comparable(word, solution)
    ensures |g.letters| == |solution|
  {
    Guess(seq(|word|, i requires 0 <= i < |word| => Letter(word[i], Classify(word[i], i, solution))))
  }

  /** What the scored guess means, position by position. */
  lemma ScoredMeaning(word: string, solution: string)
    requires Comparable(word, solution)
    ensures |Scored(word, solution).letters| == |solution|
    ensures forall i | 0 <= i < |word| :: Scored(word, solution).letters[i].ch == word[i]
    ensures forall i | 0 <= i < |word| :: Scored(word, solution).letters[i].correctness in {0, 1, 2}
    ensures forall i | 0 <= i < |word| ::
              Scored(word, solution).letters[i].correctness == 2 <==> FirstAt(solution, word[i], i)
    ensures forall i | 0 <= i < |word| ::
              Scored(word, solution).letters[i].correctness == 1 <==> word[i] in solution && !FirstAt(solution, word[i], i)
    ensures forall i | 0 <= i < |word| ::
              Scored(word, solution).letters[i].correctness == 0 <==> word[i] !in solution
  {
  }

  /** Fills a letter buffer of the solution's length, position by position. */
  method ConvertToGuess(word: string, solution: string) returns (g: Guess)
    requires Comparable(word, solution)
    ensures g == Scored(word, solution)
  {
    var letters := new Letter[|solution|];
    for i := 0 to |word|
      invariant forall k | 0 <= k < i :: letters[k] == Scored(word, solution).letters[k]
    {
      var c := word[i];
      var idx := IndexRune(solution, c);
      var correctness;
      if i == idx {
        correctness := 2;
      } else if idx >= 0 {
        correctness := 1;
      } else {
        correctness := 0;
      }
      letters[i] := Letter(c, correctness);
    }
    g := Guess(letters[..]);
  }

  /** The colour prefix followed by the letter itself. */
  function ColoredText(l: Letter): (s: string)
    ensures |s| == LetterWidth && s[ColourWidth] == l.ch
    ensures s[..ColourWidth] == GreenText <==> l.correctness == 2
    ensures s[..ColourWidth] == YellowText <==> l.correctness == 1
    ensures s[..ColourWidth] == DefaultText <==> l.correctness != 1 && l.correctness != 2
  {
    var col :=
      if l.correctness == 2 then GreenText
      else if l.correctness == 1 then YellowText
      else DefaultText;
    col + [l.ch]
  }

  /** The square glyph of a letter. */
  function Emoji(l: Letter): (s: string)
    ensures |s| == 1
    ensures s == GreenSquare <==> l.correctness == 2
    ensures s == YellowSquare <==> l.correctness == 1
    ensures s == BlackSquare <==> l.correctness != 1 && l.correctness != 2
  {
    match l.correctness
    case 0 => BlackSquare
    case 1 => YellowSquare
    case 2 => GreenSquare
    case _ => BlackSquare
  }

  /** The coloured letters concatenated in order. */
  function AnsiLetters(ls: seq<Letter>): (s: string)
    ensures |s| == LetterWidth * |ls|
  {
    if ls == [] then ""
    else AnsiLetters(ls[..|ls| - 1]) + ColoredText(ls[|ls| - 1])
  }

  /** The squares concatenated in order. */
  function Squares(ls: seq<Letter>): (s: string)
    ensures |s| == |ls|
  {
    if ls == [] then ""
    else Squares(ls[..|ls| - 1]) + Emoji(ls[|ls| - 1])
  }

  /** Letter `k` occupies its own fixed-width block of the coloured text. */
  lemma {:induction false} AnsiLettersAt(ls: seq<Letter>, k: nat)
    requires k < |ls|
    ensures AnsiLetters(ls)[LetterWidth * k .. LetterWidth * k + LetterWidth] == ColoredText(ls[k])
  {
    var n := |ls| - 1;
    var front, last := AnsiLetters(ls[..n]), ColoredText(ls[n]);
    assert AnsiLetters(ls) == front + last;
    var lo := LetterWidth * k;
    if k < n {
      AnsiLettersAt(ls[..n], k);
      assert ls[..n][k] == ls[k];
      BlockEndsInside(k, n);
      SliceOfPrefix(front, last, lo, lo + LetterWidth);
    } else {
      SliceOfSuffix(front, last);
    }
  }

  /** Block k of the coloured text ends within the first n blocks when k < n. */
  lemma BlockEndsInside(k: nat, n: nat)
    requires k < n
    ensures LetterWidth * k + LetterWidth <= LetterWidth * n
  {
  }

  lemma SliceOfSuffix(a: string, b: string)
    ensures (a + b)[|a|..|a| + |b|] == b
  {
  }

  lemma SliceOfPrefix(a: string, b: string, lo: nat, hi: nat)
    requires lo <= hi <= |a|
    ensures (a + b)[lo..hi] == a[lo..hi]
  {
  }

  /** Character `k` of the squares is the square of letter `k`. */
  lemma {:induction false} SquaresAt(ls: seq<Letter>, k: nat)
    requires k < |ls|
    ensures Squares(ls)[k] == Emoji(ls[k])[0]
  {
    var n := |ls| - 1;
    if k < n {
      SquaresAt(ls[..n], k);
    }
  }

  /** FormatGuess: every coloured letter, then one reset sequence. */
  method FormatGuess(g: Guess) returns (s: string)
    ensures s == AnsiLetters(g.letters) + ResetText
  {
    var b := "";
    for i := 0 to |g.letters|
      invariant b == AnsiLetters(g.letters[..i])
    {
      assert g.letters[..i + 1][..i] == g.letters[..i];
      b := b + ColoredText(g.letters[i]);
    }
    assert g.letters[..|g.letters|] == g.letters;
    b := b + ResetText;
    s := b;
  }

  /** FormatGuessToEmojis: one square per letter, no suffix. */
  method FormatGuessToEmojis(g: Guess) returns (s: string)
    ensures s == Squares(g.letters)
  {
    var b := "";
    for i := 0 to |g.letters|
      invariant b == Squares(g.letters[..i])
    {
      assert g.letters[..i + 1][..i] == g.letters[..i];
      b := b + Emoji(g.letters[i]);
    }
    assert g.letters[..|g.letters|] == g.letters;
    s := b;
  }

  // Properties of the scorer

  /** A solution without repeated letters scores itself as all 2s. */
  lemma ScoreOwnWord(s: string)
    requires IsAscii(s)
    requires forall i, j | 0 <= i < j < |s| :: s[i] != s[j]
    ensures forall i | 0 <= i < |s| :: Scored(s, s).letters[i].correctness == 2
  {
    forall i | 0 <= i < |s|
      ensures FirstAt(s, s[i], i)
    {
      assert forall j | 0 <= j < i :: s[..i][j] == s[j];
    }
  }

  /** A guess sharing no letter with the solution scores all 0s. */
  lemma ScoreDisjoint(word: string, solution: string)
    requires Comparable(word, solution)
    requires forall i | 0 <= i < |word| :: word[i] !in solution
    ensures forall i | 0 <= i < |word| :: Scored(word, solution).letters[i].correctness == 0
  {
  }

  /** Position `i` is scored from `word[i]`, `i` and the solution alone. */
  lemma ScorePositionwise(w1: string, w2: string, solution: string, i: nat)
    requires Comparable(w1, solution) && Comparable(w2, solution)
    requires i < |solution| && w1[i] == w2[i]
    ensures Scored(w1, solution).letters[i] == Scored(w2, solution).letters[i]
  {
  }

  /** The colour and the square of a letter, including correctness values outside 0..2. */
  lemma LetterRenderExamples()
    ensures ColoredText(Letter('b', 2)) == GreenText + "b"
    ensures ColoredText(Letter('b', 1)) == YellowText + "b"
    ensures ColoredText(Letter('b', 0)) == DefaultText + "b"
    ensures ColoredText(Letter('b', -10032431)) == DefaultText + "b"
    ensures Emoji(Letter('b', 2)) == GreenSquare && Emoji(Letter('b', 1)) == YellowSquare
    ensures Emoji(Letter('b', 0)) == BlackSquare && Emoji(Letter('b', 57381234)) == BlackSquare
  {
  }

  /** The scoring table of the tests, against the solution "parts". */
  lemma ScoreExamplePerfect()
    ensures Scored("parts", "parts") == Guess([Letter('p', 2), Letter('a', 2), Letter('r', 2), Letter('t', 2), Letter('s', 2)])
  {
    var g := Scored("parts", "parts");
    assert "parts"[..1] == "p" && "parts"[..2] == "pa" && "parts"[..3] == "par" && "parts"[..4] == "part";
    assert g.letters == [Letter('p', 2), Letter('a', 2), Letter('r', 2), Letter('t', 2), Letter('s', 2)];
  }

  lemma ScoreExampleSnail()
    ensures Scored("snail", "parts") == Guess([Letter('s', 1), Letter('n', 0), Letter('a', 1), Letter('i', 0), Letter('l', 0)])
  {
    var g := Scored("snail", "parts");
    assert "parts"[..2] == "pa";
    assert g.letters == [Letter('s', 1), Letter('n', 0), Letter('a', 1), Letter('i', 0), Letter('l', 0)];
  }

  lemma ScoreExamplePants()
    ensures Scored("pants", "parts") == Guess([Letter('p', 2), Letter('a', 2), Letter('n', 0), Letter('t', 2), Letter('s', 2)])
  {
    var g := Scored("pants", "parts");
    assert "parts"[..1] == "p" && "parts"[..2] == "pa" && "parts"[..3] == "par" && "parts"[..4] == "part";
    assert g.letters == [Letter('p', 2), Letter('a', 2), Letter('n', 0), Letter('t', 2), Letter('s', 2)];
  }

  /** The first-occurrence rule: the second `l` of "hello" scores 1 against "hello". */
  lemma RepeatedLetterQuirk()
    ensures Scored("hello", "hello") == Guess([Letter('h', 2), Letter('e', 2), Letter('l', 2), Letter('l', 1), Letter('o', 2)])
  {
    var g := Scored("hello", "hello");
    assert "hello"[..1] == "h" && "hello"[..2] == "he" && "hello"[..3] == "hel" && "hello"[..4] == "hell";
    assert !FirstAt("hello", 'l', 3) by { assert "hel"[2] == 'l'; }
    assert g.letters == [Letter('h', 2), Letter('e', 2), Letter('l', 2), Letter('l', 1), Letter('o', 2)];
  }

  /** The squares of a row of the test table. */
  lemma EmojiExample()
    ensures Squares(Scored("snail", "parts").letters)
            == YellowSquare + BlackSquare + YellowSquare + BlackSquare + BlackSquare
  {
    ScoreExampleSnail();
    var y, b := YellowSquare, BlackSquare;
    FiveSquares(Scored("snail", "parts").letters, y, b, y, b, b);
  }

  /** The squares of a five-letter guess, letter by letter. */
  lemma FiveSquares(ls: seq<Letter>, s0: string, s1: string, s2: string, s3: string, s4: string)
    requires |ls| == 5
    requires Emoji(ls[0]) == s0 && Emoji(ls[1]) == s1 && Emoji(ls[2]) == s2
    requires Emoji(ls[3]) == s3 && Emoji(ls[4]) == s4
    ensures Squares(ls) == s0 + s1 + s2 + s3 + s4
  {
    assert ls[..0] == [] && ls[..5] == ls;
    SquaresStep(ls, 0, "");
    SquaresStep(ls, 1, s0);
    SquaresStep(ls, 2, s0 + s1);
    SquaresStep(ls, 3, s0 + s1 + s2);
    SquaresStep(ls, 4, s0 + s1 + s2 + s3);
  }

  /** The coloured text of a row of the test table, with its reset. */
  lemma AnsiExample()
    ensures AnsiLetters(Scored("pants", "parts").letters) + ResetText == PantsRowAnsi + ResetText
  {
    ScoreExamplePants();
    PantsAnsi(Scored("pants", "parts").letters);
  }

  /** The coloured text the "pants" row of the test table expects: the five letters, with no reset after them. */
  const PantsRowAnsi: string :=
    (GreenText + "p") + (GreenText + "a") + (DefaultText + "n") + (GreenText + "t") + (GreenText + "s")

  /**
   * Formatting the "pants" row's guess as the coloured-text test does: the
   * output is the row's expected text followed by the reset sequence, so it
   * is not equal to that expected text.
   */
  method FormatPantsRow() returns (s: string)
    ensures s == PantsRowAnsi + ResetText
    ensures s != PantsRowAnsi
  {
    var g := Guess([Letter('p', 2), Letter('a', 2), Letter('n', 0), Letter('t', 2), Letter('s', 2)]);
    PantsAnsi(g.letters);
    s := FormatGuess(g);
    assert |s| == |PantsRowAnsi| + |ResetText|;
  }

  lemma PantsAnsi(ls: seq<Letter>)
    requires |ls| == 5 && ls[0] == Letter('p', 2) && ls[1] == Letter('a', 2) && ls[2] == Letter('n', 0)
    requires ls[3] == Letter('t', 2) && ls[4] == Letter('s', 2)
    ensures AnsiLetters(ls)
            == (GreenText + "p") + (GreenText + "a") + (DefaultText + "n") + (GreenText + "t") + (GreenText + "s")
  {
    var p, a, n, t, s := GreenText + "p", GreenText + "a", DefaultText + "n", GreenText + "t", GreenText + "s";
    assert ls[..0] == [] && ls[..5] == ls;
    AnsiStep(ls, 0, "", p);
    AnsiStep(ls, 1, p, a);
    AnsiStep(ls, 2, p + a, n);
    AnsiStep(ls, 3, p + a + n, t);
    AnsiStep(ls, 4, p + a + n + t, s);
  }

  lemma SquaresStep(ls: seq<Letter>, n: nat, front: string)
    requires n < |ls| && Squares(ls[..n]) == front
    ensures Squares(ls[..n + 1]) == front + Emoji(ls[n])
  {
    assert ls[..n + 1][..n] == ls[..n];
  }

  lemma AnsiStep(ls: seq<Letter>, n: nat, front: string, piece: string)
    requires n < |ls| && AnsiLetters(ls[..n]) == front
    requires piece == ColoredText(ls[n])
    ensures AnsiLetters(ls[..n + 1]) == front + piece
  {
    assert ls[..n + 1][..n] == ls[..n];
  }
}
