/**
 * One player's session (package `game`): the solution, an append-only list of
 * raw attempts with the parallel list of their scores, and the renderings of
 * that history inside an ANSI code fence.
 */
module Game {
  import Scoring

  const DefaultMaxGuesses: int := 6
  const LetterCount: nat := 26
  const FenceOpen: string := "```ansi\n"
  const FenceClose: string := "```"
  const AlreadyGuessedSuffix: string := " has already been guessed in this player's session"

  /** The error result of a guess: nil, or an error carrying its message. */
  datatype Outcome = Pass | Fail(message: string)

  predicate Distinct(s: seq<string>) {
    forall i, j | 0 <= i < j < |s| :: s[i] != s[j]
  }

  /** The history rendered one line per guess, each line ended by a newline. */
  function Lines(gs: seq<Scoring.Guess>, render: Scoring.Guess -> string): (s: string)
    ensures s == "" <==> gs == []
    ensures |s| >= |gs|
  {
    if gs == [] then ""
    else Lines(gs[..|gs| - 1], render) + render(gs[|gs| - 1]) + "\n"
  }

  /** What FormatGuess renders for one guess. */
  function AnsiLine(g: Scoring.Guess): string {
    Scoring.AnsiLetters(g.letters) + Scoring.ResetText
  }

  /** What FormatGuessToEmojis renders for one guess. */
  function EmojiLine(g: Scoring.Guess): string {
    Scoring.Squares(g.letters)
  }

  class WordleSession {
    var solution: string
    var letters: seq<int>
    var messageId: string
    var guesses: seq<Scoring.Guess>
    var attempts: seq<string>
    var maxAllowedGuesses: int

    /**
     * The session invariant: 26 untouched letter slots; one score per attempt,
     * each the score of that attempt against the solution; no attempt twice.
     */
    ghost predicate Valid()
      reads this
    {
      && |letters| == LetterCount
      && (forall k | 0 <= k < |letters| :: letters[k] == 0)
      && |attempts| == |guesses|
      && Distinct(attempts)
      && forall i | 0 <= i < |attempts| ::
           Scoring.Comparable(attempts[i], solution) && guesses[i] == Scoring.Scored(attempts[i], solution)
    }

    /** NewSession; a negative budget would make the slice allocation panic. */
    constructor (solution: string, messageId: string, allowedGuesses: int)
      requires allowedGuesses >= 0
      ensures Valid()
      ensures this.solution == solution && this.messageId == messageId
      ensures maxAllowedGuesses == allowedGuesses
      ensures letters == seq(LetterCount, _ => 0)
      ensures guesses == [] && attempts == []
    {
      this.solution := solution;
      this.letters := seq(LetterCount, _ => 0);
      this.messageId := messageId;
      this.guesses := [];
      this.attempts := [];
      this.maxAllowedGuesses := allowedGuesses;
    }

    /** The attempt budget is not yet used up. */
    function CanPlay(): (r: bool)
      reads this
      ensures r <==> |attempts| < maxAllowedGuesses
    {
      |attempts| < maxAllowedGuesses
    }

    /**
     * Guess: a word already attempted is refused and nothing changes;
     * otherwise the word and its score are appended. The budget is not
     * consulted.
     */
    method Guess(word: string) returns (err: Outcome)
      requires Valid() && Scoring.Comparable(word, solution)
      modifies this`attempts, this`guesses
      ensures Valid()
      ensures err.Fail? <==> word in old(attempts)
      ensures err.Fail? ==> err.message == word + AlreadyGuessedSuffix
      ensures err.Fail? ==> attempts == old(attempts) && guesses == old(guesses)
      ensures err.Pass? ==> attempts == old(attempts) + [word]
      ensures err.Pass? ==> guesses == old(guesses) + [Scoring.Scored(word, solution)]
      ensures solution == old(solution) && letters == old(letters)
      ensures messageId == old(messageId) && maxAllowedGuesses == old(maxAllowedGuesses)
      ensures old(!CanPlay()) ==> !CanPlay()
    {
      for i := 0 to |attempts|
        invariant word !in attempts[..i]
      {
        if attempts[i] == word {
          return Fail(word + AlreadyGuessedSuffix);
        }
      }
      assert attempts[..|attempts|] == attempts;
      attempts := attempts + [word];
      var g := Scoring.ConvertToGuess(word, solution);
      guesses := guesses + [g];
      err := Pass;
    }

    /** FormatGuesses: every guess in coloured letters, inside the fence. */
    method FormatGuesses() returns (s: string)
      ensures s == FenceOpen + Lines(guesses, AnsiLine) + FenceClose
    {
      var gs := guesses;
      var body := "";
      for i := 0 to |gs|
        invariant body == Lines(gs[..i], AnsiLine)
      {
        var line := Scoring.FormatGuess(gs[i]);
        assert gs[..i + 1] == gs[..i] + [gs[i]];
        LinesAppend(gs[..i], gs[i], AnsiLine);
        body := body + line + "\n";
      }
      assert gs[..|gs|] == gs;
      s := FenceOpen + body + FenceClose;
    }

    /** FormatEmojis: every guess in squares, inside the fence. */
    method FormatEmojis() returns (s: string)
      ensures s == FenceOpen + Lines(guesses, EmojiLine) + FenceClose
    {
      var gs := guesses;
      var body := "";
      for i := 0 to |gs|
        invariant body == Lines(gs[..i], EmojiLine)
      {
        var line := Scoring.FormatGuessToEmojis(gs[i]);
        assert gs[..i + 1] == gs[..i] + [gs[i]];
        LinesAppend(gs[..i], gs[i], EmojiLine);
        body := body + line + "\n";
      }
      assert gs[..|gs|] == gs;
      s := FenceOpen + body + FenceClose;
    }

    /** FormatUsedLetters: not implemented by the source, always empty. */
    function FormatUsedLetters(): (s: string)
      ensures s == ""
    {
      ""
    }
  }

  // Properties of the renderings

  /** One line per guess: a history of n guesses of width w renders n * (w + 1) squares and newlines. */
  lemma {:induction false} EmojiLinesLength(gs: seq<Scoring.Guess>, w: nat)
    requires forall i | 0 <= i < |gs| :: |gs[i].letters| == w
    ensures |Lines(gs, EmojiLine)| == |gs| * (w + 1)
  {
    if gs != [] {
      var n := |gs| - 1;
      EmojiLinesLength(gs[..n], w);
      assert |Lines(gs, EmojiLine)| == |Lines(gs[..n], EmojiLine)| + w + 1;
      RowsGrow(n, w + 1);
    }
  }

  lemma RowsGrow(n: nat, width: nat)
    ensures (n + 1) * width == n * width + width
  {
  }

  /** Rendering a history in two parts renders each part in turn. */
  lemma {:induction false} LinesConcat(a: seq<Scoring.Guess>, b: seq<Scoring.Guess>, render: Scoring.Guess -> string)
    ensures Lines(a + b, render) == Lines(a, render) + Lines(b, render)
  {
    if b == [] {
      assert a + b == a;
    } else {
      var n := |b| - 1;
      assert (a + b)[..|a + b| - 1] == a + b[..n];
      LinesConcat(a, b[..n], render);
    }
  }

  /** A successful guess adds exactly its own line at the end of the rendered history. */
  lemma LinesAppend(gs: seq<Scoring.Guess>, g: Scoring.Guess, render: Scoring.Guess -> string)
    ensures Lines(gs + [g], render) == Lines(gs, render) + render(g) + "\n"
  {
    assert (gs + [g])[..|gs|] == gs;
  }

  /** Guess k is rendered as one line, after the lines of the guesses before it. */
  lemma LinesAt(gs: seq<Scoring.Guess>, k: nat, render: Scoring.Guess -> string)
    requires k < |gs|
    ensures Lines(gs, render) == Lines(gs[..k], render) + render(gs[k]) + "\n" + Lines(gs[k + 1..], render)
  {
    SplitAfter(gs, k);
    LinesConcat(gs[..k + 1], gs[k + 1..], render);
    LinesAppend(gs[..k], gs[k], render);
  }

  lemma SplitAfter(gs: seq<Scoring.Guess>, k: nat)
    requires k < |gs|
    ensures gs == gs[..k + 1] + gs[k + 1..]
    ensures gs[..k + 1] == gs[..k] + [gs[k]]
  {
  }

  // The session scenarios of the tests, against the solution "party"

  /** A fresh session can play; so it can after one and after five distinct guesses; the sixth uses up the budget. */
  method BudgetScenario() returns (atStart: bool, afterOne: bool, afterFive: bool, afterSix: bool)
    ensures atStart && afterOne && afterFive && !afterSix
  {
    var ws := new WordleSession("party", "abc123", DefaultMaxGuesses);
    atStart := ws.CanPlay();
    var e := ws.Guess("parts");
    assert ws.attempts == ["parts"];
    afterOne := ws.CanPlay();
    e := ws.Guess("pools");
    assert ws.attempts == ["parts", "pools"];
    e := ws.Guess("patty");
    assert ws.attempts == ["parts", "pools", "patty"];
    e := ws.Guess("means");
    assert ws.attempts == ["parts", "pools", "patty", "means"];
    e := ws.Guess("plant");
    assert ws.attempts == ["parts", "pools", "patty", "means", "plant"];
    afterFive := ws.CanPlay();
    e := ws.Guess("heart");
    afterSix := ws.CanPlay();
  }

  /** Guess itself never consults the budget: a new word past the budget is still recorded. */
  method PastBudgetScenario() returns (before: bool, outcome: Outcome, count: nat)
    ensures !before && outcome == Pass && count == 2
  {
    var ws := new WordleSession("party", "abc123", 1);
    var e := ws.Guess("parts");
    before := ws.CanPlay();
    outcome := ws.Guess("heart");
    count := |ws.attempts|;
  }

  /** The same word twice: the second call fails and the history keeps one entry. */
  method DuplicateScenario() returns (first: Outcome, second: Outcome, attempts: seq<string>, scored: nat)
    ensures first == Pass
    ensures second == Fail("parts" + AlreadyGuessedSuffix)
    ensures attempts == ["parts"] && scored == 1
  {
    var ws := new WordleSession("party", "abc123", DefaultMaxGuesses);
    first := ws.Guess("parts");
    second := ws.Guess("parts");
    attempts := ws.attempts;
    scored := |ws.guesses|;
  }

  lemma PantsAgainstParty()
    ensures Scoring.Scored("pants", "party").letters
            == [Scoring.Letter('p', 2), Scoring.Letter('a', 2), Scoring.Letter('n', 0), Scoring.Letter('t', 2), Scoring.Letter('s', 0)]
  {
    assert "party"[..1] == "p" && "party"[..2] == "pa" && "party"[..3] == "par";
  }

  lemma PartyAgainstParty()
    ensures Scoring.Scored("party", "party").letters
            == [Scoring.Letter('p', 2), Scoring.Letter('a', 2), Scoring.Letter('r', 2), Scoring.Letter('t', 2), Scoring.Letter('y', 2)]
  {
    assert "party"[..1] == "p" && "party"[..2] == "pa" && "party"[..3] == "par" && "party"[..4] == "part";
  }

  /** The square line of "pants" against "party". */
  lemma PantsLine()
    ensures EmojiLine(Scoring.Scored("pants", "party")) == GreenGreenBlackGreenBlack
  {
    PantsAgainstParty();
    var g, b := Scoring.GreenSquare, Scoring.BlackSquare;
    Scoring.FiveSquares(Scoring.Scored("pants", "party").letters, g, g, b, g, b);
  }

  /** The square line of the solution itself. */
  lemma PartyLine()
    ensures EmojiLine(Scoring.Scored("party", "party")) == AllGreen
  {
    PartyAgainstParty();
    var g := Scoring.GreenSquare;
    Scoring.FiveSquares(Scoring.Scored("party", "party").letters, g, g, g, g, g);
  }

  const GreenGreenBlackGreenBlack: string :=
    Scoring.GreenSquare + Scoring.GreenSquare + Scoring.BlackSquare + Scoring.GreenSquare + Scoring.BlackSquare
  const AllGreen: string :=
    Scoring.GreenSquare + Scoring.GreenSquare + Scoring.GreenSquare + Scoring.GreenSquare + Scoring.GreenSquare

  /** "pants" then "party" render as two square lines in the fence, the same on every call. */
  method EmojiScenario() returns (s: string, again: string)
    ensures s == FenceOpen + (GreenGreenBlackGreenBlack + "\n" + AllGreen + "\n") + FenceClose
    ensures again == s
  {
    var ws := new WordleSession("party", "abc123", DefaultMaxGuesses);
    var e := ws.Guess("pants");
    e := ws.Guess("party");
    var g1, g2 := Scoring.Scored("pants", "party"), Scoring.Scored("party", "party");
    assert ws.guesses == [g1, g2];
    s := ws.FormatEmojis();
    again := ws.FormatEmojis();
    TwoLines(g1, g2, EmojiLine);
    PantsLine();
    PartyLine();
    assert Lines(ws.guesses, EmojiLine) == GreenGreenBlackGreenBlack + "\n" + AllGreen + "\n";
  }

  lemma TwoLines(g1: Scoring.Guess, g2: Scoring.Guess, render: Scoring.Guess -> string)
    ensures Lines([g1, g2], render) == render(g1) + "\n" + render(g2) + "\n"
  {
    assert [g1, g2][..1] == [g1] && [g1][..0] == [];
    assert Lines([g1], render) == render(g1) + "\n";
  }
}
