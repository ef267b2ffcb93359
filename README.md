# Wordle-in-Discord rules engine, in Dafny

This project models the rules engine of a Wordle-style game played through a Discord bot. It has three parts, one module per Go package:

- `Scoring` (`scoring.dfy`, package `guess`). The scorer classifies every guessed letter against the solution as 0, 1 or 2. It also has the two renderings of one scored guess: coloured ANSI letters and square glyphs. The constants are modelled code point for code point; ESC is `\U{1B}`.
- `Game` (`game.dfy`, package `game`). `WordleSession` is a class. Its append-only `attempts` and `guesses` sequences are extended by `Guess`. It has the budget test `CanPlay` and the two fenced renderings of the whole history.
- `Words` (`words.dfy`, package `words`). It has the day comparison `oneDaySince`, the `getNewWord` stub, and the word-of-the-day memo as a class with two fields.

The scorer keeps the source's rule exactly. A letter scores 2 when the FIRST occurrence of that letter in the solution is at the letter's own position. It scores 1 when the letter occurs in the solution but its first occurrence is elsewhere, and 0 when the letter does not occur. So, against "hello", the second `l` of "hello" scores 1 (`RepeatedLetterQuirk`). Repeated letters get no special accounting.

The rules engine is smaller than a full Wordle. The code has no solved flag and never updates the per-letter state. It has no puzzle selector, and `CanPlay` checks only the budget.

Time is an integer count of seconds since the Unix epoch, which is a UTC midnight. `DayIndex(t) = t / 86400` is the UTC day. `OneDaySince` is stated as the code computes it: truncate both instants to their UTC day, then test whether they are at least 24 hours apart. Its contract states that this is exactly "the two UTC days differ".

## Model

| member | source | states |
|---|---|---|
| `Scoring.IndexRune` | guess/guess.go:60 | the result is -1 exactly when the letter is absent; otherwise it is the position of the letter's first occurrence |
| `Scoring.Classify` | guess/guess.go:60-68 | 2 iff the letter's first occurrence in the solution is at this position; 1 iff it occurs but first elsewhere; 0 iff it does not occur |
| `Scoring.Scored` | guess/guess.go:57-77 | the value `ConvertToGuess` builds, with one scored letter per position of the solution; what each letter means is stated by `ScoredMeaning` |
| `Scoring.ScoredMeaning` | guess/guess.go:57-77 | one letter per solution position; letter i carries `word[i]`; every correctness is in {0,1,2}; each value holds under exactly the first-occurrence condition of `Classify` |
| `Scoring.ConvertToGuess` | guess/guess.go:57-77 | the loop that fills the buffer of the solution's length produces exactly `Scored(word, solution)` |
| `Scoring.ColoredText` | guess/guess.go:27-37 | 12 characters: the green prefix iff correctness is 2, yellow iff 1, default for every other int, then the letter |
| `Scoring.Emoji` | guess/guess.go:41-52 | one glyph: green square iff 2, yellow iff 1, black for 0 and every other int |
| `Scoring.AnsiLetters` | guess/guess.go:85-92 | the concatenated coloured letters take 12 characters per letter |
| `Scoring.AnsiLettersAt` | guess/guess.go:85-92 | letter k's coloured text is found at characters 12k to 12k+12, in order |
| `Scoring.Squares` | guess/guess.go:98-104 | one square per letter |
| `Scoring.SquaresAt` | guess/guess.go:98-104 | character k of the squares is the square of letter k |
| `Scoring.FormatGuess` | guess/guess.go:85-92 | the builder loop yields the coloured letters in order, followed by one reset sequence |
| `Scoring.FormatGuessToEmojis` | guess/guess.go:98-104 | the builder loop yields the squares in order, with no suffix |
| `Scoring.ScoreOwnWord` | guess/guess.go:57-77 | a solution with no repeated letter scores itself as all 2s |
| `Scoring.ScoreDisjoint` | guess/guess.go:64-68 | a guess sharing no letter with the solution scores all 0s |
| `Scoring.ScorePositionwise` | guess/guess.go:59-72 | position i is scored from `word[i]`, i and the solution alone, independent of the other letters |
| `Scoring.RepeatedLetterQuirk` | guess/guess.go:60-64 | with the first-occurrence rule, "hello" against "hello" scores [2,2,2,1,2] |
| `Scoring.LetterRenderExamples` | guess/guess_test.go:111-143 | colours and squares for 2, 1, 0 and two out-of-range values |
| `Scoring.ScoreExamplePerfect` | guess/guess_test.go:21-48 | "parts" against "parts" is all 2s |
| `Scoring.ScoreExampleSnail` | guess/guess_test.go:51-77 | "snail" against "parts" is [1,0,1,0,0] |
| `Scoring.ScoreExamplePants` | guess/guess_test.go:80-106 | "pants" against "parts" is [2,2,0,2,2] |
| `Scoring.EmojiExample` | guess/guess_test.go:154-161 | the squares of "snail" against "parts" are yellow, black, yellow, black, black |
| `Scoring.AnsiExample` | guess/guess_test.go:163-170 | the coloured text of "pants" against "parts" is the row's expected letters followed by the reset sequence written at guess.go:90; the test's own expectation omits that reset (see Findings) |
| `Scoring.FormatPantsRow` | guess/guess_test.go:106 | formatting the "pants" row's guess yields its expected text plus the reset sequence, which differs from the expected text the test compares against |
| `Game.WordleSession.constructor` | game/game.go:28-38 | solution, message id and budget stored as given; 26 zero letter slots; no attempts and no guesses |
| `Game.WordleSession.CanPlay` | game/game.go:75-77 | true iff fewer attempts than the budget |
| `Game.WordleSession.Guess` | game/game.go:82-91 | fails iff the word was attempted before, with the source's message, and then changes nothing; otherwise appends the word and its score; keeps the session invariant (one score per attempt, each the score of its attempt, no repeats); never touches solution, letters, message id or budget; never consults the budget |
| `Game.WordleSession.FormatGuesses` | game/game.go:44-52 | the fence opening, one coloured line plus newline per guess in order, then the fence close |
| `Game.WordleSession.FormatEmojis` | game/game.go:57-65 | the fence opening, one square line plus newline per guess in order, then the fence close |
| `Game.WordleSession.FormatUsedLetters` | game/game.go:69-71 | always the empty string |
| `Game.Lines` | game/game.go:47-49 | the rendered history is empty iff there are no guesses, and has at least one character (its newline) per guess; with `LinesAt` it fixes each guess's line |
| `Game.LinesConcat` | game/game.go:47-49 | rendering a history in two parts renders each part in turn |
| `Game.LinesAppend` | game/game.go:47-49 | the rendering of a history extended by one guess is the old rendering followed by that guess's line and a newline |
| `Game.LinesAt` | game/game.go:60-62 | guess k is one line, after the lines of the earlier guesses and before those of the later ones |
| `Game.EmojiLinesLength` | game/game.go:57-65 | n guesses of w letters render as n(w+1) squares and newlines |
| `Game.BudgetScenario` | game/game_test.go:35-48 | with budget 6, play is possible at the start, after one and after five distinct guesses, but not after the sixth |
| `Game.PastBudgetScenario` | game/game.go:82-91 | with budget 1 and one guess made, play is no longer possible, yet a new word is still accepted and recorded |
| `Game.DuplicateScenario` | game/game_test.go:50-57 | repeating "parts" fails with the source's message and leaves one attempt and one score |
| `Game.PantsLine` | game/game_test.go:59-71 | "pants" against "party" gives the squares green, green, black, green, black |
| `Game.PartyLine` | game/game_test.go:59-71 | "party" against itself gives five green squares |
| `Game.EmojiScenario` | game/game_test.go:59-71 | after "pants" and "party", the emoji rendering is the fenced two-line GGBGB / GGGGG block, the same on a second call |
| `Words.TruncateToDay` | words/words.go:45-46 | the result is the multiple of a day that starts the UTC day containing the instant |
| `Words.OneDaySince` | words/words.go:44-49 | computed as the source does (truncate both instants to their UTC days, compare the distance with 24 hours), it holds iff the two instants fall on different UTC days |
| `Words.OneDaySinceSymmetric` | words/words.go:48 | the comparison does not depend on argument order |
| `Words.ExactlyOneDayApart` | words/words.go:44-49 | instants exactly 24 hours apart are a day apart, in both orders |
| `Words.TimeZoneExamples` | words/words_test.go:17-50 | the test table in both orders: 61 s apart on one day is false; 18:00 at UTC-8 against 01:00 UTC is true; 05:00 at UTC-8 against 05:00 UTC is false |
| `Words.GetNewWord` | words/words.go:37-39 | "hello" for every instant |
| `Words.WordMemo.constructor` | words/words.go:12-15 | the zero state: nothing acquired, empty word |
| `Words.WordMemo.WordOfTheDay` | words/words.go:23-34 | with nothing acquired, or an acquisition a day back, records the instant and the new word; on the same UTC day changes nothing; afterwards an instant is recorded and the result is the stored word |
| `Words.SameDayScenario` | words/words.go:19-33 | two callers on one UTC day get the same word, and the first call's instant stays recorded |
| `Words.NextDayScenario` | words/words.go:27-30 | a call on the next UTC day recomputes the word and records the new instant |

## Left out

- wordle.go: bot setup, `.env` loading, command registration and signal handling are all I/O.
- game/command.go: the Discord handlers and the global `sessions` map. The handlers call words-package functions and session methods that do not exist in the modelled files, so they are not reconstructed.
- The `sync.Mutex` around the memo is left out because it serves only concurrency; the memo is a single-threaded object. The `fmt.Printf` of the chosen word is output and is dropped.
- Words.OneDaySince: `oneDaySince` compares floating-point hours with `math.Abs`. Here it compares integer seconds exactly. Day-aligned differences are exact in both, and the saturation of `time.Duration` beyond about 292 years is not modelled.
- Time zones, `time.Local` and nanoseconds are not modelled, because every instant is an integer count of UTC seconds. `ToUtc` converts fixed-offset wall-clock readings, and only the test table uses it.
- Scoring.ConvertToGuess: assumes the source's callers pass a guess as long as the solution and both words in ASCII. The source iterates over byte offsets and fills a buffer of the solution's length, so non-ASCII input would give byte offsets that differ from character positions. A length mismatch would panic or leave nil entries. Neither case is modelled.
- Scoring.Scored, Scoring.ScoredMeaning: have the same precondition as `ConvertToGuess`, for the same reason.
- Game.WordleSession.constructor: requires a non-negative budget, because creating the guess slice with a negative capacity panics in the source.
- The `Guesses` field is declared as a slice of slices of guess pointers but is used as a list of guesses. It is modelled as `seq<Guess>`, and its values have no pointer aliasing.
- The 26-entry `Letters` array is only ever zero-initialised. The model keeps it as 26 zeros, and the session invariant states that no operation changes it.

## Findings

| source | as written | input that shows it | evidently intended | confidence | as-written member | corrected member |
|---|---|---|---|---|---|---|
| guess/guess_test.go:48, 77, 106 | the expected coloured text of each row ends with its last letter | "pants" against "parts": `FormatGuess` writes the reset sequence after the letters (guess/guess.go:90), so its output is four characters longer than the expectation | each expected string ends with the reset sequence that `FormatGuess` appends | not executed | `Scoring.FormatPantsRow` | `Scoring.AnsiExample` |
