/**
 * The word-of-the-day memo (package `words`).
 *
 * An instant is an integer count of seconds since the Unix epoch, which is a
 * UTC midnight; so is Go's zero time, so truncating to a multiple of a day
 * here lands on the same UTC day boundary as `Truncate(24h)` does there.
 */
module Words {

  datatype Option<T> = None | Some(value: T)

  const SecondsPerHour: int := 3600
  const HoursInADay: int := 24
  const SecondsPerDay: int := HoursInADay * SecondsPerHour

  /** The UTC instant of a wall-clock reading taken in a zone `offset` seconds east of UTC. */
  function ToUtc(wallClock: int, offset: int): int {
    wallClock - offset
  }

  /** Index of the UTC day an instant falls in (floor division). */
  function DayIndex(t: int): int {
    t / SecondsPerDay
  }

  /** The start of the UTC day of `t`. */
  function TruncateToDay(t: int): (r: int)
    ensures r % SecondsPerDay == 0
    ensures r <= t < r + SecondsPerDay
  {
    t - t % SecondsPerDay
  }

  function Abs(x: int): (r: nat)
    ensures r == x || r == -x
  {
    if x < 0 then -x else x
  }

  /** The starts of the UTC days of two instants lie a day or more apart exactly when the days differ. */
  lemma DayStartsApart(a: int, b: int)
    ensures Abs(TruncateToDay(a) - TruncateToDay(b)) >= HoursInADay * SecondsPerHour <==> DayIndex(a) != DayIndex(b)
  {
    var da, db := DayIndex(a), DayIndex(b);
    TruncateIsDayStart(a);
    TruncateIsDayStart(b);
    var diff := TruncateToDay(a) - TruncateToDay(b);
    assert diff == (da - db) * SecondsPerDay;
    if da == db {
      assert diff == 0;
    } else if da > db {
      assert diff >= SecondsPerDay by {
        assert (da - db) * SecondsPerDay >= 1 * SecondsPerDay;
      }
    } else {
      assert -diff >= SecondsPerDay by {
        assert (db - da) * SecondsPerDay >= 1 * SecondsPerDay;
      }
    }
  }

  /**
   * oneDaySince: the two instants, truncated to their UTC days, lie at least
   * 24 hours apart; that is, they fall on different UTC days.
   */
  function OneDaySince(currentTime: int, pastTime: int): (r: bool)
    ensures r <==> DayIndex(currentTime) != DayIndex(pastTime)
  {
    DayStartsApart(currentTime, pastTime);
    Abs(TruncateToDay(currentTime) - TruncateToDay(pastTime)) >= HoursInADay * SecondsPerHour
  }

  /** getNewWord: a stub that does not look at the instant. */
  function GetNewWord(t: int): (w: string)
    ensures w == "hello"
  {
    "hello"
  }

  lemma TruncateIsDayStart(t: int)
    ensures TruncateToDay(t) == DayIndex(t) * SecondsPerDay
  {
  }

  lemma OneDaySinceSymmetric(a: int, b: int)
    ensures OneDaySince(a, b) == OneDaySince(b, a)
  {
  }

  /** Instants exactly 24 hours apart are a day apart, in either order. */
  lemma ExactlyOneDayApart(t: int)
    ensures OneDaySince(t + SecondsPerDay, t) && OneDaySince(t, t + SecondsPerDay)
  {
    assert DayIndex(t + SecondsPerDay) == DayIndex(t) + 1;
  }

  /** The instants of the tests, on 9 February 2022 (UTC midnight 1644364800). */
  const Feb9: int := 1644364800

  lemma TimeZoneExamples()
    // 01:02:03 and 01:01:02 on the same UTC day
    ensures !OneDaySince(Feb9 + 3723, Feb9 + 3662) && !OneDaySince(Feb9 + 3662, Feb9 + 3723)
    // 18:00 at UTC-8 is already 10 February in UTC; 01:00 UTC is still 9 February
    ensures OneDaySince(ToUtc(Feb9 + 18 * SecondsPerHour, -8 * SecondsPerHour), Feb9 + 1 * SecondsPerHour)
    ensures OneDaySince(Feb9 + 1 * SecondsPerHour, ToUtc(Feb9 + 18 * SecondsPerHour, -8 * SecondsPerHour))
    // 05:00 at UTC-8 is 13:00 UTC, the same UTC day as 05:00 UTC
    ensures !OneDaySince(ToUtc(Feb9 + 5 * SecondsPerHour, -8 * SecondsPerHour), Feb9 + 5 * SecondsPerHour)
    ensures !OneDaySince(Feb9 + 5 * SecondsPerHour, ToUtc(Feb9 + 5 * SecondsPerHour, -8 * SecondsPerHour))
  {
    var day := Feb9 / SecondsPerDay;
    assert DayIndex(Feb9 + 3723) == DayIndex(Feb9 + 3662) == day;
    assert DayIndex(Feb9 + 1 * SecondsPerHour) == DayIndex(Feb9 + 5 * SecondsPerHour) == day;
    assert DayIndex(ToUtc(Feb9 + 5 * SecondsPerHour, -8 * SecondsPerHour)) == day;
    assert DayIndex(ToUtc(Feb9 + 18 * SecondsPerHour, -8 * SecondsPerHour)) == day + 1;
  }

  /**
   * The process-wide memo: when the word was acquired (none before the first
   * call) and the current word.
   */
  class WordMemo {
    var wordAcquired: Option<int>
    var currentWord: string

    /** Once acquired, the stored word is the one chosen for the acquisition instant. */
    ghost predicate Valid()
      reads this
    {
      wordAcquired.Some? ==> currentWord == GetNewWord(wordAcquired.value)
    }

    /** The package's zero state: nothing acquired, empty word. */
    constructor ()
      ensures Valid()
      ensures wordAcquired == None && currentWord == ""
    {
      wordAcquired := None;
      currentWord := "";
    }

    /**
     * WordOfTheDay: recompute and record the instant when nothing was
     * acquired yet or the acquisition lies a day back; otherwise keep both.
     */
    method WordOfTheDay(currentTime: int) returns (w: string)
      requires Valid()
      modifies this
      ensures Valid()
      ensures old(wordAcquired).None? || OneDaySince(currentTime, old(wordAcquired).value) ==>
                wordAcquired == Some(currentTime) && currentWord == GetNewWord(currentTime)
      ensures old(wordAcquired).Some? && DayIndex(old(wordAcquired).value) == DayIndex(currentTime) ==>
                wordAcquired == old(wordAcquired) && currentWord == old(currentWord)
      ensures wordAcquired.Some? && w == currentWord
    {
      if wordAcquired.None? || OneDaySince(currentTime, wordAcquired.value) {
        currentWord := GetNewWord(currentTime);
        wordAcquired := Some(currentTime);
      }
      w := currentWord;
    }
  }

  /**
   * Two callers on the same UTC day see the same word, and the second call
   * keeps the acquisition instant of the first.
   */
  method SameDayScenario(t1: int, t2: int) returns (w1: string, w2: string, acquired: Option<int>)
    requires DayIndex(t1) == DayIndex(t2)
    ensures w1 == w2 == "hello"
    ensures acquired == Some(t1)
  {
    var memo := new WordMemo();
    w1 := memo.WordOfTheDay(t1);
    w2 := memo.WordOfTheDay(t2);
    acquired := memo.wordAcquired;
  }

  /** A call on the next UTC day recomputes the word and records the new instant. */
  method NextDayScenario(t: int) returns (acquired: Option<int>)
    ensures acquired == Some(t + SecondsPerDay)
  {
    var memo := new WordMemo();
    var w := memo.WordOfTheDay(t);
    ExactlyOneDayApart(t);
    w := memo.WordOfTheDay(t + SecondsPerDay);
    acquired := memo.wordAcquired;
  }
}
