/**
 * The all-time and daily leaderboards: `endGame`'s push, descending sort and
 * top-ten cut (script.js:233-238), the daily record and its reset
 * (script.js:258-263), and the all-time reset button (script.js:66-67).
 */
module Leaderboard {
  import opened Wrappers

  /** How many entries a leaderboard keeps: `slice(0, 10)`. */
  const MaxEntries: nat := 10

  /** `{ username, score }` */
  datatype Entry = Entry(username: string, score: int)

  /** `{ date, scores }`; a missing or empty `date` means no day has been recorded. */
  datatype DailyRecord = DailyRecord(date: Option<string>, scores: seq<Entry>)

  /** Non-increasing by score, the order `sort((a, b) => b.score - a.score)` produces. */
  predicate SortedDesc(s: seq<Entry>)
  {
    forall i, j :: 0 <= i < j < |s| ==> s[i].score >= s[j].score
  }

  /** How many entries score at least `v`: those a new entry of score `v` cannot pass. */
  function CountAtLeast(s: seq<Entry>, v: int): (n: nat)
    ensures n <= |s|
  {
    if s == [] then 0 else (if s[0].score >= v then 1 else 0) + CountAtLeast(s[1..], v)
  }

  /**
   * Places `x` after every leading entry that scores at least as much: one
   * step of a stable insertion sort.
   */
  function Insert(s: seq<Entry>, x: Entry): (r: seq<Entry>)
    ensures |r| == |s| + 1
    ensures r[0] == x || (s != [] && r[0] == s[0])
    ensures SortedDesc(s) ==> SortedDesc(r)
  {
    if s == [] then [x]
    else if s[0].score >= x.score then [s[0]] + Insert(s[1..], x)
    else [x] + s
  }

  /**
   * `Array.prototype.sort` with the comparator `b.score - a.score`. The sort
   * is stable, so among equal scores the earlier entry stays first; inserting
   * each entry, in order, behind the equal-scored ones already placed gives
   * exactly that order.
   */
  function SortDesc(s: seq<Entry>): (r: seq<Entry>)
    ensures |r| == |s|
    ensures SortedDesc(r)
  {
    if s == [] then [] else Insert(SortDesc(s[..|s| - 1]), s[|s| - 1])
  }

  /** Inserting adds exactly the one entry. */
  lemma {:induction false} InsertPermutation(s: seq<Entry>, x: Entry)
    ensures multiset(Insert(s, x)) == multiset(s) + multiset{x}
  {
    if s != [] && s[0].score >= x.score {
      assert s == [s[0]] + s[1..];
      InsertPermutation(s[1..], x);
    }
  }

  /** Sorting neither loses nor invents an entry. */
  lemma {:induction false} SortPermutation(s: seq<Entry>)
    ensures multiset(SortDesc(s)) == multiset(s)
  {
    if s != [] {
      var init := s[..|s| - 1];
      assert s == init + [s[|s| - 1]];
      SortPermutation(init);
      InsertPermutation(SortDesc(init), s[|s| - 1]);
    }
  }

  /** `slice(0, 10)` */
  function Top(s: seq<Entry>): seq<Entry>
  {
    if |s| <= MaxEntries then s else s[..MaxEntries]
  }

  /** `endGame` on one list: push the entry, sort descending, keep the first ten. */
  function Record(board: seq<Entry>, e: Entry): (r: seq<Entry>)
    ensures SortedDesc(r)
    ensures |r| == if |board| < MaxEntries then |board| + 1 else MaxEntries
  {
    Top(SortDesc(board + [e]))
  }

  /** Every entry on the new board was on the old board or is the new entry. */
  lemma RecordDrawsFromBoard(board: seq<Entry>, e: Entry)
    ensures multiset(Record(board, e)) <= multiset(board) + multiset{e}
  {
    var sorted := SortDesc(board + [e]);
    SortPermutation(board + [e]);
    var k := |Top(sorted)|;
    assert sorted == sorted[..k] + sorted[k..];
  }

  lemma {:induction false} CountAtLeastZero(s: seq<Entry>, v: int)
    requires SortedDesc(s) && s != [] && s[0].score < v
    ensures CountAtLeast(s, v) == 0
  {
    if |s| > 1 {
      CountAtLeastZero(s[1..], v);
    }
  }

  /** How many entries at the head of `s` score at least `v`: how far `Insert` walks. */
  function LeadingAtLeast(s: seq<Entry>, v: int): (n: nat)
    ensures n <= |s|
  {
    if s == [] || s[0].score < v then 0 else 1 + LeadingAtLeast(s[1..], v)
  }

  /** The entry lands right behind the leading entries that score at least as much. */
  lemma {:induction false} InsertAt(s: seq<Entry>, x: Entry)
    ensures var k := LeadingAtLeast(s, x.score);
      Insert(s, x) == s[..k] + [x] + s[k..]
  {
    if s != [] && s[0].score >= x.score {
      var t := s[1..];
      var k := LeadingAtLeast(t, x.score);
      InsertAt(t, x);
      SplitAfterHead(s, k);
      assert Insert(s, x) == [s[0]] + (t[..k] + [x] + t[k..]);
    }
  }

  /** In a sorted board the leading entries that reach `v` are all the entries that do. */
  lemma {:induction false} LeadingIsCount(s: seq<Entry>, v: int)
    requires SortedDesc(s)
    ensures LeadingAtLeast(s, v) == CountAtLeast(s, v)
  {
    if s != [] {
      if s[0].score < v {
        CountAtLeastZero(s, v);
      } else {
        LeadingIsCount(s[1..], v);
      }
    }
  }

  /** In a sorted board the entry lands right behind the entries that score at least as much. */
  lemma InsertPosition(s: seq<Entry>, x: Entry)
    requires SortedDesc(s)
    ensures var k := CountAtLeast(s, x.score);
      Insert(s, x) == s[..k] + [x] + s[k..]
  {
    InsertAt(s, x);
    LeadingIsCount(s, x.score);
  }

  lemma SplitAfterHead(s: seq<Entry>, k: nat)
    requires k < |s|
    ensures s[..k + 1] == [s[0]] + s[1..][..k] && s[k + 1..] == s[1..][k..]
  {
  }

  lemma {:induction false} CountAtLeastAppend(s: seq<Entry>, x: Entry, v: int)
    ensures CountAtLeast(s + [x], v) == CountAtLeast(s, v) + (if x.score >= v then 1 else 0)
  {
    if s != [] {
      assert (s + [x])[1..] == s[1..] + [x];
      CountAtLeastAppend(s[1..], x, v);
    }
  }

  lemma {:induction false} CountAtLeastInsert(s: seq<Entry>, x: Entry, v: int)
    ensures CountAtLeast(Insert(s, x), v) == CountAtLeast(s, v) + (if x.score >= v then 1 else 0)
  {
    if s != [] && s[0].score >= x.score {
      CountAtLeastInsert(s[1..], x, v);
    }
  }

  /** Sorting does not change how many entries reach a given score. */
  lemma {:induction false} CountAtLeastSort(s: seq<Entry>, v: int)
    ensures CountAtLeast(SortDesc(s), v) == CountAtLeast(s, v)
  {
    if s != [] {
      var init := s[..|s| - 1];
      assert s == init + [s[|s| - 1]];
      CountAtLeastSort(init, v);
      CountAtLeastInsert(SortDesc(init), s[|s| - 1], v);
      CountAtLeastAppend(init, s[|s| - 1], v);
    }
  }

  /**
   * The new entry makes the board exactly when fewer than ten stored entries
   * score at least as much (older entries win ties): then it sits right behind
   * them; otherwise the board is the old board's top ten, unchanged.
   */
  lemma RecordPlacesEntry(board: seq<Entry>, e: Entry)
    ensures var k := CountAtLeast(board, e.score);
      (k < MaxEntries ==> k < |Record(board, e)| && Record(board, e)[k] == e) &&
      (k >= MaxEntries ==> Record(board, e) == Top(SortDesc(board)))
  {
    var sorted := SortDesc(board);
    SortAppend(board, e);
    CountAtLeastSort(board, e.score);
    InsertPosition(sorted, e);
    TopOfSplice(sorted, CountAtLeast(board, e.score), e);
  }

  /** Sorting a board with one entry pushed is inserting that entry into the sorted board. */
  lemma SortAppend(board: seq<Entry>, e: Entry)
    ensures SortDesc(board + [e]) == Insert(SortDesc(board), e)
  {
    assert (board + [e])[..|board + [e]| - 1] == board;
  }

  /** Cutting to ten after splicing `e` in at `k` keeps it exactly when `k` is below ten. */
  lemma TopOfSplice(a: seq<Entry>, k: nat, e: Entry)
    requires k <= |a|
    ensures var r := Top(a[..k] + [e] + a[k..]);
      (k < MaxEntries ==> k < |r| && r[k] == e) &&
      (k >= MaxEntries ==> r == Top(a))
  {
    if k >= MaxEntries {
      assert (a[..k] + [e] + a[k..])[..MaxEntries] == a[..MaxEntries];
    }
  }

  /** While a board has room nothing is cut: the new board is the old one plus the new entry, sorted. */
  lemma RecordKeepsAllWhileRoom(board: seq<Entry>, e: Entry)
    requires |board| < MaxEntries
    ensures e in Record(board, e)
    ensures multiset(Record(board, e)) == multiset(board) + multiset{e}
  {
    RecordPlacesEntry(board, e);
    SortPermutation(board + [e]);
  }

  /** `!dailyScores.date || dailyScores.date !== today` */
  predicate NeedsReset(d: DailyRecord, today: string)
  {
    d.date.None? || d.date.value == "" || d.date.value != today
  }

  /** `checkDailyReset`: start an empty list dated `today` unless the record already is today's. */
  function DailyReset(d: DailyRecord, today: string): (r: DailyRecord)
    ensures r.date == Some(today)
    ensures d.date != Some(today) ==> r.scores == []
    ensures d.date == Some("") ==> r.scores == []
    ensures d.date == Some(today) && today != "" ==> r == d
  {
    if NeedsReset(d, today) then DailyRecord(Some(today), []) else d
  }

  /** Checking twice on the same day does nothing the second time. */
  lemma DailyResetIdempotent(d: DailyRecord, today: string)
    ensures DailyReset(DailyReset(d, today), today) == DailyReset(d, today)
  {
  }

  /** A score recorded on one day is gone once the reset runs on another day. */
  lemma DailyResetClearsYesterday(d: DailyRecord, e: Entry, yesterday: string, today: string)
    requires d.date == Some(yesterday) && yesterday != today
    ensures DailyReset(RecordDaily(d, e), today) == DailyRecord(Some(today), [])
  {
  }

  /**
   * The evidently intended daily half of `endGame`: the inner list gets the
   * same push, sort and cut to ten as the all-time list at script.js:233-237.
   */
  function RecordDaily(d: DailyRecord, e: Entry): (r: DailyRecord)
    ensures r.date == d.date
    ensures SortedDesc(r.scores) && |r.scores| <= MaxEntries
  {
    DailyRecord(d.date, Record(d.scores, e))
  }

  /**
   * The daily half of `endGame` as written: the push and the sort of
   * `dailyScores.scores` happen in place, then `dailyScores.slice(0, 10)`
   * throws because `dailyScores` is the wrapper object, not an array, so the
   * cut to ten never happens.
   */
  function DailyAfterThrow(d: DailyRecord, e: Entry): (r: DailyRecord)
    ensures r.date == d.date
    ensures SortedDesc(r.scores) && |r.scores| == |d.scores| + 1
  {
    DailyRecord(d.date, SortDesc(d.scores + [e]))
  }

  /**
   * As written, a game over on a day that already has ten entries leaves
   * eleven: the daily list is never cut, so it grows by one with every game.
   */
  lemma DailyOverflowAsWritten(d: DailyRecord, e: Entry)
    requires |d.scores| >= MaxEntries
    ensures |DailyAfterThrow(d, e).scores| == |d.scores| + 1 > MaxEntries
    ensures DailyAfterThrow(d, e) != RecordDaily(d, e)
  {
  }
}
