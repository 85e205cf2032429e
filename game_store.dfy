/**
 * The game store: the player's score and the betting history, a newest-first
 * log that keeps at most the 50 most recent records. The clock reading that
 * stamps a record is a parameter.
 */
module GameStore {
  import opened Wrappers

  /** One logged round. */
  datatype BetRecord = BetRecord(
    timestamp: int,
    bets: map<string, int>,
    totalBet: int,
    result: Option<string>,
    winAmount: int,
    isWin: bool)

  /** What a caller hands to `addHistory`: a record without its timestamp. */
  datatype RoundRecord = RoundRecord(
    bets: map<string, int>,
    totalBet: int,
    result: Option<string>,
    winAmount: int,
    isWin: bool)

  /** The number of records the history keeps. */
  const HistoryLimit: nat := 50

  const InitialScore: int := 100

  function Min(a: int, b: int): int {
    if a <= b then a else b
  }

  /** The record without its timestamp. */
  function Unstamp(b: BetRecord): RoundRecord {
    RoundRecord(b.bets, b.totalBet, b.result, b.winAmount, b.isWin)
  }

  /** `{ ...record, timestamp: now }`. */
  function Stamp(r: RoundRecord, now: int): (b: BetRecord)
    ensures b.timestamp == now
    ensures Unstamp(b) == r
  {
    BetRecord(now, r.bets, r.totalBet, r.result, r.winAmount, r.isWin)
  }

  /**
   * `[entry, ...history].slice(0, 50)`: the new entry first, followed by the
   * newest of the old entries, in their old order, as many as still fit.
   */
  function Prepend(history: seq<BetRecord>, entry: BetRecord): (h: seq<BetRecord>)
    ensures 0 < |h| <= HistoryLimit
    ensures |history| < HistoryLimit ==> |h| == |history| + 1
    ensures |history| >= HistoryLimit ==> |h| == HistoryLimit
    ensures h[0] == entry
    ensures h[1..] == history[..|h| - 1]
  {
    ([entry] + history)[..Min(|history| + 1, HistoryLimit)]
  }

  /** Below the limit nothing is dropped: every old entry moves one place back. */
  lemma PrependBelowLimit(history: seq<BetRecord>, entry: BetRecord)
    requires |history| < HistoryLimit
    ensures Prepend(history, entry) == [entry] + history
    ensures forall i :: 0 <= i < |history| ==> Prepend(history, entry)[i + 1] == history[i]
  {
    assert Prepend(history, entry)[1..] == history;
  }

  /** At the limit the oldest (last) entry is dropped and the other 49 keep their order. */
  lemma PrependAtLimit(history: seq<BetRecord>, entry: BetRecord)
    requires |history| == HistoryLimit
    ensures Prepend(history, entry) == [entry] + history[..HistoryLimit - 1]
    ensures Prepend(history, entry)[1..] + [history[HistoryLimit - 1]] == history
  {
    assert Prepend(history, entry)[1..] == history[..HistoryLimit - 1];
  }

  /** Timestamps never increase from the front of the history to its back. */
  ghost predicate NewestFirst(h: seq<BetRecord>) {
    forall i, j :: 0 <= i < j < |h| ==> h[j].timestamp <= h[i].timestamp
  }

  /** With a clock that does not run backwards, adding a record keeps the history newest-first. */
  lemma AddKeepsNewestFirst(history: seq<BetRecord>, r: RoundRecord, now: int)
    requires NewestFirst(history)
    requires |history| > 0 ==> history[0].timestamp <= now
    ensures NewestFirst(Prepend(history, Stamp(r, now)))
  {
    var h := Prepend(history, Stamp(r, now));
    forall i, j | 0 <= i < j < |h|
      ensures h[j].timestamp <= h[i].timestamp
    {
      assert h[j] == history[j - 1];
      if i > 0 {
        assert h[i] == history[i - 1];
      }
    }
  }

  /** The history after `addHistory` was called with each of `entries`, in order. */
  function Replay(history: seq<BetRecord>, entries: seq<BetRecord>): seq<BetRecord>
    decreases |entries|
  {
    if entries == [] then history
    else Replay(Prepend(history, entries[0]), entries[1..])
  }

  function Reversed(s: seq<BetRecord>): (r: seq<BetRecord>)
    ensures |r| == |s|
    ensures forall i :: 0 <= i < |s| ==> r[i] == s[|s| - 1 - i]
  {
    if s == [] then [] else Reversed(s[1..]) + [s[0]]
  }

  /** Cutting the tail before taking a prefix that the cut tail still covers changes nothing. */
  lemma TakeOfTruncatedTail(a: seq<BetRecord>, b: seq<BetRecord>, k: nat, n: nat)
    requires k <= |b| && n <= |a| + k
    ensures (a + b[..k])[..n] == (a + b)[..n]
  {
    assert forall i :: 0 <= i < n ==> (a + b[..k])[i] == (a + b)[i];
  }

  /**
   * Eviction is first in, first out: after any run of `addHistory` calls the
   * history holds the newest 50 of all records, newest first.
   */
  lemma {:induction false} ReplayKeepsNewest(history: seq<BetRecord>, entries: seq<BetRecord>)
    requires |history| <= HistoryLimit
    ensures Replay(history, entries)
         == (Reversed(entries) + history)[..Min(|entries| + |history|, HistoryLimit)]
    decreases |entries|
  {
    if entries == [] {
      assert Reversed(entries) + history == history;
    } else {
      var e, rest := entries[0], entries[1..];
      var p := Prepend(history, e);
      ReplayKeepsNewest(p, rest);
      var m := Min(|history| + 1, HistoryLimit);
      assert p == ([e] + history)[..m];
      assert Reversed(entries) == Reversed(rest) + [e];
      assert Reversed(entries) + history == Reversed(rest) + ([e] + history);
      TakeOfTruncatedTail(Reversed(rest), [e] + history, m,
                          Min(|rest| + |p|, HistoryLimit));
    }
  }

  class Store {
    var score: int
    /** Newest record first, at most `HistoryLimit` of them. */
    var history: seq<BetRecord>

    ghost predicate Valid()
      reads this
    {
      |history| <= HistoryLimit
    }

    /** The initial state: 100 points and no history. */
    constructor ()
      ensures Valid()
      ensures score == InitialScore && history == []
    {
      score := InitialScore;
      history := [];
    }

    /** `setScore`: replaces the score, the history stays. */
    method SetScore(s: int)
      requires Valid()
      modifies this`score
      ensures Valid()
      ensures score == s && history == old(history)
    {
      score := s;
    }

    /** `addHistory`, with `now` the reading of `Date.now()`. */
    method AddHistory(record: RoundRecord, now: int)
      requires Valid()
      modifies this`history
      ensures Valid()
      ensures history == Prepend(old(history), Stamp(record, now))
      ensures history[0].timestamp == now && Unstamp(history[0]) == record
      ensures score == old(score)
    {
      history := Prepend(history, Stamp(record, now));
    }

    /** `clearHistory`: the history is emptied, the score stays. */
    method ClearHistory()
      requires Valid()
      modifies this`history
      ensures Valid()
      ensures history == [] && score == old(score)
    {
      history := [];
    }
  }
}
