/**
 * The history page: on mount it reads every stored attempt, sorts the array
 * it got back newest first in place and shows it as a table with one row
 * per attempt, or an empty-state panel when there is none. A failed read is
 * logged and leaves the list at its initial empty value. Dates are the
 * attempts' timestamps as integers.
 */
module History {
  import opened AttemptStore
  import opened Performance

  /** Each attempt is at least as recent as every attempt after it. */
  predicate NewestFirst(s: seq<Attempt>) {
    forall i, j :: 0 <= i < j < |s| ==> s[i].date >= s[j].date
  }

  /** Newest first is the same as: every neighbour pair is in order. */
  lemma {:induction false} NewestFirstIffNeighbours(s: seq<Attempt>)
    ensures NewestFirst(s) <==> forall i :: 0 <= i < |s| - 1 ==> s[i].date >= s[i + 1].date
    decreases |s|
  {
    if |s| > 1 && forall i :: 0 <= i < |s| - 1 ==> s[i].date >= s[i + 1].date {
      var rest := s[1..];
      assert forall i :: 0 <= i < |rest| - 1 ==> rest[i].date >= rest[i + 1].date by {
        forall i | 0 <= i < |rest| - 1 ensures rest[i].date >= rest[i + 1].date {
          assert rest[i] == s[i + 1] && rest[i + 1] == s[i + 2];
        }
      }
      NewestFirstIffNeighbours(rest);
      forall i, j | 0 <= i < j < |s| ensures s[i].date >= s[j].date {
        if i > 0 {
          assert s[i] == rest[i - 1] && s[j] == rest[j - 1];
        } else if j > 1 {
          assert s[1] == rest[0] && s[j] == rest[j - 1];
        }
      }
    }
  }

  /** Exchanges two neighbouring elements. */
  method SwapWithPrevious(a: array<Attempt>, j: int)
    requires 0 < j < a.Length
    modifies a
    ensures a[j - 1] == old(a[j]) && a[j] == old(a[j - 1])
    ensures forall k :: 0 <= k < a.Length && k != j - 1 && k != j ==> a[k] == old(a[k])
    ensures multiset(a[..]) == multiset(old(a[..]))
  {
    a[j - 1], a[j] := a[j], a[j - 1];
  }

  /**
   * `allAttempts.sort((a, b) => b.date - a.date)`: an insertion sort that
   * rearranges the array, newest first.
   */
  method SortNewestFirst(a: array<Attempt>)
    modifies a
    ensures NewestFirst(a[..])
    ensures multiset(a[..]) == multiset(old(a[..]))
  {
    var i := 0;
    while i < a.Length
      invariant 0 <= i <= a.Length
      invariant forall p, q :: 0 <= p < q < i ==> a[p].date >= a[q].date
      invariant multiset(a[..]) == multiset(old(a[..]))
    {
      // move a[i] towards the front past every older attempt
      var j := i;
      while j > 0 && a[j - 1].date < a[j].date
        invariant 0 <= j <= i
        invariant forall p, q :: 0 <= p < q <= i && p != j && q != j ==> a[p].date >= a[q].date
        invariant forall q :: j < q <= i ==> a[j].date >= a[q].date
        invariant multiset(a[..]) == multiset(old(a[..]))
      {
        SwapWithPrevious(a, j);
        j := j - 1;
      }
      i := i + 1;
    }
  }

  class HistoryPage {
    /** The `attempts` state the table is rendered from. */
    var attempts: seq<Attempt>
    /** The on-device database, as the history page sees it. */
    var db: Database

    constructor (db: Database)
      requires Consistent(db)
      ensures attempts == [] && this.db == db
    {
      attempts := [];
      this.db := db;
    }

    /**
     * `loadAttempts`: open, read all, sort newest first, show. When storage
     * is unavailable or the read fails, `attempts` keeps its value. The page
     * opens without the schema upgrade (`withUpgrade == false`); passing it
     * (`withUpgrade == true`) is the corrected open, under which a first
     * visit creates the `attempts` store as the quiz page would.
     */
    method LoadAttempts(available: bool, withUpgrade: bool)
      requires Consistent(db)
      modifies this
      ensures db == FetchAll(old(db), available, withUpgrade).db
      ensures FetchAll(old(db), available, withUpgrade).attempts.None? ==> attempts == old(attempts)
      ensures FetchAll(old(db), available, withUpgrade).attempts.Some? ==>
        NewestFirst(attempts) && multiset(attempts) == multiset(old(db).records)
    {
      var fetched := FetchAll(db, available, withUpgrade);
      db := fetched.db;
      if fetched.attempts.Some? {
        var all := fetched.attempts.value;
        var sorted := new Attempt[|all|](i requires 0 <= i < |all| => all[i]);
        assert sorted[..] == old(db).records;
        SortNewestFirst(sorted);
        attempts := sorted[..];
      }
    }
  }

  /**
   * Mounting the history page over the device's database: the list shown is
   * every stored attempt, none added or dropped, newest first; or, when
   * storage is unavailable, the initial empty list. The records are never
   * changed; what the open leaves behind depends on `withUpgrade` (false for
   * the page as written).
   */
  method VisitHistory(db: Database, available: bool, withUpgrade: bool) returns (shown: seq<Attempt>, after: Database)
    requires Consistent(db)
    ensures after.records == db.records
    ensures !available ==> shown == [] && after == db
    ensures available ==> after == Open(db, withUpgrade)
    ensures available ==> NewestFirst(shown) && multiset(shown) == multiset(db.records)
  {
    var page := new HistoryPage(db);
    page.LoadAttempts(available, withUpgrade);
    shown, after := page.attempts, page.db;
  }

  /** What a table row shows: player, date, score out of total, and the performance style. */
  datatype Row = Row(playerName: string, date: int, score: int, totalQuestions: int, tier: Tier)

  /** The card body: the empty-state panel, or the table. */
  datatype Listing = EmptyState | Table(rows: seq<Row>)

  /**
   * A row shows the attempt's player, date, score and total unchanged, and
   * its style by the 80/60 thresholds on the percentage.
   */
  function RowFor(a: Attempt): (r: Row)
    ensures r.playerName == a.playerName && r.date == a.date
    ensures r.score == a.score && r.totalQuestions == a.totalQuestions
    ensures a.totalQuestions > 0 ==>
      (r.tier == Green <==> 100 * a.score >= 80 * a.totalQuestions) &&
      (r.tier == Yellow <==> 60 * a.totalQuestions <= 100 * a.score < 80 * a.totalQuestions) &&
      (r.tier == Red <==> 100 * a.score < 60 * a.totalQuestions)
  {
    Row(a.playerName, a.date, a.score, a.totalQuestions, AttemptTier(a.score, a.totalQuestions))
  }

  /** `attempts.map(...)`: one row per attempt, in list order. */
  function Rows(attempts: seq<Attempt>): (rows: seq<Row>)
    ensures |rows| == |attempts|
    ensures forall i :: 0 <= i < |attempts| ==> rows[i] == RowFor(attempts[i])
  {
    if attempts == [] then [] else [RowFor(attempts[0])] + Rows(attempts[1..])
  }

  /** The empty-state panel exactly when there is no attempt; otherwise one row per attempt, in order. */
  function Render(attempts: seq<Attempt>): (v: Listing)
    ensures v.EmptyState? <==> attempts == []
    ensures v.Table? ==> |v.rows| == |attempts|
    ensures v.Table? ==> forall i :: 0 <= i < |attempts| ==> v.rows[i] == RowFor(attempts[i])
  {
    if |attempts| > 0 then Table(Rows(attempts)) else EmptyState
  }
}
