/**
 * The on-device database `quizDB` (version 1) that holds finished attempts
 * in its `attempts` object store, with keys drawn from an auto-increment
 * key generator. The database is a value: each page that opens it gets the
 * new value back. Whether the browser lets the page use storage at all is a
 * parameter (`available`); a rejected open, add or read is logged and
 * swallowed by both pages, so it leaves everything as it was.
 */
module AttemptStore {
  import opened Wrappers

  /** A stored attempt; `id` is the key the store assigned. */
  datatype Attempt = Attempt(id: nat, playerName: string, date: int, score: int, totalQuestions: int)

  /** What the quiz page hands to the store: an attempt without its key. */
  datatype AttemptData = AttemptData(playerName: string, date: int, score: int, totalQuestions: int)

  /**
   * `created`: the database exists on the device; `hasAttemptsStore`: it has
   * the `attempts` object store; `nextKey`: the key generator's current number.
   */
  datatype Database = Database(created: bool, hasAttemptsStore: bool, records: seq<Attempt>, nextKey: nat)

  /** An auto-increment key generator hands out 1 first. */
  const FirstKey: nat := 1

  /** No `quizDB` on the device yet. */
  const NoDatabase: Database := Database(false, false, [], FirstKey)

  /** The attempt a record was made from: the record without its key. */
  function DataOf(a: Attempt): AttemptData {
    AttemptData(a.playerName, a.date, a.score, a.totalQuestions)
  }

  /** The record the store writes for `d` under `key`: it carries that key and gives `d` back. */
  function WithKey(d: AttemptData, key: nat): (a: Attempt)
    ensures a.id == key && DataOf(a) == d
  {
    Attempt(key, d.playerName, d.date, d.score, d.totalQuestions)
  }

  /** The store's keys, in the order `getAll` returns records, grow strictly. */
  predicate KeysIncreasing(records: seq<Attempt>) {
    forall i, j :: 0 <= i < j < |records| ==> records[i].id < records[j].id
  }

  /** What holds of the database whichever page opened it. */
  predicate Consistent(db: Database) {
    (!db.created ==> !db.hasAttemptsStore) &&
    (!db.hasAttemptsStore ==> db.records == [] && db.nextKey == FirstKey) &&
    KeysIncreasing(db.records) && FirstKey <= db.nextKey &&
    (forall i :: 0 <= i < |db.records| ==> FirstKey <= db.records[i].id < db.nextKey)
  }

  /** What the quiz needs in order to be able to save: once created, the database has its store. */
  predicate Healthy(db: Database) {
    Consistent(db) && (db.created ==> db.hasAttemptsStore)
  }

  /**
   * `openDB('quizDB', 1, ...)`. A database that does not exist yet is
   * created at version 1 and the upgrade callback, if one is given, creates
   * the `attempts` store; an existing version-1 database is opened as it is,
   * without any upgrade.
   */
  function Open(db: Database, withUpgrade: bool): (r: Database)
    requires Consistent(db)
    ensures Consistent(r) && r.created
    ensures db.created ==> r == db
    ensures !db.created ==> r.hasAttemptsStore == withUpgrade && r.records == [] && r.nextKey == FirstKey
    ensures Healthy(db) && withUpgrade ==> Healthy(r)
  {
    if db.created then db else Database(true, withUpgrade, [], FirstKey)
  }

  /** `db.add('attempts', attempt)`: fails (`None`) when there is no `attempts` store. */
  function Add(db: Database, d: AttemptData): (r: Option<Database>)
    requires Consistent(db)
    ensures r.None? <==> !db.hasAttemptsStore
    ensures r.Some? ==> Consistent(r.value) && r.value.created == db.created && r.value.hasAttemptsStore
    ensures r.Some? ==> r.value.records == db.records + [WithKey(d, db.nextKey)]
    ensures r.Some? ==> r.value.nextKey == db.nextKey + 1
  {
    if db.hasAttemptsStore then
      Some(db.(records := db.records + [WithKey(d, db.nextKey)], nextKey := db.nextKey + 1))
    else None
  }

  /** `db.getAll('attempts')`: every record in key order, or failure when there is no store. */
  function GetAll(db: Database): (r: Option<seq<Attempt>>)
    ensures r.None? <==> !db.hasAttemptsStore
    ensures r.Some? ==> r.value == db.records
    ensures Consistent(db) && r.Some? ==>
      KeysIncreasing(r.value) && forall i :: 0 <= i < |r.value| ==> FirstKey <= r.value[i].id < db.nextKey
    ensures Consistent(db) && r.None? ==> db.records == []
  {
    if db.hasAttemptsStore then Some(db.records) else None
  }

  /**
   * `saveAttempt`: open with the upgrade callback, then add. Exactly one
   * record, with the next key, is appended when storage is available and the
   * database has (or gets) its store; otherwise nothing changes.
   */
  function SaveAttempt(db: Database, d: AttemptData, available: bool): (r: Database)
    requires Consistent(db)
    ensures Consistent(r)
    ensures Healthy(db) ==> Healthy(r)
    ensures available && (!db.created || db.hasAttemptsStore) ==>
      r.created && r.hasAttemptsStore &&
      r.records == db.records + [WithKey(d, db.nextKey)] && r.nextKey == db.nextKey + 1
    ensures !(available && (!db.created || db.hasAttemptsStore)) ==> r == db
  {
    if !available then db
    else
      var openedDb := Open(db, true);
      match Add(openedDb, d)
      case Some(added) => added
      case None => openedDb
  }

  /** The outcome of the history page's read: the database afterwards and the records, if any. */
  datatype Fetched = Fetched(db: Database, attempts: Option<seq<Attempt>>)

  /**
   * The history page's read: open (with or without the upgrade callback),
   * then `getAll`. Every stored record comes back when storage is available
   * and the store exists after opening.
   */
  function FetchAll(db: Database, available: bool, withUpgrade: bool): (r: Fetched)
    requires Consistent(db)
    ensures Consistent(r.db) && r.db.records == db.records
    ensures Healthy(db) && withUpgrade ==> Healthy(r.db)
    ensures !available ==> r.db == db && r.attempts.None?
    ensures available ==> r.db == Open(db, withUpgrade)
    ensures r.attempts.Some? <==> available && r.db.hasAttemptsStore
    ensures r.attempts.Some? ==> r.attempts.value == db.records
  {
    if !available then Fetched(db, None)
    else
      var openedDb := Open(db, withUpgrade);
      Fetched(openedDb, GetAll(openedDb))
  }

  // ---- What the two pages do to the database over time --------------------

  /** A finished quiz tries to save; a visit to the history page reads. */
  datatype StorageEvent =
    | QuizFinished(data: AttemptData, available: bool)
    | HistoryVisited(available: bool)

  function Apply(db: Database, e: StorageEvent, historyUpgrades: bool): (r: Database)
    requires Consistent(db)
    ensures Consistent(r)
  {
    match e
    case QuizFinished(d, available) => SaveAttempt(db, d, available)
    case HistoryVisited(available) => FetchAll(db, available, historyUpgrades).db
  }

  function Replay(db: Database, events: seq<StorageEvent>, historyUpgrades: bool): (r: Database)
    requires Consistent(db)
    ensures Consistent(r)
    decreases |events|
  {
    if events == [] then db else Replay(Apply(db, events[0], historyUpgrades), events[1..], historyUpgrades)
  }

  /** The attempts of the quizzes that finished while storage was available. */
  function SavedData(events: seq<StorageEvent>): seq<AttemptData> {
    if events == [] then []
    else
      var rest := SavedData(events[1..]);
      match events[0]
      case QuizFinished(d, available) => if available then [d] + rest else rest
      case HistoryVisited(_) => rest
  }

  /** `ds` as the store keys them, starting from `key` (contents: `KeyedAt`). */
  function Keyed(ds: seq<AttemptData>, key: nat): (r: seq<Attempt>)
    ensures |r| == |ds|
  {
    if ds == [] then [] else [WithKey(ds[0], key)] + Keyed(ds[1..], key + 1)
  }

  /**
   * With the history page opening the database the way the quiz page does,
   * every quiz finished while storage was available is stored, once, in
   * order, under consecutive keys, whatever the history page did in between.
   */
  lemma {:induction false} ReplayKeepsEverySave(db: Database, events: seq<StorageEvent>)
    requires Healthy(db)
    ensures Healthy(Replay(db, events, true))
    ensures Replay(db, events, true).records == db.records + Keyed(SavedData(events), db.nextKey)
    decreases |events|
  {
    if events != [] {
      var next := Apply(db, events[0], true);
      ReplayKeepsEverySave(next, events[1..]);
      match events[0]
      case QuizFinished(d, available) =>
        if available {
          assert next.records == db.records + [WithKey(d, db.nextKey)];
          assert SavedData(events) == [d] + SavedData(events[1..]);
        }
      case HistoryVisited(_) =>
    }
  }

  /** Starting from no database, the n-th saved attempt is stored with key n. */
  lemma ReplayFromNothing(events: seq<StorageEvent>)
    ensures var stored := Replay(NoDatabase, events, true).records;
      |stored| == |SavedData(events)| &&
      forall i :: 0 <= i < |stored| ==> stored[i] == WithKey(SavedData(events)[i], i + 1)
  {
    ReplayKeepsEverySave(NoDatabase, events);
    KeyedAt(SavedData(events), FirstKey);
  }

  /** The i-th attempt keyed from `key` gets key `key + i`. */
  lemma {:induction false} KeyedAt(ds: seq<AttemptData>, key: nat)
    ensures forall i :: 0 <= i < |ds| ==> Keyed(ds, key)[i] == WithKey(ds[i], key + i)
    decreases |ds|
  {
    if ds != [] {
      KeyedAt(ds[1..], key + 1);
    }
  }

  // ---- As the history page is written ------------------------------------

  /** A database the history page created: it exists, without the `attempts` store. */
  lemma {:induction false} StorelessStaysStoreless(db: Database, events: seq<StorageEvent>)
    requires Consistent(db) && db.created && !db.hasAttemptsStore
    ensures Replay(db, events, false) == db
    decreases |events|
  {
    if events != [] {
      assert Apply(db, events[0], false) == db;
      StorelessStaysStoreless(db, events[1..]);
    }
  }

  /**
   * As written, the history page opens `quizDB` without the upgrade
   * callback. If it is the first page to open the database, the database is
   * created without the `attempts` store, and since every later open finds
   * version 1 already there, no upgrade ever runs again: every attempt
   * finished afterwards is lost, even with storage available.
   */
  lemma HistoryFirstLosesEverySave(events: seq<StorageEvent>)
    ensures Replay(NoDatabase, [HistoryVisited(true)] + events, false).records == []
  {
    var all := [HistoryVisited(true)] + events;
    var created := Apply(NoDatabase, HistoryVisited(true), false);
    assert all[1..] == events;
    StorelessStaysStoreless(created, events);
  }

  /**
   * The smallest input that shows it: visit the history page, then finish
   * a quiz with storage available. As written nothing is stored; opening
   * with the upgrade stores the attempt under key 1.
   */
  lemma HistoryFirstCounterexample(d: AttemptData)
    ensures Replay(NoDatabase, [HistoryVisited(true), QuizFinished(d, true)], false).records == []
    ensures Replay(NoDatabase, [HistoryVisited(true), QuizFinished(d, true)], true).records == [WithKey(d, FirstKey)]
  {
    HistoryFirstLosesEverySave([QuizFinished(d, true)]);
    var two := [HistoryVisited(true), QuizFinished(d, true)];
    assert [HistoryVisited(true)] + [QuizFinished(d, true)] == two;
    assert two[1..] == [QuizFinished(d, true)] && two[1..][1..] == [];
    assert SavedData(two[1..][1..]) == [];
    assert SavedData(two[1..]) == [d];
    ReplayFromNothing(two);
  }
}
