/**
 * The operations both log tables share: logging a recipe or workout for a
 * user, finding a log row through the query filter, and soft-deleting it.
 */
module LogStore {
  import opened Wrappers
  import opened Calendar
  import opened BaseEntities
  import opened ChangeTracking
  import opened Models
  import opened DbContext

  /** The row AddRecipeToUser and AddWorkoutToUser insert: logged at `now`, stamped as created. */
  function NewLog(userId: string, itemId: int, now: DateTime, userName: Option<string>): (l: LogEntry)
    ensures HasKey(l, userId, itemId, now) && LogVisible(l)
    ensures l.audit == CreatedAudit(now, userName)
  {
    LogEntry(userId, itemId, now, CreatedAudit(now, userName), NotDeleted)
  }

  /** FirstOrDefault over the filtered log table: the first visible row with the key, or -1. */
  function FindVisibleLog(logs: seq<LogEntry>, userId: string, itemId: int, dateLogged: DateTime): (r: int)
    ensures -1 <= r < |logs|
    ensures r >= 0 ==> HasKey(logs[r], userId, itemId, dateLogged) && LogVisible(logs[r])
    ensures r >= 0 ==> forall i :: 0 <= i < r ==> !(HasKey(logs[i], userId, itemId, dateLogged) && LogVisible(logs[i]))
    ensures r == -1 <==>
              forall i :: 0 <= i < |logs| ==> !(HasKey(logs[i], userId, itemId, dateLogged) && LogVisible(logs[i]))
  {
    if |logs| == 0 then -1
    else if HasKey(logs[0], userId, itemId, dateLogged) && LogVisible(logs[0]) then 0
    else
      var r := FindVisibleLog(logs[1..], userId, itemId, dateLogged);
      assert forall i :: 1 <= i < |logs| ==> logs[i] == logs[1..][i - 1];
      if r == -1 then -1 else r + 1
  }

  /** A log row after DeleteLoggedRecipe or DeleteLoggedWorkout: flagged deleted by the user, then saved as an update. */
  function SoftDeletedLog(l: LogEntry, userId: string, now: DateTime, userName: Option<string>): (r: LogEntry)
    ensures SameKey(r, l) && !LogVisible(r)
    ensures r.deletion == Deletion(true, Some(now), Some(userId))
    ensures r.audit == ModifiedAudit(l.audit, now, userName)
  {
    l.(deletion := Deletion(true, Some(now), Some(userId)), audit := ModifiedAudit(l.audit, now, userName))
  }

  /** Logging with a fresh key keeps the composite key unique. */
  lemma AddKeepsKeysUnique(logs: seq<LogEntry>, userId: string, itemId: int, now: DateTime, userName: Option<string>)
    requires UniqueLogKeys(logs) && KeyAbsent(logs, userId, itemId, now)
    ensures UniqueLogKeys(logs + [NewLog(userId, itemId, now, userName)])
  {
    var l := NewLog(userId, itemId, now, userName);
    var all := logs + [l];
    forall i, j | 0 <= i < j < |all| ensures !SameKey(all[i], all[j]) {
      if j == |logs| {
        assert !HasKey(logs[i], userId, itemId, now);
      } else {
        assert all[i] == logs[i] && all[j] == logs[j];
      }
    }
  }

  /** A row just logged is what the filtered lookup finds for its key. */
  lemma AddedLogIsFound(logs: seq<LogEntry>, userId: string, itemId: int, now: DateTime, userName: Option<string>)
    requires KeyAbsent(logs, userId, itemId, now)
    ensures FindVisibleLog(logs + [NewLog(userId, itemId, now, userName)], userId, itemId, now) == |logs|
  {
    var l := NewLog(userId, itemId, now, userName);
    var all := logs + [l];
    assert HasKey(all[|logs|], userId, itemId, now) && LogVisible(all[|logs|]);
    var r := FindVisibleLog(all, userId, itemId, now);
    assert r != -1;
    assert forall i :: 0 <= i < |logs| ==> all[i] == logs[i] && !HasKey(all[i], userId, itemId, now);
  }

  /** Soft-deleting a row changes no key, so the keys stay unique. */
  lemma SoftDeleteKeepsKeysUnique(logs: seq<LogEntry>, i: int, userId: string, now: DateTime, userName: Option<string>)
    requires UniqueLogKeys(logs) && 0 <= i < |logs|
    ensures UniqueLogKeys(logs[i := SoftDeletedLog(logs[i], userId, now, userName)])
  {
  }

  /** Once a log row is soft-deleted, a second delete of the same key finds nothing. */
  lemma SecondDeleteFindsNothing(logs: seq<LogEntry>, userId: string, itemId: int, dateLogged: DateTime,
                                 now: DateTime, userName: Option<string>)
    requires UniqueLogKeys(logs)
    requires FindVisibleLog(logs, userId, itemId, dateLogged) >= 0
    ensures var i := FindVisibleLog(logs, userId, itemId, dateLogged);
            FindVisibleLog(logs[i := SoftDeletedLog(logs[i], userId, now, userName)], userId, itemId, dateLogged) == -1
  {
    var i := FindVisibleLog(logs, userId, itemId, dateLogged);
    var after := logs[i := SoftDeletedLog(logs[i], userId, now, userName)];
    forall j | 0 <= j < |after| && j != i ensures !HasKey(after[j], userId, itemId, dateLogged) {
      if j < i { assert !SameKey(logs[j], logs[i]); } else { assert !SameKey(logs[i], logs[j]); }
    }
    assert !LogVisible(after[i]);
  }

  /** Logging the same item again at another instant adds a second, distinct row; both stay visible. */
  lemma RelogAddsSecondRow(logs: seq<LogEntry>, userId: string, itemId: int, first: DateTime, second: DateTime,
                           userName: Option<string>)
    requires UniqueLogKeys(logs) && KeyAbsent(logs, userId, itemId, first) && KeyAbsent(logs, userId, itemId, second)
    requires first != second
    ensures var after := logs + [NewLog(userId, itemId, first, userName)] + [NewLog(userId, itemId, second, userName)];
            UniqueLogKeys(after) && |after| == |logs| + 2
            && FindVisibleLog(after, userId, itemId, first) == |logs|
            && FindVisibleLog(after, userId, itemId, second) == |logs| + 1
  {
    var once := logs + [NewLog(userId, itemId, first, userName)];
    AddKeepsKeysUnique(logs, userId, itemId, first, userName);
    assert KeyAbsent(once, userId, itemId, second) by {
      assert forall i :: 0 <= i < |logs| ==> once[i] == logs[i];
    }
    AddKeepsKeysUnique(once, userId, itemId, second, userName);
    AddedLogIsFound(once, userId, itemId, second, userName);
    var after := once + [NewLog(userId, itemId, second, userName)];
    assert forall i :: 0 <= i < |logs| ==> after[i] == logs[i];
    assert after[|logs|] == NewLog(userId, itemId, first, userName);
  }
}
