/**
 * The audit hook of the database context: before every save it stamps the
 * audit columns of each tracked entry and turns the removal of a deletable
 * entity into a soft delete.
 */
module ChangeTracking {
  import opened Wrappers
  import opened Calendar
  import opened BaseEntities

  datatype EntityState = Detached | Unchanged | Deleted | Modified | Added

  /**
   * The base contracts an entity implements: a DeletableEntity carries both
   * the IDeletableEntity and the IEntity columns, an AuditedEntity (User)
   * only the IEntity ones, and a PlainEntity (Exercise, ProductRecipe,
   * WorkoutExercise) neither.
   */
  datatype EntityKind = DeletableEntity | AuditedEntity | PlainEntity

  /** A change-tracker entry: the entity's kind, its state and its audit columns. */
  datatype EntityEntry = EntityEntry(kind: EntityKind, state: EntityState, audit: Audit, deletion: Deletion)

  predicate IsPending(e: EntityEntry) {
    e.state == Added || e.state == Modified || e.state == Deleted
  }

  /** What the hook does to one entry, `userName` being the current user's name, if any. */
  function AuditEntry(e: EntityEntry, now: DateTime, userName: Option<string>): (r: EntityEntry)
    ensures r.kind == e.kind
    ensures e.kind == DeletableEntity && e.state == Deleted ==>
              r == e.(state := Modified, deletion := Deletion(true, Some(now), userName))
    ensures e.kind != PlainEntity && e.state == Added ==>
              r == e.(audit := e.audit.(createdOn := now, createdBy := userName))
    ensures e.kind != PlainEntity && e.state == Modified ==>
              r == e.(audit := e.audit.(modifiedOn := Some(now), modifiedBy := userName))
    ensures e.kind == PlainEntity || e.state == Unchanged || e.state == Detached ==> r == e
    ensures e.kind == AuditedEntity && e.state == Deleted ==> r == e
  {
    if e.kind == DeletableEntity && e.state == Deleted then
      e.(state := Modified, deletion := Deletion(true, Some(now), userName))
    else if e.kind != PlainEntity && e.state == Added then
      e.(audit := e.audit.(createdOn := now, createdBy := userName))
    else if e.kind != PlainEntity && e.state == Modified then
      e.(audit := e.audit.(modifiedOn := Some(now), modifiedBy := userName))
    else
      e
  }

  /** The audit columns of an entity the save inserts. */
  function CreatedAudit(now: DateTime, userName: Option<string>): (a: Audit)
    ensures a == Audit(now, userName, None, None)
  {
    AuditEntry(EntityEntry(AuditedEntity, Added, NewAudit, NotDeleted), now, userName).audit
  }

  /** The audit columns of an entity the save updates. */
  function ModifiedAudit(a: Audit, now: DateTime, userName: Option<string>): (r: Audit)
    ensures r.createdOn == a.createdOn && r.createdBy == a.createdBy
    ensures r.modifiedOn == Some(now) && r.modifiedBy == userName
  {
    AuditEntry(EntityEntry(AuditedEntity, Modified, a, NotDeleted), now, userName).audit
  }

  /** The deletion columns of a deletable entity the service removed: the hook turns the removal into a soft delete. */
  function RemovedDeletion(now: DateTime, userName: Option<string>): (d: Deletion)
    ensures d.isDeleted && d.deletedOn == Some(now) && d.deletedBy == userName
  {
    AuditEntry(EntityEntry(DeletableEntity, Deleted, NewAudit, NotDeleted), now, userName).deletion
  }

  /** A deletable entity is never removed from the database: its removal becomes an update. */
  lemma DeletableNeverHardDeleted(e: EntityEntry, now: DateTime, userName: Option<string>)
    requires e.kind == DeletableEntity
    ensures AuditEntry(e, now, userName).state != Deleted
  {
  }

  /** A hard delete survives the hook exactly for the entities that are not deletable. */
  lemma HardDeleteExactlyForNonDeletable(e: EntityEntry, now: DateTime, userName: Option<string>)
    ensures AuditEntry(e, now, userName).state == Deleted <==> e.state == Deleted && e.kind != DeletableEntity
  {
  }

  /** The hook never adds nor drops pending work: an entry is written after it exactly when it was before. */
  lemma AuditKeepsPending(e: EntityEntry, now: DateTime, userName: Option<string>)
    ensures IsPending(AuditEntry(e, now, userName)) <==> IsPending(e)
  {
  }

  /** The hook applied to every tracked entry. */
  function AuditAll(entries: seq<EntityEntry>, now: DateTime, userName: Option<string>): (r: seq<EntityEntry>)
    ensures |r| == |entries|
    ensures forall i :: 0 <= i < |entries| ==> r[i] == AuditEntry(entries[i], now, userName)
  {
    seq(|entries|, i requires 0 <= i < |entries| => AuditEntry(entries[i], now, userName))
  }

  /** The positions of the entries a save writes to the database. */
  function PendingIndices(entries: seq<EntityEntry>): set<int> {
    set i | 0 <= i < |entries| && IsPending(entries[i])
  }

  /** The number of entries a save writes to the database: the Added, Modified and Deleted ones. */
  function PendingCount(entries: seq<EntityEntry>): (n: nat)
    ensures n == |PendingIndices(entries)|
  {
    if entries == [] then
      assert PendingIndices(entries) == {};
      0
    else
      var init := entries[..|entries| - 1];
      PendingIndicesSnoc(entries);
      PendingCount(init) + (if IsPending(entries[|entries| - 1]) then 1 else 0)
  }

  lemma PendingIndicesSnoc(entries: seq<EntityEntry>)
    requires entries != []
    ensures var n := |entries| - 1;
            && n !in PendingIndices(entries[..n])
            && PendingIndices(entries) == PendingIndices(entries[..n]) + (if IsPending(entries[n]) then {n} else {})
  {
    var n := |entries| - 1;
    assert forall i :: 0 <= i < n ==> entries[..n][i] == entries[i];
  }

  /** One entry after the changes are accepted: Added and Modified become Unchanged, nothing else changes. */
  function Accepted(e: EntityEntry): (a: EntityEntry)
    ensures a.state == if e.state == Added || e.state == Modified then Unchanged else e.state
    ensures a.(state := e.state) == e
  {
    if e.state == Added || e.state == Modified then e.(state := Unchanged) else e
  }

  /**
   * The tracker after a successful save that accepts all changes: deleted
   * entries leave it, the others stay as Accepted gives them.
   */
  function AcceptAllChanges(entries: seq<EntityEntry>): (r: seq<EntityEntry>)
    ensures forall x :: x in r ==> x.state == Unchanged || x.state == Detached
    ensures forall e :: e in entries && e.state != Deleted ==> Accepted(e) in r
    ensures forall x :: x in r ==> exists e :: e in entries && e.state != Deleted && x == Accepted(e)
    ensures |r| <= |entries|
  {
    if entries == [] then []
    else
      var rest := AcceptAllChanges(entries[1..]);
      var e := entries[0];
      assert forall d :: d in entries ==> d == e || d in entries[1..];
      if e.state == Deleted then rest
      else [Accepted(e)] + rest
  }

  /** Accepting keeps the order of the tracker: it works entry by entry. */
  lemma {:induction false} AcceptAllChangesConcat(a: seq<EntityEntry>, b: seq<EntityEntry>)
    ensures AcceptAllChanges(a + b) == AcceptAllChanges(a) + AcceptAllChanges(b)
    decreases |a|
  {
    if a == [] {
      assert a + b == b;
    } else {
      assert (a + b)[1..] == a[1..] + b;
      AcceptAllChangesConcat(a[1..], b);
    }
  }

  /** A single entry leaves the tracker if it was Deleted, and is accepted otherwise. */
  lemma AcceptAllChangesOne(e: EntityEntry)
    ensures AcceptAllChanges([e]) == if e.state == Deleted then [] else [Accepted(e)]
  {
    assert [e][1..] == [];
  }

  lemma {:induction false} PendingCountAudited(entries: seq<EntityEntry>, now: DateTime, userName: Option<string>)
    ensures PendingCount(AuditAll(entries, now, userName)) == PendingCount(entries)
  {
    if entries != [] {
      var n := |entries| - 1;
      assert AuditAll(entries, now, userName)[..n] == AuditAll(entries[..n], now, userName);
      PendingCountAudited(entries[..n], now, userName);
      AuditKeepsPending(entries[n], now, userName);
    }
  }

  /** The entries the context tracks; SaveChanges runs the hook over all of them. */
  class ChangeTracker {
    var entries: seq<EntityEntry>

    constructor ()
      ensures entries == []
    {
      entries := [];
    }

    method Track(e: EntityEntry)
      modifies this
      ensures entries == old(entries) + [e]
    {
      entries := entries + [e];
    }

    /** The hook itself: every entry in turn, with the same clock and user. */
    method ApplyAuditInformation(now: DateTime, userName: Option<string>)
      modifies this
      ensures entries == AuditAll(old(entries), now, userName)
    {
      var i := 0;
      while i < |entries|
        invariant 0 <= i <= |entries| == |old(entries)|
        invariant forall j :: 0 <= j < i ==> entries[j] == AuditEntry(old(entries)[j], now, userName)
        invariant forall j :: i <= j < |entries| ==> entries[j] == old(entries)[j]
      {
        entries := entries[i := AuditEntry(entries[i], now, userName)];
        i := i + 1;
      }
    }

    /** SaveChanges: the hook runs first, then the base save writes every pending entry. */
    method SaveChanges(acceptAllChangesOnSuccess: bool, now: DateTime, userName: Option<string>) returns (written: nat)
      modifies this
      ensures written == PendingCount(old(entries))
      ensures entries == if acceptAllChangesOnSuccess then AcceptAllChanges(AuditAll(old(entries), now, userName))
                         else AuditAll(old(entries), now, userName)
    {
      ApplyAuditInformation(now, userName);
      written := Save(acceptAllChangesOnSuccess);
      PendingCountAudited(old(entries), now, userName);
    }

    /** SaveChangesAsync runs the same hook before the same base save. */
    method SaveChangesAsync(acceptAllChangesOnSuccess: bool, now: DateTime, userName: Option<string>) returns (written: nat)
      modifies this
      ensures written == PendingCount(old(entries))
      ensures entries == if acceptAllChangesOnSuccess then AcceptAllChanges(AuditAll(old(entries), now, userName))
                         else AuditAll(old(entries), now, userName)
    {
      ApplyAuditInformation(now, userName);
      written := Save(acceptAllChangesOnSuccess);
      PendingCountAudited(old(entries), now, userName);
    }

    /** The base save: the pending entries are written, then optionally accepted. */
    method Save(acceptAllChangesOnSuccess: bool) returns (written: nat)
      modifies this
      ensures written == PendingCount(old(entries))
      ensures entries == if acceptAllChangesOnSuccess then AcceptAllChanges(old(entries)) else old(entries)
    {
      written := PendingCount(entries);
      if acceptAllChangesOnSuccess {
        entries := AcceptAllChanges(entries);
      }
    }
  }
}
