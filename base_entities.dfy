/** The audit columns every entity of the data model inherits. */
module BaseEntities {
  import opened Wrappers
  import opened Calendar

  /** The IEntity columns: who created and who last modified the row, and when. */
  datatype Audit = Audit(
    createdOn: DateTime,
    createdBy: Option<string>,
    modifiedOn: Option<DateTime>,
    modifiedBy: Option<string>)

  /** The IDeletableEntity columns: the soft-delete flag, its time and its author. */
  datatype Deletion = Deletion(isDeleted: bool, deletedOn: Option<DateTime>, deletedBy: Option<string>)

  /** The audit columns of an entity not yet saved. */
  const NewAudit := Audit(MinValue, None, None, None)

  /** The deletion columns of a live row. */
  const NotDeleted := Deletion(false, None, None)
}
