/**
 * Paths as the models declare them, and the paths Mongoose and the
 * registered plugins add to both models: `_id`, the `timestamps: true`
 * pair, the mongoose-delete pair under `deletedAt: true`, and the version
 * key.
 */
module ModelPaths {
  import opened Wrappers
  import opened Metadata
  import opened MetadataFacts

  /** A path declared `{ type: String }`, with its `required` flag. */
  function StringPath(name: string, required: bool): Field
  {
    Field(name, String, None, required, None, [], None, None, PlainType)
  }

  /** A String path is plain when its name is not excluded, not dotted and has no dependency hint. */
  lemma StringPathPlain(name: string, required: bool)
    requires !Excluded(name) && '.' !in name && DependsOn(name).None?
    ensures PlainString(StringPath(name, required))
  {
  }

  /** A path Mongoose or one of the registered plugins adds. */
  function AddedPath(name: string, instance: Instance): Field
  {
    Field(name, instance, None, false, None, [], None, None, PlainType)
  }

  const AddedPaths: seq<Field> := [
    AddedPath("_id", ObjectId),
    AddedPath("createdAt", Date),
    AddedPath("updatedAt", Date),
    AddedPath("deleted", Boolean),
    AddedPath("deletedAt", Date),
    AddedPath("__v", Number)]

  /** Every added path is well formed and excluded from the metadata. */
  lemma AddedPathsExcluded()
    ensures WellFormed(Schema(AddedPaths))
    ensures forall i :: 0 <= i < |AddedPaths| ==> Excluded(AddedPaths[i].name)
  {
  }
}
