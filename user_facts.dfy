/**
 * What `getFieldMetadata` gives for the User model: the expected metadata,
 * and the proof that the plugin computes it from the declared paths
 * whatever excluded paths Mongoose appends.
 */
module UserFacts {
  import opened Metadata
  import opened MetadataFacts
  import opened ModelPaths
  import opened UserModel

  /** What `getFieldMetadata` gives for User. */
  const UserMetadata: seq<(string, Meta)> := [
    ("name", StringRecord("TextField", true, [])),
    ("email", StringRecord("Email", true, [])),
    ("password", StringRecord("Password", true, [])),
    ("role", StringRecord("TextField", false, []))]

  // Each declared path is a plain String path, one path at a time.
  lemma NamePlain() ensures PlainString(NamePath) { StringPathPlain("name", true); }
  lemma EmailPlain() ensures PlainString(EmailPath) { StringPathPlain("email", true); }
  lemma PasswordPlain() ensures PlainString(PasswordPath) { StringPathPlain("password", true); }
  lemma RolePlain() ensures PlainString(RolePath) { assert RolePath.name == "role"; }

  lemma UserPlain()
    ensures WellFormed(Schema(UserPaths))
    ensures forall i :: 0 <= i < |UserPaths| ==> PlainString(UserPaths[i])
  {
    NamePlain();
    EmailPlain();
    PasswordPlain();
    RolePlain();
    forall i | 0 <= i < |UserPaths| ensures PlainString(UserPaths[i]) {
      assert i == 0 || i == 1 || i == 2 || i == 3;
    }
  }

  /** The flat override of each declared path. */
  lemma UserFlatTypes()
    ensures var m := UserOptions.defaultComponentOverrides;
      && FlatComponentType(m, "name") == "TextField"
      && FlatComponentType(m, "email") == "Email"
      && FlatComponentType(m, "password") == "Password"
      && FlatComponentType(m, "role") == "TextField"
  {
  }

  lemma {:induction false} UserEntriesAt()
    ensures WellFormed(Schema(UserPaths))
    ensures var e := Entries(Schema(UserPaths), 4, "", UserPlugin);
      |e| == 4 && forall i :: 0 <= i < 4 ==> e[i] == UserMetadata[i]
  {
    UserPlain();
    UserFlatTypes();
    StringEntries(Schema(UserPaths), 4, "", UserOptions);
    var e := Entries(Schema(UserPaths), 4, "", UserPlugin);
    forall i | 0 <= i < 4 ensures e[i] == UserMetadata[i] {
      assert i == 0 || i == 1 || i == 2 || i == 3;
    }
  }

  /**
   * The User metadata: the four declared fields in order, name, email and
   * password required, email and password with their override components,
   * role a plain text field, and none of the added paths.
   */
  lemma {:induction false} UserFieldMetadata(added: seq<Field>)
    requires WellFormed(Schema(added)) && forall i :: 0 <= i < |added| ==> Excluded(added[i].name)
    ensures WellFormed(Schema(UserPaths + added))
    ensures FieldMetadata(Schema(UserPaths + added), UserPlugin) == UserMetadata
  {
    UserEntriesAt();
    var e := Entries(Schema(UserPaths), 4, "", UserPlugin);
    assert e == UserMetadata;
    WellFormedAppend(UserPaths, added);
    ExcludedTail(UserPaths, added, "", UserPlugin);
  }

  /** `User.getFieldMetadata()` on the full schema, with the paths Mongoose and the plugins add. */
  lemma UserSchemaMetadata()
    ensures WellFormed(UserSchema)
    ensures FieldMetadata(UserSchema, UserPlugin) == UserMetadata
  {
    AddedPathsExcluded();
    UserFieldMetadata(AddedPaths);
  }

  /** Every table column is a top-level key of the metadata. */
  lemma TableFieldsInMetadata(added: seq<Field>)
    requires WellFormed(Schema(added)) && forall i :: 0 <= i < |added| ==> Excluded(added[i].name)
    ensures WellFormed(Schema(UserPaths + added))
    ensures forall k :: k in TableFields ==> k in Keys(FieldMetadata(Schema(UserPaths + added), UserPlugin))
  {
    UserFieldMetadata(added);
    var ks := Keys(UserMetadata);
    assert ks[0] == "name" && ks[1] == "email" && ks[3] == "role";
  }
}
