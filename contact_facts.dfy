/**
 * What `getFieldMetadata` gives for the ContactUs model: the expected
 * metadata, and the proof that the plugin computes it from the declared
 * paths whatever excluded paths Mongoose appends.
 */
module ContactFacts {
  import opened Wrappers
  import opened Metadata
  import opened MetadataFacts
  import opened ModelPaths
  import opened ContactModel

  /** The record of every `seo` path. */
  const SeoRecord := StringRecord("TextField", false, [])

  const SeoMetadata: seq<(string, Meta)> := [
    ("metaTitle", SeoRecord), ("metaDescription", SeoRecord), ("ogTitle", SeoRecord),
    ("ogDescription", SeoRecord), ("canonicalUrl", SeoRecord)]

  /** What `getFieldMetadata` gives for ContactUs. */
  const ContactMetadata: seq<(string, Meta)> := [
    ("name", StringRecord("TextField", true, [])),
    ("phone", StringRecord("TextField", true, [])),
    ("address", StringRecord("TextField", true, [])),
    ("message", StringRecord("TextField", false, [])),
    ("followUpNote", StringRecord("RichTextEditor", false, [])),
    ("status", StringRecord("SelectEnumInputField", false, ["pending", "followed-up"])),
    ("seo", Nested(SeoMetadata))]

  // Each declared String path is plain, one path at a time.
  lemma MetaTitlePlain() ensures PlainString(MetaTitlePath) { StringPathPlain("metaTitle", false); }
  lemma MetaDescriptionPlain() ensures PlainString(MetaDescriptionPath) { StringPathPlain("metaDescription", false); }
  lemma OgTitlePlain() ensures PlainString(OgTitlePath) { StringPathPlain("ogTitle", false); }
  lemma OgDescriptionPlain() ensures PlainString(OgDescriptionPath) { StringPathPlain("ogDescription", false); }
  lemma CanonicalUrlPlain() ensures PlainString(CanonicalUrlPath) { StringPathPlain("canonicalUrl", false); }

  lemma SeoPlain()
    ensures WellFormed(SeoSchema)
    ensures forall i :: 0 <= i < |SeoSchema.paths| ==> PlainString(SeoSchema.paths[i])
  {
    MetaTitlePlain();
    MetaDescriptionPlain();
    OgTitlePlain();
    OgDescriptionPlain();
    CanonicalUrlPlain();
    forall i | 0 <= i < |SeoSchema.paths| ensures PlainString(SeoSchema.paths[i]) {
      assert i == 0 || i == 1 || i == 2 || i == 3 || i == 4;
    }
  }

  lemma {:induction false} SeoEntriesAt()
    ensures WellFormed(SeoSchema)
    ensures var e := Entries(SeoSchema, 5, "seo", ContactPlugin);
      |e| == 5 && forall i :: 0 <= i < 5 ==> e[i] == SeoMetadata[i]
  {
    SeoPlain();
    StringEntries(SeoSchema, 5, "seo", ContactOptions);
    var e := Entries(SeoSchema, 5, "seo", ContactPlugin);
    forall i | 0 <= i < 5 ensures e[i] == SeoMetadata[i] {
      assert i == 0 || i == 1 || i == 2 || i == 3 || i == 4;
    }
  }

  lemma {:induction false} SeoEntries()
    ensures WellFormed(SeoSchema)
    ensures Entries(SeoSchema, 5, "seo", ContactPlugin) == SeoMetadata
  {
    SeoEntriesAt();
    SameEntries(Entries(SeoSchema, 5, "seo", ContactPlugin), SeoMetadata);
  }

  /** The flat override of each declared String path. */
  lemma ContactFlatTypes()
    ensures var m := ContactOptions.defaultComponentOverrides;
      && FlatComponentType(m, "name") == "TextField"
      && FlatComponentType(m, "phone") == "TextField"
      && FlatComponentType(m, "address") == "TextField"
      && FlatComponentType(m, "message") == "TextField"
      && FlatComponentType(m, "followUpNote") == "RichTextEditor"
      && FlatComponentType(m, "status") == "SelectEnumInputField"
  {
  }

  lemma ContactWellFormed()
    ensures WellFormed(Schema(ContactPaths))
  {
    SeoPlain();
    assert forall i :: 0 <= i < |ContactPaths| ==> WellFormedField(ContactPaths[i]);
  }

  lemma NamePlain() ensures PlainString(NamePath) { StringPathPlain("name", true); }
  lemma PhonePlain() ensures PlainString(PhonePath) { StringPathPlain("phone", true); }
  lemma AddressPlain() ensures PlainString(AddressPath) { StringPathPlain("address", true); }
  lemma MessagePlain() ensures PlainString(MessagePath) { StringPathPlain("message", false); }
  lemma FollowUpNotePlain() ensures PlainString(FollowUpNotePath) { StringPathPlain("followUpNote", false); }
  lemma StatusPlain() ensures PlainString(StatusPath) { assert StatusPath.name == "status"; }

  lemma ContactPlain()
    ensures forall i :: 0 <= i < 6 ==> PlainString(ContactPaths[i])
  {
    NamePlain();
    PhonePlain();
    AddressPlain();
    MessagePlain();
    FollowUpNotePlain();
    StatusPlain();
    forall i | 0 <= i < 6 ensures PlainString(ContactPaths[i]) {
      assert i == 0 || i == 1 || i == 2 || i == 3 || i == 4 || i == 5;
    }
  }

  lemma {:induction false} ContactEntriesAt()
    ensures WellFormed(Schema(ContactPaths))
    ensures var e := Entries(Schema(ContactPaths), 6, "", ContactPlugin);
      |e| == 6 && forall i :: 0 <= i < 6 ==> e[i] == ContactMetadata[i]
  {
    ContactWellFormed();
    ContactPlain();
    ContactFlatTypes();
    StringEntries(Schema(ContactPaths), 6, "", ContactOptions);
    var e := Entries(Schema(ContactPaths), 6, "", ContactPlugin);
    forall i | 0 <= i < 6 ensures e[i] == ContactMetadata[i] {
      assert i == 0 || i == 1 || i == 2 || i == 3 || i == 4 || i == 5;
    }
  }

  /** The seven declared paths give exactly the expected metadata. */
  lemma {:induction false} ContactDeclaredMetadata()
    ensures WellFormed(Schema(ContactPaths))
    ensures Entries(Schema(ContactPaths), 7, "", ContactPlugin) == ContactMetadata
  {
    var s := Schema(ContactPaths);
    var p := ContactPlugin;
    ContactEntriesAt();
    SameEntries(Entries(s, 6, "", p), ContactMetadata[..6]);
    SeoFieldMeta();
    assert s.paths[6] == SeoPath;
    EntriesStep(s, 7, "", p);
    assert ContactMetadata == ContactMetadata[..6] + [("seo", Nested(SeoMetadata))];
  }

  /** The `seo` path is kept and nests the five `seoSchema` records. */
  lemma SeoFieldMeta()
    ensures WellFormedField(SeoPath) && !Excluded(SeoPath.name) && SeoPath.name == "seo"
    ensures FieldMeta(SeoPath, "", ContactPlugin) == Nested(SeoMetadata)
  {
    SeoKept();
    SeoEntries();
  }

  lemma SeoKept()
    ensures WellFormedField(SeoPath) && !Excluded(SeoPath.name) && SeoPath.name == "seo"
    ensures HasSubSchema(SeoPath) && !IsSubdocArray(SeoPath) && SeoPath.schema == Some(SeoSchema)
  {
    SeoPlain();
  }

  /**
   * The ContactUs metadata: the declared fields in order, name, phone and
   * address required, status with its enum and the select component,
   * followUpNote with the rich text editor, seo nested with its five keys,
   * and none of the added paths.
   */
  lemma {:induction false} ContactFieldMetadata(added: seq<Field>)
    requires WellFormed(Schema(added)) && forall i :: 0 <= i < |added| ==> Excluded(added[i].name)
    ensures WellFormed(Schema(ContactPaths + added))
    ensures FieldMetadata(Schema(ContactPaths + added), ContactPlugin) == ContactMetadata
  {
    ContactDeclaredMetadata();
    WellFormedAppend(ContactPaths, added);
    ExcludedTail(ContactPaths, added, "", ContactPlugin);
  }

  /** `ContactUs.getFieldMetadata()` on the full schema, with the paths Mongoose and the plugins add. */
  lemma ContactUsMetadata()
    ensures WellFormed(ContactUsSchema)
    ensures FieldMetadata(ContactUsSchema, ContactPlugin) == ContactMetadata
  {
    AddedPathsExcluded();
    ContactFieldMetadata(AddedPaths);
  }

  /** Entry-wise equal metadata lists are equal. */
  lemma SameEntries(a: seq<(string, Meta)>, b: seq<(string, Meta)>)
    requires |a| == |b| && forall i :: 0 <= i < |a| ==> a[i] == b[i]
    ensures a == b
  {
  }

  /** Every table column is a top-level key of the metadata. */
  lemma TableFieldsInMetadata(added: seq<Field>)
    requires WellFormed(Schema(added)) && forall i :: 0 <= i < |added| ==> Excluded(added[i].name)
    ensures WellFormed(Schema(ContactPaths + added))
    ensures forall k :: k in TableFields ==> k in Keys(FieldMetadata(Schema(ContactPaths + added), ContactPlugin))
  {
    ContactFieldMetadata(added);
    var ks := Keys(ContactMetadata);
    assert ks[0] == "name" && ks[1] == "phone" && ks[2] == "address" && ks[5] == "status";
  }

}
