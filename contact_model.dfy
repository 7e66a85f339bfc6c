/**
 * The ContactUs model (src/user/partial/contact/model/contact_model.ts): its
 * schema as the metadata plugin sees it, the plugin options it registers,
 * its constant statics and its `toJSON` projection.
 */
module ContactModel {
  import opened Wrappers
  import opened Overrides
  import opened Metadata
  import opened ModelPaths
  import J = Json
  import ContactValidator

  /** `ContactUsStatus`. */
  datatype ContactUsStatus = Pending | FollowedUp

  function StatusValue(s: ContactUsStatus): string
  {
    match s
    case Pending => "pending"
    case FollowedUp => "followed-up"
  }

  /** The enum member with a given value, if any. */
  function ParseStatus(v: string): Option<ContactUsStatus>
  {
    if v == "pending" then Some(Pending)
    else if v == "followed-up" then Some(FollowedUp)
    else None
  }

  /** `Object.values(ContactUsStatus)`, in declaration order. */
  const StatusEnum: seq<string> := [StatusValue(Pending), StatusValue(FollowedUp)]

  const MetaTitlePath := StringPath("metaTitle", false)
  const MetaDescriptionPath := StringPath("metaDescription", false)
  const OgTitlePath := StringPath("ogTitle", false)
  const OgDescriptionPath := StringPath("ogDescription", false)
  const CanonicalUrlPath := StringPath("canonicalUrl", false)

  /** `seoSchema`, declared with `_id: false`, so it has no `_id` path. */
  const SeoSchema := Schema([MetaTitlePath, MetaDescriptionPath, OgTitlePath, OgDescriptionPath, CanonicalUrlPath])

  const NamePath := StringPath("name", true)
  const PhonePath := StringPath("phone", true)
  const AddressPath := StringPath("address", true)
  const MessagePath := StringPath("message", false)
  const FollowUpNotePath := StringPath("followUpNote", false)
  /** `status`: a String with the enum's values and default `pending`. */
  const StatusPath := Field("status", String, None, false, None, StatusEnum, Some(StatusValue(Pending)), None, PlainType)
  /** `seo`: a single nested `seoSchema`. */
  const SeoPath := Field("seo", Embedded, None, false, None, [], None, Some(SeoSchema), PlainType)

  /** The paths `ContactUsSchema` declares, in declaration order. */
  const ContactPaths: seq<Field> :=
    [NamePath, PhonePath, AddressPath, MessagePath, FollowUpNotePath, StatusPath, SeoPath]

  /** `ContactUsSchema` with the paths Mongoose and the plugins add after the declared ones. */
  const ContactUsSchema := Schema(ContactPaths + AddedPaths)

  const ContactOptions := PluginOptions(
    map["status" := Leaf("SelectEnumInputField"), "followUpNote" := Leaf("RichTextEditor")],
    map[])

  const ContactPlugin := Register(ContactOptions)

  /** `getTableFields`. */
  const TableFields: seq<string> := ["name", "phone", "address", "status"]
  /** `getSingleInstanceState`. */
  const SingleInstanceState := false
  /** `getViewOnlyFields`. */
  const ViewOnlyFields := true

  /** The keys of `ret` the transform reads. */
  const ReadKeys: seq<string> :=
    ["_id", "name", "phone", "address", "message", "followUpNote", "status", "seo", "createdAt", "updatedAt"]

  /** The keys of the object the transform returns. */
  const JsonKeys: seq<string> :=
    ["object", "id", "name", "phone", "address", "message", "followUpNote", "status", "seo",
     "created_date", "updated_date"]

  /** The `toJSON` transform; `format` is moment's formatting. */
  function ToJson(ret: J.Json, format: J.Json -> string): J.Json
  {
    J.Obj([
      ("object", J.Str("contacts")),
      ("id", J.Get(ret, "_id")),
      ("name", J.Get(ret, "name")),
      ("phone", J.Get(ret, "phone")),
      ("address", J.Get(ret, "address")),
      ("message", J.Get(ret, "message")),
      ("followUpNote", J.Get(ret, "followUpNote")),
      ("status", J.Get(ret, "status")),
      ("seo", J.Or(J.Get(ret, "seo"), J.Obj([]))),
      ("created_date", J.FormattedDate(J.Get(ret, "createdAt"), format)),
      ("updated_date", J.FormattedDate(J.Get(ret, "updatedAt"), format))])
  }

  // ---------------------------------------------------------------------
  // The status enum.

  /** The enum's values are exactly the statuses the update validator accepts, and parse back. */
  lemma {:induction false} StatusEnumAgrees(v: string)
    ensures StatusEnum == ContactValidator.StatusValues
    ensures v in StatusEnum <==> ParseStatus(v).Some?
    ensures ParseStatus(v).Some? ==> StatusValue(ParseStatus(v).value) == v
  {
    assert StatusEnum == ["pending", "followed-up"];
  }

  lemma {:induction false} StatusRoundTrip(s: ContactUsStatus)
    ensures ParseStatus(StatusValue(s)) == Some(s)
    ensures StatusValue(s) in StatusEnum
  {
    assert StatusEnum[0] == "pending" && StatusEnum[1] == "followed-up";
  }

  /** The status default is the enum's first value, so a new contact is valid. */
  lemma StatusDefault()
    ensures var f := ContactPaths[5];
      f.name == "status" && f.defaultValue == Some("pending") && f.defaultValue.value in f.enumValues
  {
    assert StatusEnum[0] == "pending";
  }

  // ---------------------------------------------------------------------
  // The projection.

  /** `toJSON` returns exactly the fixed keys, in order. */
  lemma ToJsonKeys(ret: J.Json, format: J.Json -> string)
    ensures J.Keys(ToJson(ret, format)) == JsonKeys
  {
  }

  /** It tags the object 'contacts', renames `_id` to `id` and copies `status`. */
  lemma ToJsonFields(ret: J.Json, format: J.Json -> string)
    ensures var out := ToJson(ret, format);
      && J.Get(out, "object") == J.Str("contacts")
      && J.Get(out, "id") == J.Get(ret, "_id")
      && J.Get(out, "status") == J.Get(ret, "status")
  {
    var out := ToJson(ret, format);
    J.GetAt(out, 0);
    J.GetAt(out, 1);
    J.GetAt(out, 7);
  }

  /** `seo` is never falsy: a falsy stored `seo` becomes `{}`. */
  lemma {:induction false} ToJsonSeo(ret: J.Json, format: J.Json -> string)
    ensures var out := ToJson(ret, format);
      && J.Truthy(J.Get(out, "seo"))
      && (J.Truthy(J.Get(ret, "seo")) ==> J.Get(out, "seo") == J.Get(ret, "seo"))
      && (!J.Truthy(J.Get(ret, "seo")) ==> J.Get(out, "seo") == J.Obj([]))
  {
    J.GetAt(ToJson(ret, format), 8);
  }

  /** A falsy `createdAt` gives an undefined `created_date`. */
  lemma {:induction false} ToJsonDates(ret: J.Json, format: J.Json -> string)
    ensures !J.Truthy(J.Get(ret, "createdAt")) ==> J.Get(ToJson(ret, format), "created_date") == J.Undefined
  {
    J.GetAt(ToJson(ret, format), 9);
  }

  /** `toJSON` reads only its listed keys: writing any other key of `ret` changes nothing. */
  lemma {:induction false} ToJsonReadsOnly(ret: J.Json, k: string, x: J.Json, format: J.Json -> string)
    requires ret.Obj? && k !in ReadKeys
    ensures ToJson(J.Put(ret, k, x), format) == ToJson(ret, format)
  {
    forall r | r in ReadKeys ensures J.Get(J.Put(ret, k, x), r) == J.Get(ret, r) {
      J.GetPut(ret, k, x, r);
    }
  }
}
