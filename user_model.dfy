/**
 * The User model (src/user/model/user_model.ts): its schema as the
 * metadata plugin sees it, the plugin options it registers, its constant
 * statics and its `toJSON` projection, which leaves the password out.
 */
module UserModel {
  import opened Wrappers
  import opened Overrides
  import opened Metadata
  import opened ModelPaths
  import J = Json
  import UserValidator

  const NamePath := StringPath("name", true)
  /** `email` is also declared `unique`, which the plugin does not read. */
  const EmailPath := StringPath("email", true)
  const PasswordPath := StringPath("password", true)
  /** `role`: a String defaulting to 'user'. */
  const RolePath := Field("role", String, None, false, None, [], Some("user"), None, PlainType)

  /** The paths `userSchema` declares, in declaration order. */
  const UserPaths: seq<Field> := [NamePath, EmailPath, PasswordPath, RolePath]

  /** `userSchema` with the paths Mongoose and the plugins add after the declared ones. */
  const UserSchema := Schema(UserPaths + AddedPaths)

  const UserOptions := PluginOptions(map["email" := Leaf("Email"), "password" := Leaf("Password")], map[])

  const UserPlugin := Register(UserOptions)

  /** `getTableFields`. */
  const TableFields: seq<string> := ["name", "email", "role"]
  /** `getSingleInstanceState`. */
  const SingleInstanceState := false

  /** The keys of `ret` the transform reads. */
  const ReadKeys: seq<string> := ["_id", "name", "email", "role", "createdAt", "updatedAt"]

  /** The keys of the object the transform returns. */
  const JsonKeys: seq<string> := ["object", "id", "name", "email", "role", "created_date", "updated_date"]

  /** The `toJSON` transform; `format` is moment's formatting. */
  function ToJson(ret: J.Json, format: J.Json -> string): J.Json
  {
    J.Obj([
      ("object", J.Str("users")),
      ("id", J.Get(ret, "_id")),
      ("name", J.Get(ret, "name")),
      ("email", J.Get(ret, "email")),
      ("role", J.Get(ret, "role")),
      ("created_date", J.FormattedDate(J.Get(ret, "createdAt"), format)),
      ("updated_date", J.FormattedDate(J.Get(ret, "updatedAt"), format))])
  }

  /** The role default is one of the roles the create validator accepts. */
  lemma RoleDefault()
    ensures var f := UserPaths[3];
      f.name == "role" && !f.isRequired && f.defaultValue == Some("user") && f.defaultValue.value in UserValidator.Roles
  {
  }

  /** Name, email and password are required; role is not. */
  lemma RequiredPaths()
    ensures forall i :: 0 <= i < |UserPaths| ==> (UserPaths[i].isRequired <==> i < 3)
    ensures UserPaths[0].name == "name" && UserPaths[1].name == "email" && UserPaths[2].name == "password"
  {
  }

  /** `toJSON` returns exactly the fixed keys, in order, and `password` is not one of them. */
  lemma ToJsonKeys(ret: J.Json, format: J.Json -> string)
    ensures J.Keys(ToJson(ret, format)) == JsonKeys
    ensures "password" !in J.Keys(ToJson(ret, format))
  {
  }

  /** It tags the object 'users', renames `_id` to `id` and copies name, email and role. */
  lemma {:induction false} ToJsonFields(ret: J.Json, format: J.Json -> string)
    ensures var out := ToJson(ret, format);
      && J.Get(out, "object") == J.Str("users")
      && J.Get(out, "id") == J.Get(ret, "_id")
      && J.Get(out, "name") == J.Get(ret, "name")
      && J.Get(out, "email") == J.Get(ret, "email")
      && J.Get(out, "role") == J.Get(ret, "role")
  {
    var out := ToJson(ret, format);
    J.GetAt(out, 0);
    J.GetAt(out, 1);
    J.GetAt(out, 2);
    J.GetAt(out, 3);
    J.GetAt(out, 4);
  }

  /** `toJSON` reads only its listed keys: writing any other key of `ret` changes nothing. */
  lemma {:induction false} ToJsonReadsOnly(ret: J.Json, k: string, x: J.Json, format: J.Json -> string)
    requires ret.Obj? && k !in ReadKeys
    ensures ToJson(J.Put(ret, k, x), format) == ToJson(ret, format)
  {
    forall r | r in ReadKeys ensures J.Get(J.Put(ret, k, x), r) == J.Get(ret, r) {
      J.GetPut(ret, k, x, r);
    }
  }

  /** In particular the stored password never reaches the output. */
  lemma {:induction false} ToJsonHidesPassword(ret: J.Json, x: J.Json, format: J.Json -> string)
    requires ret.Obj?
    ensures ToJson(J.Put(ret, "password", x), format) == ToJson(ret, format)
  {
    ToJsonReadsOnly(ret, "password", x, format);
  }
}
