/**
 * The request validators of the user routes
 * (src/user/validator/user_validator.ts), written as the chains they
 * declare, and what each chain accepts and reports.
 */
module UserValidator {
  import opened Validation

  /** The class of `/[A-Z]/`. */
  const Uppercase: seq<char> := "ABCDEFGHIJKLMNOPQRSTUVWXYZ"
  /** The class of `/[!@#$%^&*(),.?":{}|<>]/`. */
  const Symbols: seq<char> := "!@#$%^&*(),.?\":{}|<>"
  const Roles: seq<string> := ["user", "superadmin"]

  const LengthMessage := "Password must be at least 6 characters long"
  const UppercaseMessage := "Password must contain at least one uppercase letter"
  const SymbolMessage := "Password must contain at least one symbol"
  const RoleMessage := "Role must be user or superadmin"

  // createUserValidator
  const CreateName := Chain(BodyOnly, "name", false, [Check(NotEmpty, "Name is required"), Bail])
  const CreatePassword := Chain(BodyOnly, "password", false,
    [Check(NotEmpty, "Password is required"), Bail,
     Check(LengthAtLeast(6), LengthMessage), Bail,
     Check(ContainsOneOf(Uppercase), UppercaseMessage), Bail,
     Check(ContainsOneOf(Symbols), SymbolMessage)])
  const CreateEmail := Chain(BodyOnly, "email", false,
    [Check(IsEmail, "Invalid email address"), Bail, Check(EmailNotTaken, "Email already exists")])
  const CreateRole := Chain(BodyOnly, "role", false, [Check(IsIn(Roles), RoleMessage)])
  const CreateUserValidator: seq<Chain> := [CreateName, CreatePassword, CreateEmail, CreateRole]

  // updateUserValidator
  const UpdateName := Chain(BodyOnly, "name", true, [Check(NotEmpty, "Name is required"), Bail])
  const UpdateEmail := Chain(BodyOnly, "email", true,
    [Check(IsEmail, "Invalid email address"), Bail, Check(EmailNotTaken, "Email already exists")])
  const UpdatePassword := Chain(BodyOnly, "password", true,
    [Check(LengthAtLeast(6), LengthMessage), Bail,
     Check(ContainsOneOf(Uppercase), UppercaseMessage), Bail,
     Check(ContainsOneOf(Symbols), SymbolMessage)])
  const UpdateRole := Chain(BodyOnly, "role", true, [Check(IsIn(Roles), RoleMessage)])
  const UpdateUserValidator: seq<Chain> := [UpdateName, UpdateEmail, UpdatePassword, UpdateRole]

  // loginUserValidator
  const LoginEmail := Chain(BodyOnly, "email", false,
    [Check(NotEmpty, "Email is required"), Bail, Check(IsEmail, "Invalid email address")])
  const LoginPassword := Chain(BodyOnly, "password", false, [Check(NotEmpty, "Password is required")])
  const LoginUserValidator: seq<Chain> := [LoginEmail, LoginPassword]

  // refreshTokenValidator
  const RefreshToken := Chain(BodyOnly, "refreshToken", false, [Check(NotEmpty, "Refresh token is required")])
  const RefreshTokenValidator: seq<Chain> := [RefreshToken]

  // changePasswordValidator
  const CurrentPassword := Chain(BodyOnly, "currentPassword", false, [Check(NotEmpty, "Current password is required")])
  const NewPassword := Chain(BodyOnly, "newPassword", false,
    [Check(NotEmpty, "New password is required"), Bail,
     Check(LengthAtLeast(6), LengthMessage), Bail,
     Check(ContainsOneOf(Uppercase), UppercaseMessage), Bail,
     Check(ContainsOneOf(Symbols), SymbolMessage)])
  const ChangePasswordValidator: seq<Chain> := [CurrentPassword, NewPassword]

  // ---------------------------------------------------------------------
  // Reference definitions.

  predicate HasUppercase(p: string)
  {
    exists i :: 0 <= i < |p| && 'A' <= p[i] <= 'Z'
  }

  predicate HasSymbol(p: string)
  {
    exists i :: 0 <= i < |p| && p[i] in Symbols
  }

  /** The password strength the rules enforce, length as `isLength` measures it. */
  predicate StrongPassword(p: string)
  {
    Length(p) >= 6 && HasUppercase(p) && HasSymbol(p)
  }

  /** The strength rules in order, each reported only if the ones before it passed. */
  function StrengthFailure(p: string): seq<string>
  {
    if Length(p) < 6 then [LengthMessage]
    else if !HasUppercase(p) then [UppercaseMessage]
    else if !HasSymbol(p) then [SymbolMessage]
    else []
  }

  /** A required password: present and non-empty before the strength rules. */
  function PasswordFailure(p: string, requiredMessage: string): seq<string>
  {
    if p == "" then [requiredMessage] else StrengthFailure(p)
  }

  function StrengthChecks(): seq<(Validator, string)>
  {
    [(LengthAtLeast(6), LengthMessage)] + ([(ContainsOneOf(Uppercase), UppercaseMessage)] + [(ContainsOneOf(Symbols), SymbolMessage)])
  }

  /** The strength checks, written as `isLength().bail().matches().bail().matches()`. */
  lemma StrengthSteps()
    ensures Bailed(StrengthChecks()) ==
      [Check(LengthAtLeast(6), LengthMessage), Bail,
       Check(ContainsOneOf(Uppercase), UppercaseMessage), Bail,
       Check(ContainsOneOf(Symbols), SymbolMessage)]
  {
    var c3: seq<(Validator, string)> := [(ContainsOneOf(Symbols), SymbolMessage)];
    assert Bailed(c3) == [Check(ContainsOneOf(Symbols), SymbolMessage)];
    BailedCons((ContainsOneOf(Uppercase), UppercaseMessage), c3);
    BailedCons((LengthAtLeast(6), LengthMessage), [(ContainsOneOf(Uppercase), UppercaseMessage)] + c3);
  }

  lemma {:induction false} UppercaseClass(p: string)
    ensures ContainsAny(p, Uppercase) <==> HasUppercase(p)
  {
    if ContainsAny(p, Uppercase) {
      var i :| 0 <= i < |p| && p[i] in Uppercase;
      var k :| 0 <= k < |Uppercase| && Uppercase[k] == p[i];
      assert 'A' <= Uppercase[k] <= 'Z';
    }
    if HasUppercase(p) {
      var i :| 0 <= i < |p| && 'A' <= p[i] <= 'Z';
      assert Uppercase[p[i] as int - 'A' as int] == p[i];
    }
  }

  lemma {:induction false} StrengthFirstFailure(p: string, o: Oracles)
    ensures FirstFailure(StrengthChecks(), p, o) == StrengthFailure(p)
  {
    UppercaseClass(p);
    var c3: seq<(Validator, string)> := [(ContainsOneOf(Symbols), SymbolMessage)];
    var c2 := [(ContainsOneOf(Uppercase), UppercaseMessage)] + c3;
    FirstFailureCons((LengthAtLeast(6), LengthMessage), c2, p, o);
    FirstFailureCons((ContainsOneOf(Uppercase), UppercaseMessage), c3, p, o);
    FirstFailureCons((ContainsOneOf(Symbols), SymbolMessage), [], p, o);
    assert c3 == [(ContainsOneOf(Symbols), SymbolMessage)] + [];
  }

  // ---------------------------------------------------------------------
  // What the chains report.

  /**
   * The create password chain checks non-empty, then length at least 6,
   * then an ASCII uppercase letter, then a symbol, and reports only the
   * first rule that fails.
   */
  lemma {:induction false} CreatePasswordFirstFailure(req: Request, o: Oracles)
    ensures RunChain(CreatePassword, req, o) ==
      Errors("password", PasswordFailure(ValueOf(req.body, "password"), "Password is required"))
  {
    BodyChain(CreatePassword, req, o);
    var p := ValueOf(req.body, "password");
    var cs := [(NotEmpty, "Password is required")] + StrengthChecks();
    StrengthSteps();
    BailedCons((NotEmpty, "Password is required"), StrengthChecks());
    assert Bailed(cs) == CreatePassword.steps;
    BailedReportsFirstFailure(cs, "password", p, o);
    FirstFailureCons((NotEmpty, "Password is required"), StrengthChecks(), p, o);
    StrengthFirstFailure(p, o);
    assert FirstFailure(cs, p, o) == PasswordFailure(p, "Password is required");
  }

  /** The new password of a password change obeys the same rules, with its own 'required' message. */
  lemma {:induction false} NewPasswordFirstFailure(req: Request, o: Oracles)
    ensures RunChain(NewPassword, req, o) ==
      Errors("newPassword", PasswordFailure(ValueOf(req.body, "newPassword"), "New password is required"))
  {
    BodyChain(NewPassword, req, o);
    var p := ValueOf(req.body, "newPassword");
    var cs := [(NotEmpty, "New password is required")] + StrengthChecks();
    StrengthSteps();
    BailedCons((NotEmpty, "New password is required"), StrengthChecks());
    assert Bailed(cs) == NewPassword.steps;
    BailedReportsFirstFailure(cs, "newPassword", p, o);
    FirstFailureCons((NotEmpty, "New password is required"), StrengthChecks(), p, o);
    StrengthFirstFailure(p, o);
    assert FirstFailure(cs, p, o) == PasswordFailure(p, "New password is required");
  }

  /**
   * On update the password is optional; when given, the strength rules
   * apply in the same order (an empty password fails the length rule).
   */
  lemma {:induction false} UpdatePasswordFirstFailure(req: Request, o: Oracles)
    ensures RunChain(UpdatePassword, req, o) ==
      if "password" in req.body then Errors("password", StrengthFailure(req.body["password"])) else []
  {
    BodyChain(UpdatePassword, req, o);
    if "password" in req.body {
      StrengthSteps();
      BailedReportsFirstFailure(StrengthChecks(), "password", req.body["password"], o);
      StrengthFirstFailure(req.body["password"], o);
    }
  }

  /**
   * All three password chains accept exactly the strong passwords: length at
   * least 6, an uppercase letter and a symbol.
   */
  lemma PasswordChainsAgree(req: Request, o: Oracles)
    ensures RunChain(CreatePassword, req, o) == [] <==> StrongPassword(ValueOf(req.body, "password"))
    ensures RunChain(NewPassword, req, o) == [] <==> StrongPassword(ValueOf(req.body, "newPassword"))
    ensures "password" in req.body ==> (RunChain(UpdatePassword, req, o) == [] <==> StrongPassword(req.body["password"]))
  {
    CreatePasswordFirstFailure(req, o);
    NewPasswordFirstFailure(req, o);
    UpdatePasswordFirstFailure(req, o);
  }

  /** The role must be 'user' or 'superadmin' on create (an absent role fails); on update only when given. */
  lemma RoleRules(req: Request, o: Oracles)
    ensures RunChain(CreateRole, req, o) == [] <==> "role" in req.body && req.body["role"] in Roles
    ensures RunChain(CreateRole, req, o) != [] ==> RunChain(CreateRole, req, o) == [FieldError("role", RoleMessage)]
    ensures RunChain(UpdateRole, req, o) == [] <==> "role" !in req.body || req.body["role"] in Roles
  {
    BodyChain(CreateRole, req, o);
    BodyChain(UpdateRole, req, o);
    assert "" !in Roles;
    SingleCheck(IsIn(Roles), RoleMessage, "role", ValueOf(req.body, "role"), o, false);
  }

  /** The email of a new user must be valid, and only a valid one is checked for uniqueness. */
  lemma CreateEmailRules(req: Request, o: Oracles)
    ensures var e := ValueOf(req.body, "email");
      RunChain(CreateEmail, req, o) ==
        if !o.isEmail(e) then [FieldError("email", "Invalid email address")]
        else if o.emailTaken(e) then [FieldError("email", "Email already exists")]
        else []
  {
    BodyChain(CreateEmail, req, o);
    var e := ValueOf(req.body, "email");
    var c2: seq<(Validator, string)> := [(EmailNotTaken, "Email already exists")];
    assert Bailed(c2) == [Check(EmailNotTaken, "Email already exists")];
    BailedCons((IsEmail, "Invalid email address"), c2);
    BailedReportsFirstFailure([(IsEmail, "Invalid email address")] + c2, "email", e, o);
    FirstFailureCons((IsEmail, "Invalid email address"), c2, e, o);
    FirstFailureCons((EmailNotTaken, "Email already exists"), [], e, o);
    assert c2 == [(EmailNotTaken, "Email already exists")] + [];
    assert Bailed([(IsEmail, "Invalid email address")] + c2) == CreateEmail.steps;
    ErrorsSingle("email", "Invalid email address");
    ErrorsSingle("email", "Email already exists");
  }

  /** A user can be created exactly when every field rule holds. */
  lemma {:induction false} CreateUserAccepted(req: Request, o: Oracles)
    ensures RunAll(CreateUserValidator, req, o) == [] <==>
      && ValueOf(req.body, "name") != ""
      && StrongPassword(ValueOf(req.body, "password"))
      && o.isEmail(ValueOf(req.body, "email")) && !o.emailTaken(ValueOf(req.body, "email"))
      && "role" in req.body && req.body["role"] in Roles
  {
    BodyChain(CreateName, req, o);
    var v := CreateUserValidator;
    RunAllEmpty(v, req, o);
    if RunChain(CreateName, req, o) == [] && RunChain(CreatePassword, req, o) == []
       && RunChain(CreateEmail, req, o) == [] && RunChain(CreateRole, req, o) == [] {
      forall i | 0 <= i < |v| ensures RunChain(v[i], req, o) == [] {
        assert i == 0 || i == 1 || i == 2 || i == 3;
      }
    }
    assert v[0] == CreateName && v[1] == CreatePassword && v[2] == CreateEmail && v[3] == CreateRole;
    PasswordChainsAgree(req, o);
    CreateEmailRules(req, o);
    RoleRules(req, o);
    SingleCheckBail(NotEmpty, "Name is required", "name", ValueOf(req.body, "name"), o);
  }

  /** Every update field is optional: a request whose body holds none of them passes. */
  lemma {:induction false} UpdateEmptyBody(req: Request, o: Oracles)
    requires req.body == map[]
    ensures RunAll(UpdateUserValidator, req, o) == []
  {
    RunAllEmpty(UpdateUserValidator, req, o);
    forall i | 0 <= i < |UpdateUserValidator| ensures RunChain(UpdateUserValidator[i], req, o) == [] {
      BodyChain(UpdateUserValidator[i], req, o);
    }
  }

  /** Login: an empty email reports only 'Email is required'; a non-empty one must be valid. */
  lemma LoginRules(req: Request, o: Oracles)
    ensures var e := ValueOf(req.body, "email");
      RunChain(LoginEmail, req, o) ==
        if e == "" then [FieldError("email", "Email is required")]
        else if !o.isEmail(e) then [FieldError("email", "Invalid email address")]
        else []
    ensures RunChain(LoginPassword, req, o) == [] <==> ValueOf(req.body, "password") != ""
  {
    BodyChain(LoginEmail, req, o);
    BodyChain(LoginPassword, req, o);
    var e := ValueOf(req.body, "email");
    var c2: seq<(Validator, string)> := [(IsEmail, "Invalid email address")];
    assert Bailed(c2) == [Check(IsEmail, "Invalid email address")];
    BailedCons((NotEmpty, "Email is required"), c2);
    BailedReportsFirstFailure([(NotEmpty, "Email is required")] + c2, "email", e, o);
    FirstFailureCons((NotEmpty, "Email is required"), c2, e, o);
    FirstFailureCons((IsEmail, "Invalid email address"), [], e, o);
    assert c2 == [(IsEmail, "Invalid email address")] + [];
    assert Bailed([(NotEmpty, "Email is required")] + c2) == LoginEmail.steps;
    ErrorsSingle("email", "Email is required");
    ErrorsSingle("email", "Invalid email address");
    SingleCheck(NotEmpty, "Password is required", "password", ValueOf(req.body, "password"), o, false);
  }

  /** A refresh needs a non-empty refresh token. */
  lemma RefreshRules(req: Request, o: Oracles)
    ensures RunAll(RefreshTokenValidator, req, o) == [] <==> "refreshToken" in req.body && req.body["refreshToken"] != ""
  {
    BodyChain(RefreshToken, req, o);
    RunAllEmpty(RefreshTokenValidator, req, o);
    SingleCheck(NotEmpty, "Refresh token is required", "refreshToken", ValueOf(req.body, "refreshToken"), o, false);
  }

  /**
   * `isLength` does not count presentation selectors: a password of six
   * code points, two of them U+FE0F, is too short.
   */
  lemma SelectorsNotCounted(req: Request, o: Oracles)
    requires req.body == map["password" := "Ab!x\U{FE0F}\U{FE0F}"]
    ensures |req.body["password"]| == 6 && !StrongPassword(req.body["password"])
    ensures RunChain(CreatePassword, req, o) == [FieldError("password", LengthMessage)]
  {
    var p := req.body["password"];
    assert Length(p[4..]) == 0 by {
      assert p[4..][1..] == p[5..] && p[5..][1..] == [];
    }
    assert Length(p) == 4 by {
      assert p[1..][1..][1..][1..] == p[4..];
    }
    CreatePasswordFirstFailure(req, o);
    ErrorsSingle("password", LengthMessage);
  }
}
