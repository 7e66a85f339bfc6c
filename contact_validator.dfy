/**
 * The request validators of the contact routes
 * (src/user/partial/contact/validator/contact_validator.ts): the chains they
 * declare and what each chain accepts and reports. Every chain is built
 * with `check()`, so it validates its field wherever the request holds it:
 * body, cookies, headers, params or query.
 */
module ContactValidator {
  import opened Validation

  const PhoneRequired := "Phone number is required"
  const PhoneNumeric := "Phone number must be numeric"
  const PhoneLength := "Phone number must be between 10 and 15 digits"
  const StatusRequired := "Status is required"
  const StatusMessage := "Status must be either pending, or followed-up"
  const FollowUpNoteRequired := "Follow up note is required"
  /** The `isIn` list of the status chain. */
  const StatusValues: seq<string> := ["pending", "followed-up"]

  // contactUsValidationRules
  const ContactName := Chain(Everywhere, "name", false, [Check(NotEmpty, "Name is required")])
  const ContactPhone := Chain(Everywhere, "phone", false,
    [Check(NotEmpty, PhoneRequired), Check(IsNumeric, PhoneNumeric), Check(LengthBetween(10, 15), PhoneLength)])
  const ContactAddress := Chain(Everywhere, "address", false, [Check(NotEmpty, "Address is required")])
  const ContactMessage := Chain(Everywhere, "message", true, [Check(NotEmpty, "Message is required")])
  const ContactUsValidationRules: seq<Chain> := [ContactName, ContactPhone, ContactAddress, ContactMessage]

  // updateStatus
  const Status := Chain(Everywhere, "status", true, [Check(NotEmpty, StatusRequired), Check(IsIn(StatusValues), StatusMessage)])
  const FollowUpNote := Chain(Everywhere, "followUpNote", true, [Check(NotEmpty, FollowUpNoteRequired), Bail])
  const UpdateStatus: seq<Chain> := [Status, FollowUpNote]

  // ---------------------------------------------------------------------
  // Reference definitions.

  const PhoneChecks: seq<(Validator, string)> :=
    [(NotEmpty, PhoneRequired), (IsNumeric, PhoneNumeric), (LengthBetween(10, 15), PhoneLength)]
  const StatusChecks: seq<(Validator, string)> := [(NotEmpty, StatusRequired), (IsIn(StatusValues), StatusMessage)]

  /** Every phone rule the value breaks, in declaration order: the chain has no bail. */
  function PhoneFailures(phone: string, o: Oracles): seq<string>
  {
    (if phone == "" then [PhoneRequired] else [])
    + (if o.isNumeric(phone) then [] else [PhoneNumeric])
    + (if 10 <= Length(phone) <= 15 then [] else [PhoneLength])
  }

  /** A phone number the chain accepts. */
  predicate PhoneOk(phone: string, o: Oracles)
  {
    phone != "" && o.isNumeric(phone) && 10 <= Length(phone) <= 15
  }

  /** Every status rule a given status breaks. */
  function StatusFailures(status: string): seq<string>
  {
    (if status == "" then [StatusRequired] else [])
    + (if status in StatusValues then [] else [StatusMessage])
  }

  // ---------------------------------------------------------------------
  // The chains' steps.

  lemma PhoneSteps()
    ensures ContactPhone.steps == Unbailed(PhoneChecks)
  {
    var c3: seq<(Validator, string)> := [(LengthBetween(10, 15), PhoneLength)];
    var c2 := [(IsNumeric, PhoneNumeric)] + c3;
    UnbailedCons((LengthBetween(10, 15), PhoneLength), []);
    UnbailedCons((IsNumeric, PhoneNumeric), c3);
    UnbailedCons((NotEmpty, PhoneRequired), c2);
    assert c3 == [(LengthBetween(10, 15), PhoneLength)] + [];
    assert PhoneChecks == [(NotEmpty, PhoneRequired)] + c2;
  }

  lemma StatusSteps()
    ensures Status.steps == Unbailed(StatusChecks)
  {
    var c2: seq<(Validator, string)> := [(IsIn(StatusValues), StatusMessage)];
    UnbailedCons((IsIn(StatusValues), StatusMessage), []);
    UnbailedCons((NotEmpty, StatusRequired), c2);
    assert c2 == [(IsIn(StatusValues), StatusMessage)] + [];
    assert StatusChecks == [(NotEmpty, StatusRequired)] + c2;
  }

  /** A chain of one `notEmpty()`, possibly followed by a bail, reports one error per empty instance. */
  lemma NotEmptyChain(c: Chain, msg: string, req: Request, o: Oracles)
    requires c.steps == [Check(NotEmpty, msg)] || c.steps == [Check(NotEmpty, msg), Bail]
    ensures RunChain(c, req, o) == Failing(NotEmpty, msg, c.field, Instances(c, req), o)
    ensures RunChain(c, req, o) == [] <==> forall v :: v in Instances(c, req) ==> v != ""
  {
    var checks := [(NotEmpty, msg)];
    UnbailedCons((NotEmpty, msg), []);
    assert checks == [(NotEmpty, msg)] + [];
    assert [Check(NotEmpty, msg), Bail] == Unbailed(checks) + [Bail];
    UnbailedChain(c, checks, req, o);
    assert checks[1..] == [];
    assert FailuresOver(checks, c.field, Instances(c, req), o) ==
      Failing(NotEmpty, msg, c.field, Instances(c, req), o) + [];
    FailingFacts(NotEmpty, msg, c.field, Instances(c, req), o);
  }

  /** What the phone chain reports on one value. */
  lemma {:induction false} PhoneOne(v: string, o: Oracles)
    ensures RunSteps(ContactPhone.steps, "phone", v, o, false) == Errors("phone", PhoneFailures(v, o))
  {
    var c3: seq<(Validator, string)> := [(LengthBetween(10, 15), PhoneLength)];
    var c2 := [(IsNumeric, PhoneNumeric)] + c3;
    PhoneSteps();
    assert PhoneChecks == [(NotEmpty, PhoneRequired)] + c2;
    UnbailedReportsAllFailures(PhoneChecks, "phone", v, o, false);
    AllFailuresCons((NotEmpty, PhoneRequired), c2, v, o);
    AllFailuresCons((IsNumeric, PhoneNumeric), c3, v, o);
    AllFailuresCons((LengthBetween(10, 15), PhoneLength), [], v, o);
    assert c3 == [(LengthBetween(10, 15), PhoneLength)] + [];
    assert AllFailures(PhoneChecks, v, o) == PhoneFailures(v, o);
  }

  /** What the status chain reports on one value. */
  lemma {:induction false} StatusOne(v: string, o: Oracles)
    ensures RunSteps(Status.steps, "status", v, o, false) == Errors("status", StatusFailures(v))
  {
    var c2: seq<(Validator, string)> := [(IsIn(StatusValues), StatusMessage)];
    StatusSteps();
    assert StatusChecks == [(NotEmpty, StatusRequired)] + c2;
    UnbailedReportsAllFailures(StatusChecks, "status", v, o, false);
    AllFailuresCons((NotEmpty, StatusRequired), c2, v, o);
    AllFailuresCons((IsIn(StatusValues), StatusMessage), [], v, o);
    assert c2 == [(IsIn(StatusValues), StatusMessage)] + [];
    assert AllFailures(StatusChecks, v, o) == StatusFailures(v);
  }

  // ---------------------------------------------------------------------
  // What the chains report.

  /**
   * Name and address are required: every empty instance is reported with
   * its message, and a field that no location holds is reported once.
   */
  lemma NameAddressRules(req: Request, o: Oracles)
    ensures RunChain(ContactName, req, o) == Failing(NotEmpty, "Name is required", "name", Instances(ContactName, req), o)
    ensures RunChain(ContactName, req, o) == [] <==> forall v :: v in Instances(ContactName, req) ==> v != ""
    ensures Present(req, Everywhere, "name") == [] ==> RunChain(ContactName, req, o) == [FieldError("name", "Name is required")]
    ensures RunChain(ContactAddress, req, o) == Failing(NotEmpty, "Address is required", "address", Instances(ContactAddress, req), o)
    ensures RunChain(ContactAddress, req, o) == [] <==> forall v :: v in Instances(ContactAddress, req) ==> v != ""
    ensures Present(req, Everywhere, "address") == [] ==> RunChain(ContactAddress, req, o) == [FieldError("address", "Address is required")]
  {
    NotEmptyChain(ContactName, "Name is required", req, o);
    NotEmptyChain(ContactAddress, "Address is required", req, o);
    var e: seq<string> := [""];
    assert e[1..] == [];
  }

  /**
   * The phone chain has no bail: each rule in turn reports every instance
   * that breaks it. A phone found in one place only gets every rule it
   * breaks, in declaration order.
   */
  lemma PhoneRules(req: Request, o: Oracles)
    ensures RunChain(ContactPhone, req, o) == FailuresOver(PhoneChecks, "phone", Instances(ContactPhone, req), o)
    ensures |Instances(ContactPhone, req)| == 1 ==>
      RunChain(ContactPhone, req, o) == Errors("phone", PhoneFailures(Instances(ContactPhone, req)[0], o))
  {
    PhoneSteps();
    UnbailedChain(ContactPhone, PhoneChecks, req, o);
    if |Instances(ContactPhone, req)| == 1 {
      ChainSingle(ContactPhone, req, o);
      PhoneOne(Instances(ContactPhone, req)[0], o);
    }
  }

  /**
   * The phone passes exactly when every instance is non-empty, numeric and
   * 10 to 15 characters long; an empty instance, or no phone at all, is
   * reported first as 'required' and also draws the length message.
   */
  lemma PhoneAccepted(req: Request, o: Oracles)
    ensures RunChain(ContactPhone, req, o) == [] <==> forall v :: v in Instances(ContactPhone, req) ==> PhoneOk(v, o)
    ensures "" in Instances(ContactPhone, req) ==>
      RunChain(ContactPhone, req, o)[0] == FieldError("phone", PhoneRequired) &&
      FieldError("phone", PhoneLength) in RunChain(ContactPhone, req, o)
  {
    var vs := Instances(ContactPhone, req);
    ChainAccepts(ContactPhone, req, o);
    forall v | v in vs ensures RunSteps(ContactPhone.steps, "phone", v, o, false) == [] <==> PhoneOk(v, o) {
      PhoneOne(v, o);
    }
    if "" in vs {
      PhoneRules(req, o);
      var a := Failing(NotEmpty, PhoneRequired, "phone", vs, o);
      var b := Failing(IsNumeric, PhoneNumeric, "phone", vs, o);
      var c := Failing(LengthBetween(10, 15), PhoneLength, "phone", vs, o);
      var p1 := PhoneChecks[1..];
      var p2 := p1[1..];
      assert p2[0] == (LengthBetween(10, 15), PhoneLength) && p2[1..] == [];
      assert FailuresOver(p2, "phone", vs, o) == c + FailuresOver([], "phone", vs, o);
      assert FailuresOver(p1, "phone", vs, o) == b + FailuresOver(p2, "phone", vs, o);
      assert FailuresOver(PhoneChecks, "phone", vs, o) == a + (b + (c + []));
      FailingFacts(NotEmpty, PhoneRequired, "phone", vs, o);
      FailingFacts(LengthBetween(10, 15), PhoneLength, "phone", vs, o);
      assert !Passes(NotEmpty, "", o) && !Passes(LengthBetween(10, 15), "", o);
      assert a != [] && a[0] in a;
      assert c != [] && c[0] in c;
      assert (a + (b + (c + [])))[0] == a[0];
    }
  }

  /** `message` is optional: every instance must be non-empty, and without one the chain reports nothing. */
  lemma MessageRule(req: Request, o: Oracles)
    ensures RunChain(ContactMessage, req, o) == Failing(NotEmpty, "Message is required", "message", Present(req, Everywhere, "message"), o)
    ensures RunChain(ContactMessage, req, o) == [] <==> forall v :: v in Present(req, Everywhere, "message") ==> v != ""
  {
    NotEmptyChain(ContactMessage, "Message is required", req, o);
  }

  /**
   * A contact request is accepted exactly when every instance of name,
   * phone and address is valid, and every given message is non-empty.
   */
  lemma {:induction false} ContactAccepted(req: Request, o: Oracles)
    ensures RunAll(ContactUsValidationRules, req, o) == [] <==>
      && (forall v :: v in Instances(ContactName, req) ==> v != "")
      && (forall v :: v in Instances(ContactPhone, req) ==> PhoneOk(v, o))
      && (forall v :: v in Instances(ContactAddress, req) ==> v != "")
      && (forall v :: v in Present(req, Everywhere, "message") ==> v != "")
  {
    var v := ContactUsValidationRules;
    RunAllEmpty(v, req, o);
    if RunChain(ContactName, req, o) == [] && RunChain(ContactPhone, req, o) == []
       && RunChain(ContactAddress, req, o) == [] && RunChain(ContactMessage, req, o) == [] {
      forall i | 0 <= i < |v| ensures RunChain(v[i], req, o) == [] {
        assert i == 0 || i == 1 || i == 2 || i == 3;
      }
    }
    assert v[0] == ContactName && v[1] == ContactPhone && v[2] == ContactAddress && v[3] == ContactMessage;
    NameAddressRules(req, o);
    PhoneAccepted(req, o);
    MessageRule(req, o);
  }

  /** Every location counts: an empty `name` in the query is reported even when the body's name is valid. */
  lemma QueryNameChecked(req: Request, o: Oracles)
    requires req.body == map["name" := "Bob"] && req.cookies == map[] && req.headers == map[]
    requires req.params == map[] && req.query == map["name" := ""]
    ensures RunChain(ContactName, req, o) == [FieldError("name", "Name is required")]
  {
    var l := Everywhere;
    assert l[4..] == [InQuery] && l[4..][1..] == [];
    assert Present(req, l[4..], "name") == [""] + Present(req, [], "name");
    assert l[3..] == [InParams] + l[4..] && Present(req, l[3..], "name") == [] + Present(req, l[4..], "name");
    assert l[2..] == [InHeaders] + l[3..] && Present(req, l[2..], "name") == [] + Present(req, l[3..], "name");
    assert l[1..] == [InCookies] + l[2..] && Present(req, l[1..], "name") == [] + Present(req, l[2..], "name");
    assert Present(req, l, "name") == ["Bob"] + Present(req, l[1..], "name");
    assert Instances(ContactName, req) == ["Bob", ""];
    NameAddressRules(req, o);
    var m := "Name is required";
    assert ["Bob", ""][1..] == [""] && [""][1..] == [];
    assert Failing(NotEmpty, m, "name", [""], o) == [FieldError("name", m)] + Failing(NotEmpty, m, "name", [], o);
    assert Failing(NotEmpty, m, "name", ["Bob", ""], o) == [] + Failing(NotEmpty, m, "name", [""], o);
  }

  /**
   * A given status is checked for non-emptiness and membership without a
   * bail: each rule reports every instance that breaks it, a status found in
   * one place only gets every rule it breaks, and no status reports nothing.
   */
  lemma StatusRules(req: Request, o: Oracles)
    ensures RunChain(Status, req, o) == FailuresOver(StatusChecks, "status", Present(req, Everywhere, "status"), o)
    ensures |Present(req, Everywhere, "status")| == 1 ==>
      RunChain(Status, req, o) == Errors("status", StatusFailures(Present(req, Everywhere, "status")[0]))
    ensures Present(req, Everywhere, "status") == [] ==> RunChain(Status, req, o) == []
  {
    StatusSteps();
    UnbailedChain(Status, StatusChecks, req, o);
    if |Instances(Status, req)| == 1 {
      ChainSingle(Status, req, o);
      StatusOne(Instances(Status, req)[0], o);
    }
    if Present(req, Everywhere, "status") == [] {
      assert Fresh(Instances(Status, req)) == [];
    }
  }

  /** `followUpNote` is optional: every instance must be non-empty; the trailing bail changes nothing. */
  lemma FollowUpNoteRule(req: Request, o: Oracles)
    ensures RunChain(FollowUpNote, req, o) ==
      Failing(NotEmpty, FollowUpNoteRequired, "followUpNote", Present(req, Everywhere, "followUpNote"), o)
    ensures RunChain(FollowUpNote, req, o) == [] <==> forall v :: v in Present(req, Everywhere, "followUpNote") ==> v != ""
  {
    NotEmptyChain(FollowUpNote, FollowUpNoteRequired, req, o);
  }

  /**
   * A status update is accepted exactly when every given status is 'pending'
   * or 'followed-up' and every given note is non-empty.
   */
  lemma {:induction false} UpdateStatusAccepted(req: Request, o: Oracles)
    ensures RunAll(UpdateStatus, req, o) == [] <==>
      && (forall v :: v in Present(req, Everywhere, "status") ==> v in StatusValues)
      && (forall v :: v in Present(req, Everywhere, "followUpNote") ==> v != "")
  {
    var v := UpdateStatus;
    RunAllEmpty(v, req, o);
    if RunChain(Status, req, o) == [] && RunChain(FollowUpNote, req, o) == [] {
      forall i | 0 <= i < |v| ensures RunChain(v[i], req, o) == [] {
        assert i == 0 || i == 1;
      }
    }
    assert v[0] == Status && v[1] == FollowUpNote;
    FollowUpNoteRule(req, o);
    ChainAccepts(Status, req, o);
    forall s | s in Instances(Status, req) ensures RunSteps(Status.steps, "status", s, o, false) == [] <==> s in StatusValues {
      StatusOne(s, o);
      assert "" !in StatusValues;
    }
  }
}
