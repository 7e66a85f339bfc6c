/**
 * The part of express-validator the validators use, as an interpreter of
 * validation chains over a request, and the `validateSchema` middleware
 * (src/helper/validation_helper.ts) that runs them.
 *
 * A chain names one field and the request locations it reads: `body(field)`
 * reads the body only, `check(field)` reads body, cookies, headers, params
 * and query. Every location that holds the field gives an instance to
 * validate; when none does, the chain validates `undefined`, which
 * express-validator turns into `''`, unless the chain is optional, in
 * which case it does nothing. Each `Check` step runs one validator on every
 * running instance and records an error with that step's message for each
 * instance that fails; a `Bail` step halts the instances that have failed.
 * Request values are strings.
 */
module Validation {
  import opened Wrappers

  /** `isEmail()`, `isNumeric()` and the database lookup behind `emailUniqueCheck`. */
  datatype Oracles = Oracles(isEmail: string -> bool, isNumeric: string -> bool, emailTaken: string -> bool)

  datatype Validator =
    | NotEmpty                                 // notEmpty()
    | LengthAtLeast(min: nat)                  // isLength({ min })
    | LengthBetween(min: nat, max: nat)        // isLength({ min, max })
    | ContainsOneOf(chars: seq<char>)          // matches(/[...]/)
    | IsIn(options: seq<string>)               // isIn([...])
    | IsEmail                                  // isEmail()
    | IsNumeric                                // isNumeric()
    | EmailNotTaken                            // custom(emailUniqueCheck)

  datatype Step = Check(validator: Validator, message: string) | Bail

  /** Where express-validator looks for a field. */
  datatype Location = InBody | InCookies | InHeaders | InParams | InQuery

  /** `body(field)`. */
  const BodyOnly: seq<Location> := [InBody]
  /** `check(field)`: every location, in express-validator's order. */
  const Everywhere: seq<Location> := [InBody, InCookies, InHeaders, InParams, InQuery]

  datatype Chain = Chain(locations: seq<Location>, field: string, optional: bool, steps: seq<Step>)

  datatype FieldError = FieldError(path: string, msg: string)

  /** The fields of one location, by name. */
  type Body = map<string, string>

  /** `req.body`, `req.cookies`, `req.headers` (names in lower case, as Node delivers them), `req.params`, `req.query`. */
  datatype Request = Request(body: Body, cookies: Body, headers: Body, params: Body, query: Body)

  predicate ContainsAny(s: string, chars: seq<char>)
  {
    exists i :: 0 <= i < |s| && s[i] in chars
  }

  /** The presentation selectors U+FE0E and U+FE0F. */
  predicate IsSelector(c: char)
  {
    c == '\U{FE0E}' || c == '\U{FE0F}'
  }

  /** The length `isLength` measures: code points, the presentation selectors not counted. */
  function Length(s: string): (n: nat)
    ensures n <= |s|
  {
    if s == [] then 0 else (if IsSelector(s[0]) then 0 else 1) + Length(s[1..])
  }

  predicate Passes(v: Validator, value: string, o: Oracles)
  {
    match v
    case NotEmpty => value != ""
    case LengthAtLeast(min) => Length(value) >= min
    case LengthBetween(min, max) => min <= Length(value) <= max
    case ContainsOneOf(chars) => ContainsAny(value, chars)
    case IsIn(options) => value in options
    case IsEmail => o.isEmail(value)
    case IsNumeric => o.isNumeric(value)
    case EmailNotTaken => !o.emailTaken(value)
  }

  /** The errors of the remaining `steps` on one instance, given whether an earlier step failed on it. */
  function RunSteps(steps: seq<Step>, path: string, value: string, o: Oracles, failed: bool): seq<FieldError>
  {
    if steps == [] then []
    else
      match steps[0]
      case Bail => if failed then [] else RunSteps(steps[1..], path, value, o, failed)
      case Check(v, msg) =>
        if Passes(v, value, o) then RunSteps(steps[1..], path, value, o, failed)
        else [FieldError(path, msg)] + RunSteps(steps[1..], path, value, o, true)
  }

  function ValueOf(body: Body, field: string): string
  {
    if field in body then body[field] else ""
  }

  function AsciiLower(c: char): char
  {
    if 'A' <= c <= 'Z' then (c as int + 32) as char else c
  }

  function Lower(s: string): string
  {
    seq(|s|, i requires 0 <= i < |s| => AsciiLower(s[i]))
  }

  /** The value of `field` in one location; header names are matched in lower case. */
  function Find(req: Request, loc: Location, field: string): Option<string>
  {
    var (m, k) := match loc
      case InBody => (req.body, field)
      case InCookies => (req.cookies, field)
      case InHeaders => (req.headers, Lower(field))
      case InParams => (req.params, field)
      case InQuery => (req.query, field);
    if k in m then Some(m[k]) else None
  }

  /** The values of `field` in `locs`, in order. */
  function Present(req: Request, locs: seq<Location>, field: string): seq<string>
  {
    if locs == [] then []
    else
      (match Find(req, locs[0], field) case Some(v) => [v] case None => [])
      + Present(req, locs[1..], field)
  }

  /** The values a chain validates: every present instance, else `''` once unless the chain is optional. */
  function Instances(c: Chain, req: Request): seq<string>
  {
    var vs := Present(req, c.locations, c.field);
    if vs != [] then vs else if c.optional then [] else [""]
  }

  /** The values of a list of running instances. */
  function Values(insts: seq<(string, bool)>): seq<string>
  {
    seq(|insts|, i requires 0 <= i < |insts| => insts[i].0)
  }

  /** An error for each of `vs` that fails `v`, in order. */
  function Failing(v: Validator, msg: string, path: string, vs: seq<string>, o: Oracles): seq<FieldError>
  {
    if vs == [] then []
    else (if Passes(v, vs[0], o) then [] else [FieldError(path, msg)]) + Failing(v, msg, path, vs[1..], o)
  }

  /** The instances after a check: each marked failed if it failed before or fails `v`. */
  function Mark(v: Validator, insts: seq<(string, bool)>, o: Oracles): seq<(string, bool)>
  {
    seq(|insts|, i requires 0 <= i < |insts| => (insts[i].0, insts[i].1 || !Passes(v, insts[i].0, o)))
  }

  /** The instances a bail lets go on: those that have not failed. */
  function Unfailed(insts: seq<(string, bool)>): seq<(string, bool)>
  {
    if insts == [] then []
    else (if insts[0].1 then [] else [insts[0]]) + Unfailed(insts[1..])
  }

  /**
   * The errors of the remaining `steps` over the running instances, each
   * with whether it has failed: a check runs on every running instance in
   * turn, and a bail halts the ones that have failed.
   */
  function RunMulti(steps: seq<Step>, path: string, insts: seq<(string, bool)>, o: Oracles): seq<FieldError>
  {
    if steps == [] || insts == [] then []
    else
      match steps[0]
      case Bail => RunMulti(steps[1..], path, Unfailed(insts), o)
      case Check(v, msg) => Failing(v, msg, path, Values(insts), o) + RunMulti(steps[1..], path, Mark(v, insts, o), o)
  }

  /** Instances that have not failed yet. */
  function Fresh(vs: seq<string>): seq<(string, bool)>
  {
    seq(|vs|, i requires 0 <= i < |vs| => (vs[i], false))
  }

  function RunChain(c: Chain, req: Request, o: Oracles): seq<FieldError>
  {
    RunMulti(c.steps, c.field, Fresh(Instances(c, req)), o)
  }

  /** All chains' errors, chain by chain. */
  function RunAll(chains: seq<Chain>, req: Request, o: Oracles): seq<FieldError>
  {
    if chains == [] then [] else RunChain(chains[0], req, o) + RunAll(chains[1..], req, o)
  }

  datatype Verdict = Proceed | Reject(status: nat, message: string, errors: seq<FieldError>)

  /** `validateSchema(validations)`: `next()` when nothing failed, else a 422 with every error. */
  function ValidateSchema(chains: seq<Chain>, req: Request, o: Oracles): Verdict
  {
    var errors := RunAll(chains, req, o);
    if errors == [] then Proceed
    else Reject(422, "The request failed due to a validation problem", errors)
  }

  // ---------------------------------------------------------------------
  // Two shapes of chain and what they report.

  /** `c1.bail().c2.bail() ... .ck`: checks separated by bails. */
  function Bailed(checks: seq<(Validator, string)>): seq<Step>
  {
    if checks == [] then []
    else if |checks| == 1 then [Check(checks[0].0, checks[0].1)]
    else [Check(checks[0].0, checks[0].1), Bail] + Bailed(checks[1..])
  }

  /** `c1.c2 ... .ck`: checks without bails. */
  function Unbailed(checks: seq<(Validator, string)>): seq<Step>
  {
    if checks == [] then [] else [Check(checks[0].0, checks[0].1)] + Unbailed(checks[1..])
  }

  /** The message of the first check the value fails. */
  function FirstFailure(checks: seq<(Validator, string)>, value: string, o: Oracles): seq<string>
  {
    if checks == [] then []
    else if !Passes(checks[0].0, value, o) then [checks[0].1]
    else FirstFailure(checks[1..], value, o)
  }

  /** The messages of every check the value fails, in order. */
  function AllFailures(checks: seq<(Validator, string)>, value: string, o: Oracles): seq<string>
  {
    if checks == [] then []
    else (if Passes(checks[0].0, value, o) then [] else [checks[0].1]) + AllFailures(checks[1..], value, o)
  }

  function Errors(path: string, msgs: seq<string>): seq<FieldError>
  {
    seq(|msgs|, i requires 0 <= i < |msgs| => FieldError(path, msgs[i]))
  }

  lemma ErrorsSingle(path: string, msg: string)
    ensures Errors(path, [msg]) == [FieldError(path, msg)]
    ensures Errors(path, []) == []
  {
  }

  /** One more check in front of a bail-separated chain. */
  lemma BailedCons(c: (Validator, string), cs: seq<(Validator, string)>)
    requires cs != []
    ensures Bailed([c] + cs) == [Check(c.0, c.1), Bail] + Bailed(cs)
  {
    assert ([c] + cs)[1..] == cs;
  }

  lemma FirstFailureCons(c: (Validator, string), cs: seq<(Validator, string)>, value: string, o: Oracles)
    ensures FirstFailure([c] + cs, value, o) == if Passes(c.0, value, o) then FirstFailure(cs, value, o) else [c.1]
  {
    assert ([c] + cs)[1..] == cs;
  }

  /** One more check in front of a chain without bails. */
  lemma UnbailedCons(c: (Validator, string), cs: seq<(Validator, string)>)
    ensures Unbailed([c] + cs) == [Check(c.0, c.1)] + Unbailed(cs)
  {
    assert ([c] + cs)[1..] == cs;
  }

  lemma AllFailuresCons(c: (Validator, string), cs: seq<(Validator, string)>, value: string, o: Oracles)
    ensures AllFailures([c] + cs, value, o) ==
      (if Passes(c.0, value, o) then [] else [c.1]) + AllFailures(cs, value, o)
  {
    assert ([c] + cs)[1..] == cs;
  }

  /** A chain of one check reports that check's message when it fails. */
  lemma SingleCheck(v: Validator, msg: string, path: string, value: string, o: Oracles, failed: bool)
    ensures RunSteps([Check(v, msg)], path, value, o, failed) ==
      if Passes(v, value, o) then [] else [FieldError(path, msg)]
  {
    var steps := [Check(v, msg)];
    assert steps[1..] == [];
  }

  /** The same, followed by a bail. */
  lemma SingleCheckBail(v: Validator, msg: string, path: string, value: string, o: Oracles)
    ensures RunSteps([Check(v, msg), Bail], path, value, o, false) ==
      if Passes(v, value, o) then [] else [FieldError(path, msg)]
  {
    assert [Check(v, msg), Bail] == [Check(v, msg)] + [Bail];
    TrailingBail([Check(v, msg)], path, value, o, false);
    SingleCheck(v, msg, path, value, o, false);
  }

  /** A chain whose checks are separated by bails reports only its first failure. */
  lemma {:induction false} BailedReportsFirstFailure(checks: seq<(Validator, string)>, path: string, value: string, o: Oracles)
    ensures RunSteps(Bailed(checks), path, value, o, false) == Errors(path, FirstFailure(checks, value, o))
  {
    if |checks| == 1 {
      var steps := Bailed(checks);
      assert steps[1..] == [];
    } else if |checks| > 1 {
      var steps := Bailed(checks);
      assert steps[1..] == [Bail] + Bailed(checks[1..]);
      assert steps[1..][1..] == Bailed(checks[1..]);
      BailedReportsFirstFailure(checks[1..], path, value, o);
      if !Passes(checks[0].0, value, o) {
        assert RunSteps(steps[1..], path, value, o, true) == [];
      }
    }
  }

  /** A chain without bails reports every failure, in order. */
  lemma {:induction false} UnbailedReportsAllFailures(checks: seq<(Validator, string)>, path: string, value: string, o: Oracles, failed: bool)
    ensures RunSteps(Unbailed(checks), path, value, o, failed) == Errors(path, AllFailures(checks, value, o))
  {
    if checks != [] {
      var steps := Unbailed(checks);
      assert steps[1..] == Unbailed(checks[1..]);
      UnbailedReportsAllFailures(checks[1..], path, value, o, failed);
      UnbailedReportsAllFailures(checks[1..], path, value, o, true);
      var head := if Passes(checks[0].0, value, o) then [] else [checks[0].1];
      assert Errors(path, head + AllFailures(checks[1..], value, o)) ==
             Errors(path, head) + Errors(path, AllFailures(checks[1..], value, o));
    }
  }

  /** A trailing bail changes nothing. */
  lemma {:induction false} TrailingBail(steps: seq<Step>, path: string, value: string, o: Oracles, failed: bool)
    ensures RunSteps(steps + [Bail], path, value, o, failed) == RunSteps(steps, path, value, o, failed)
  {
    if steps == [] {
      var bail: seq<Step> := [Bail];
      assert steps + [Bail] == bail && bail[1..] == [];
    } else {
      assert (steps + [Bail])[1..] == steps[1..] + [Bail];
      TrailingBail(steps[1..], path, value, o, failed);
      TrailingBail(steps[1..], path, value, o, true);
    }
  }

  /** The request passes exactly when no chain reports an error. */
  lemma {:induction false} RunAllEmpty(chains: seq<Chain>, req: Request, o: Oracles)
    ensures RunAll(chains, req, o) == [] <==> forall i :: 0 <= i < |chains| ==> RunChain(chains[i], req, o) == []
  {
    if chains != [] {
      RunAllEmpty(chains[1..], req, o);
      assert forall i :: 1 <= i < |chains| ==> chains[i] == chains[1..][i - 1];
    }
  }

  /**
   * `validateSchema` calls `next()` exactly when no chain reports an error;
   * otherwise it answers 422 with every chain's errors, chain by chain.
   */
  lemma ValidateSchemaDecision(chains: seq<Chain>, req: Request, o: Oracles)
    ensures ValidateSchema(chains, req, o) == Proceed <==>
      forall i :: 0 <= i < |chains| ==> RunChain(chains[i], req, o) == []
    ensures ValidateSchema(chains, req, o).Reject? ==>
      ValidateSchema(chains, req, o) ==
        Reject(422, "The request failed due to a validation problem", RunAll(chains, req, o))
  {
    RunAllEmpty(chains, req, o);
  }

  // ---------------------------------------------------------------------
  // Instances.

  /** A value is present in `locs` exactly when one of them holds it. */
  lemma {:induction false} PresentIn(req: Request, locs: seq<Location>, field: string, x: string)
    ensures x in Present(req, locs, field) <==> exists i :: 0 <= i < |locs| && Find(req, locs[i], field) == Some(x)
  {
    if locs != [] {
      PresentIn(req, locs[1..], field, x);
      assert forall i :: 1 <= i < |locs| ==> locs[i] == locs[1..][i - 1];
      if x in Present(req, locs[1..], field) {
        var i :| 0 <= i < |locs[1..]| && Find(req, locs[1..][i], field) == Some(x);
        assert Find(req, locs[i + 1], field) == Some(x);
      }
    }
  }

  /** Nothing is present exactly when no location holds the field. */
  lemma {:induction false} PresentNone(req: Request, locs: seq<Location>, field: string)
    ensures Present(req, locs, field) == [] <==> forall i :: 0 <= i < |locs| ==> Find(req, locs[i], field).None?
  {
    if locs != [] {
      PresentNone(req, locs[1..], field);
      assert forall i :: 1 <= i < |locs| ==> locs[i] == locs[1..][i - 1];
    }
  }

  /** A `body()` chain validates the body's value, or `''` for an absent field unless it is optional. */
  lemma BodyInstances(c: Chain, req: Request)
    requires c.locations == BodyOnly
    ensures Instances(c, req) ==
      if c.field in req.body then [req.body[c.field]] else if c.optional then [] else [""]
  {
    assert c.locations[0] == InBody && c.locations[1..] == [];
    var f := Find(req, InBody, c.field);
    assert f == if c.field in req.body then Some(req.body[c.field]) else None;
    assert Present(req, c.locations, c.field) == (if f.Some? then [f.value] else []) + Present(req, [], c.field);
  }

  /** A `body()` chain reports what its one body value reports, or nothing when it is optional and the field absent. */
  lemma BodyChain(c: Chain, req: Request, o: Oracles)
    requires c.locations == BodyOnly
    ensures RunChain(c, req, o) ==
      if c.optional && c.field !in req.body then [] else RunSteps(c.steps, c.field, ValueOf(req.body, c.field), o, false)
  {
    BodyInstances(c, req);
    if c.optional && c.field !in req.body {
      assert Fresh(Instances(c, req)) == [];
    } else {
      ChainSingle(c, req, o);
    }
  }

  /** An optional chain whose field no location holds reports nothing. */
  lemma OptionalAbsent(c: Chain, req: Request, o: Oracles)
    requires c.optional && forall i :: 0 <= i < |c.locations| ==> Find(req, c.locations[i], c.field).None?
    ensures RunChain(c, req, o) == []
  {
    PresentNone(req, c.locations, c.field);
  }

  // ---------------------------------------------------------------------
  // Running several instances.

  lemma {:induction false} FailingFacts(v: Validator, msg: string, path: string, vs: seq<string>, o: Oracles)
    ensures forall e :: e in Failing(v, msg, path, vs, o) ==> e == FieldError(path, msg)
    ensures Failing(v, msg, path, vs, o) == [] <==> forall x :: x in vs ==> Passes(v, x, o)
  {
    if vs != [] {
      FailingFacts(v, msg, path, vs[1..], o);
      assert forall x :: x in vs ==> x == vs[0] || x in vs[1..];
    }
  }

  lemma {:induction false} UnfailedIn(insts: seq<(string, bool)>, x: (string, bool))
    ensures x in Unfailed(insts) <==> x in insts && !x.1
  {
    if insts != [] {
      UnfailedIn(insts[1..], x);
      assert x in insts <==> x == insts[0] || x in insts[1..];
    }
  }

  /** One instance runs as `RunSteps` says. */
  lemma {:induction false} MultiSingle(steps: seq<Step>, path: string, value: string, o: Oracles, failed: bool)
    ensures RunMulti(steps, path, [(value, failed)], o) == RunSteps(steps, path, value, o, failed)
  {
    if steps != [] {
      var one := [(value, failed)];
      match steps[0]
      case Bail =>
        if !failed {
          assert Unfailed(one) == one + Unfailed(one[1..]);
          assert Unfailed(one) == one;
        }
        MultiSingle(steps[1..], path, value, o, failed);
      case Check(v, msg) =>
        var still := Passes(v, value, o);
        assert Values(one) == [value];
        assert Failing(v, msg, path, [value], o) == (if still then [] else [FieldError(path, msg)]) + Failing(v, msg, path, [], o);
        assert Mark(v, one, o) == [(value, failed || !still)];
        MultiSingle(steps[1..], path, value, o, failed || !still);
    }
  }

  /** Several instances report nothing exactly when each, run alone, reports nothing. */
  lemma {:induction false} MultiAccepts(steps: seq<Step>, path: string, insts: seq<(string, bool)>, o: Oracles)
    ensures RunMulti(steps, path, insts, o) == [] <==>
      forall x :: x in insts ==> RunSteps(steps, path, x.0, o, x.1) == []
  {
    if steps != [] && insts != [] {
      match steps[0]
      case Bail =>
        MultiAccepts(steps[1..], path, Unfailed(insts), o);
        forall x | x in insts ensures x in Unfailed(insts) <==> !x.1 { UnfailedIn(insts, x); }
        forall x | x in Unfailed(insts) ensures x in insts && !x.1 { UnfailedIn(insts, x); }
      case Check(v, msg) =>
        FailingFacts(v, msg, path, Values(insts), o);
        forall x | x in insts ensures x.0 in Values(insts) {
          var i :| 0 <= i < |insts| && insts[i] == x;
          assert Values(insts)[i] == x.0;
        }
        if forall x :: x in insts ==> Passes(v, x.0, o) {
          assert Mark(v, insts, o) == insts;
          MultiAccepts(steps[1..], path, insts, o);
        } else {
          var x :| x in insts && !Passes(v, x.0, o);
          assert x.0 in Values(insts);
        }
    }
  }

  /** A chain passes exactly when every instance it validates passes on its own. */
  lemma ChainAccepts(c: Chain, req: Request, o: Oracles)
    ensures RunChain(c, req, o) == [] <==>
      forall x :: x in Instances(c, req) ==> RunSteps(c.steps, c.field, x, o, false) == []
  {
    var vs := Instances(c, req);
    MultiAccepts(c.steps, c.field, Fresh(vs), o);
    forall x | x in vs ensures (x, false) in Fresh(vs) {
      var i :| 0 <= i < |vs| && vs[i] == x;
      assert Fresh(vs)[i] == (x, false);
    }
  }

  /** A chain with one instance reports what that instance reports. */
  lemma ChainSingle(c: Chain, req: Request, o: Oracles)
    requires |Instances(c, req)| == 1
    ensures RunChain(c, req, o) == RunSteps(c.steps, c.field, Instances(c, req)[0], o, false)
  {
    assert Fresh(Instances(c, req)) == [(Instances(c, req)[0], false)];
    MultiSingle(c.steps, c.field, Instances(c, req)[0], o, false);
  }

  /** The errors a chain without bails reports: for each check in turn, one for every value that fails it. */
  function FailuresOver(checks: seq<(Validator, string)>, path: string, vs: seq<string>, o: Oracles): seq<FieldError>
  {
    if checks == [] then [] else Failing(checks[0].0, checks[0].1, path, vs, o) + FailuresOver(checks[1..], path, vs, o)
  }

  lemma {:induction false} FailingNone(v: Validator, msg: string, path: string, o: Oracles)
    ensures Failing(v, msg, path, [], o) == []
  {
  }

  /** A chain without bails over several instances: each check reports every instance that fails it. */
  lemma {:induction false} UnbailedOver(checks: seq<(Validator, string)>, path: string, insts: seq<(string, bool)>, o: Oracles)
    ensures RunMulti(Unbailed(checks), path, insts, o) == FailuresOver(checks, path, Values(insts), o)
  {
    if checks != [] {
      var steps := Unbailed(checks);
      assert steps[0] == Check(checks[0].0, checks[0].1) && steps[1..] == Unbailed(checks[1..]);
      var marked := Mark(checks[0].0, insts, o);
      assert Values(marked) == Values(insts);
      UnbailedOver(checks[1..], path, marked, o);
      if insts == [] {
        assert Values(insts) == [];
        UnbailedOver(checks[1..], path, [], o);
        FailingNone(checks[0].0, checks[0].1, path, o);
      }
    } else if insts == [] {
      assert Values(insts) == [];
    }
  }

  /** A trailing bail changes nothing, over any instances. */
  lemma {:induction false} MultiTrailingBail(steps: seq<Step>, path: string, insts: seq<(string, bool)>, o: Oracles)
    ensures RunMulti(steps + [Bail], path, insts, o) == RunMulti(steps, path, insts, o)
  {
    if steps == [] {
      var bail: seq<Step> := [Bail];
      assert steps + [Bail] == bail && bail[1..] == [];
    } else if insts != [] {
      assert (steps + [Bail])[0] == steps[0];
      assert (steps + [Bail])[1..] == steps[1..] + [Bail];
      match steps[0]
      case Bail => MultiTrailingBail(steps[1..], path, Unfailed(insts), o);
      case Check(v, msg) => MultiTrailingBail(steps[1..], path, Mark(v, insts, o), o);
    }
  }

  /**
   * A chain without bails, or with one bail at its end, reports for each
   * check in turn one error for every instance that fails it.
   */
  lemma UnbailedChain(c: Chain, checks: seq<(Validator, string)>, req: Request, o: Oracles)
    requires c.steps == Unbailed(checks) || c.steps == Unbailed(checks) + [Bail]
    ensures RunChain(c, req, o) == FailuresOver(checks, c.field, Instances(c, req), o)
  {
    var vs := Instances(c, req);
    if c.steps != Unbailed(checks) {
      MultiTrailingBail(Unbailed(checks), c.field, Fresh(vs), o);
    }
    UnbailedOver(checks, c.field, Fresh(vs), o);
    assert Values(Fresh(vs)) == vs;
  }
}
