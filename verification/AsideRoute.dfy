/**
 One request to change an aside on its way through route, service and store, with every refusal that it may meet; and what
 the draft owner may conclude from its answer.
 */
module AsideRoute {
  import opened Wrappers
  import opened AsideProtocol

  /** Why a request is refused. */
  datatype Refusal =
    | BadPath | BadQuery | WrongMethod | TooLarge | BadBody | BadInput
    | Missing | NotFound | NoSource | NoQuestion
    | SourceUnavailable | SourceChanged | WrongIdentity | NotReady | WrongBinding | ForeignQuestion | Unrepresentable
    | Invalid | Conflict | Limit
    | RepairRequired | Foreign(status: nat, code: string)
    | Interrupted | SignedOut | Unowned | Storage | Broken

  /** As what it is answered: status and code. Errors of the catalog and of the transcripts are handed on as they are. */
  function Raised(r: Refusal): (nat, string) {
    match r
    case BadPath => (400, "aside-input")
    case BadQuery => (400, "aside-input")
    case WrongMethod => (405, "aside-method-not-allowed")
    case TooLarge => (413, "aside-input")
    case BadBody => (400, "aside-input")
    case BadInput => (400, "aside-input")
    case Missing => (404, "aside-missing")
    case NotFound => (404, "aside-not-found")
    case NoSource => (404, "aside-source-not-found")
    case NoQuestion => (404, "aside-question-missing")
    case SourceUnavailable => (409, "aside-source-unavailable")
    case SourceChanged => (409, "aside-source-changed")
    case WrongIdentity => (409, "aside-source-identity")
    case NotReady => (409, "aside-source-not-ready")
    case WrongBinding => (409, "aside-source-binding")
    case ForeignQuestion => (409, "aside-question-source")
    case Unrepresentable => (409, "aside-source-invalid")
    case Invalid => (400, "aside-invalid")
    case Conflict => (409, "aside-conflict")
    case Limit => (429, "aside-limit")
    case RepairRequired => (409, "aside-source-journal-repair-required")
    case Foreign(status, code) => (status, code)
    case Interrupted => (409, "aside-interrupted")
    case SignedOut => (401, "authentication-required")
    case Unowned => (503, "aside-unavailable")
    case Storage => (503, "aside-storage")
    case Broken => (503, "asides-unavailable")
  }

  /** The request is no longer its sender's, or the bridge no longer owns its storage. */
  predicate Revoked(r: Refusal) {
    r.Interrupted? || r.SignedOut? || r.Unowned?
  }

  /** The store has done a request of this identity: this very one, or another. */
  datatype Prior = New | Same | Other

  datatype Writing = Done | Failed(reached: bool)

  /** How one request goes: what each stage refuses, if it comes to it. Access is looked at again and again: at the beginning,
      before the service, before a replay is answered, and after the service. */
  datatype Attempt = Attempt(
    creates: bool, path: Option<Refusal>, post: bool, body: Option<Refusal>, input: bool, found: Option<Refusal>,
    entered: Option<Refusal>, received: Option<Refusal>, authorized: Option<Refusal>, after: Option<Refusal>, finally: Option<Refusal>,
    available: bool, prior: Prior, source: Option<Refusal>, rules: Option<Refusal>, budget: bool, owned: bool,
    guard: Option<Refusal>, write: Writing)

  /** Each stage refuses what it looks at. What the store has done was well formed, and its aside is still there. */
  predicate Possible(a: Attempt) {
    && (a.path.Some? ==> a.path.value in {BadPath, BadQuery})
    && (a.body.Some? ==> a.body.value in {TooLarge, BadBody})
    && (a.found.Some? ==> a.found.value in {Missing, NoSource})
    && (forall x :: x in {a.entered, a.received, a.authorized, a.after, a.finally} && x.Some? ==> Revoked(x.value))
    && (a.prior.Same? ==> a.path.None? && a.post && a.body.None? && a.input && a.found.None?)
  }

  function First(checks: seq<Option<Refusal>>): Option<Refusal> {
    if checks == [] then None else if checks[0].Some? then checks[0] else First(checks[1..])
  }

  function Unless(holds: bool, r: Refusal): Option<Refusal> {
    if holds then None else Some(r)
  }

  /** What a request has to pass before the store looks whether it was done before. */
  function Opening(a: Attempt): seq<Option<Refusal>> {
    [a.entered, a.path, Unless(a.post, WrongMethod), a.body, a.received, Unless(a.input, BadInput)]
    + (if a.creates then [a.authorized, a.found, Unless(a.available, Storage)] else [Unless(a.available, Storage), a.found, a.authorized])
  }

  /** And what a new one has to pass before it is written: the source it is captured from, the store's own rules, the budget,
      the storage, and at the very last its source and access again. */
  function Checks(a: Attempt): seq<Option<Refusal>> {
    [Unless(!a.prior.Other?, Conflict), if a.creates then a.source else None, a.rules, Unless(a.budget, Limit), Unless(a.owned, Storage), a.guard]
  }

  datatype Answer = Recorded | Error(status: nat, code: string)
  datatype Outcome = Outcome(answer: Answer, committed: bool)

  /** The refusal that ends the request, if any, and whether it was written then. */
  function Ends(a: Attempt): (Option<Refusal>, bool) {
    var opening := First(Opening(a));
    if opening.Some? then (opening, false)
    else if a.prior.Same? then (a.after, false)
    else
      var checks := First(Checks(a));
      if checks.Some? then (checks, false)
      else if a.write.Failed? then (Some(Storage), a.write.reached)
      else (a.after, true)
  }

  /** What is told: once access is lost, nothing else, but a method that is not allowed, which is told at once. */
  function Handle(a: Attempt): Outcome {
    var (refusal, committed) := Ends(a);
    match refusal
    case None => Outcome(Recorded, committed)
    case Some(r) =>
      var (status, code) := Raised(if a.finally.Some? && !r.WrongMethod? then a.finally.value else r);
      Outcome(Error(status, code), committed)
  }

  /** A refusal that says what is wrong with the request, its aside or its source. */
  predicate Plain(r: Refusal) {
    !Revoked(r) && !r.Storage? && !r.Broken? && !r.Foreign? && !r.RepairRequired?
  }

  predicate Definite(answer: Answer) {
    answer.Error? && !ErrorResponse(answer.status, answer.code).Unknown?
  }

  /** Errors that are handed on have codes of their own. */
  ghost predicate Apart(r: Refusal) {
    r.Foreign? ==> forall x: Refusal :: Plain(x) ==> Raised(x).1 != r.code
  }

  /** Every status and code that the draft owner takes for a proof is one that the route raises. */
  lemma KnownIsRaised(status: nat, code: string) returns (r: Refusal)
    requires code in PrecommitCodes(status)
    ensures Plain(r) && Raised(r) == (status, code)
  {
    if status == 400 { r := if code == "aside-input" then BadInput else Invalid; }
    else if status == 404 {
      r := if code == "aside-missing" then Missing else if code == "aside-not-found" then NotFound
           else if code == "aside-question-missing" then NoQuestion else NoSource;
    } else if status == 405 { r := WrongMethod; }
    else if status == 409 { r := KnownAt409(code); }
    else if status == 413 { r := TooLarge; }
    else { r := Limit; }
  }

  lemma KnownAt409(code: string) returns (r: Refusal)
    requires code in PrecommitCodes(409)
    ensures Plain(r) && Raised(r) == (409, code)
  {
    if code == "aside-conflict" {
      r := Conflict;
    } else if code == "aside-source-invalid" {
      r := Unrepresentable;
    } else if code == "aside-question-source" {
      r := ForeignQuestion;
    } else {
      SourceAt409(code);
      r := OfSource(code);
    }
  }

  /** What is wrong with a source, by its code. */
  function OfSource(code: string): Refusal {
    if code == "aside-source-changed" then SourceChanged
    else if code == "aside-source-identity" then WrongIdentity
    else if code == "aside-source-not-ready" then NotReady
    else if code == "aside-source-binding" then WrongBinding
    else SourceUnavailable
  }

  lemma SourceAt409(code: string)
    requires code in PrecommitCodes(409) - {"aside-conflict", "aside-source-invalid", "aside-question-source"}
    ensures Plain(OfSource(code)) && Raised(OfSource(code)) == (409, code)
  {
  }

  lemma ForeignIsUnknown(r: Refusal)
    requires r.Foreign? && Apart(r)
    ensures r.code !in PrecommitCodes(r.status)
  {
    hide PrecommitCodes;
    if r.code in PrecommitCodes(r.status) {
      var x := KnownIsRaised(r.status, r.code);
      assert false;
    }
  }

  lemma PlainIsKnown(r: Refusal)
    requires Plain(r)
    ensures Raised(r).1 in PrecommitCodes(Raised(r).0)
  {
  }

  lemma OtherIsUnknown(r: Refusal)
    requires !Plain(r) && !r.Foreign?
    ensures Raised(r).1 !in PrecommitCodes(Raised(r).0)
  {
    if r.Interrupted? {
      UnknownAt409("aside-interrupted");
    } else if r.RepairRequired? {
      UnknownAt409("aside-source-journal-repair-required");
    } else {
      assert Raised(r).0 == 401 || Raised(r).0 == 503;
    }
  }

  lemma UnknownAt409(code: string)
    requires code == "aside-interrupted" || code == "aside-source-journal-repair-required"
    ensures code !in PrecommitCodes(409)
  {
    assert |code| > 24 || code[6] == 'i';
  }

  lemma ConflictIs(r: Refusal)
    requires Plain(r)
    ensures Raised(r) == (409, "aside-conflict") <==> r == Conflict
  {
  }

  lemma RaisedIff(r: Refusal)
    requires Apart(r)
    ensures
      var (status, code) := Raised(r);
      && (Definite(Error(status, code)) <==> Plain(r))
      && (ErrorResponse(status, code) == Conflicted ==> r == Conflict)
      && (r == Conflict ==> ErrorResponse(status, code) == Conflicted)
  {
    hide PrecommitCodes, Raised, Apart, Plain;
    if Plain(r) {
      PlainIsKnown(r);
      ConflictIs(r);
    } else if r.Foreign? {
      assert Raised(r) == (r.status, r.code) by { ForeignIs(r); }
      ForeignIsUnknown(r);
    } else {
      OtherIsUnknown(r);
    }
    assert Plain(Conflict) by { ConflictIsPlain(); }
  }

  lemma ForeignIs(r: Refusal)
    requires r.Foreign?
    ensures Raised(r) == (r.status, r.code)
  {
  }

  lemma ConflictIsPlain()
    ensures Plain(Conflict)
  {
  }

  lemma RevokedIsUnknown(r: Refusal)
    requires Revoked(r) || r.Storage?
    ensures !Definite(Error(Raised(r).0, Raised(r).1))
  {
  }

  /** What ends a request, by what has been done for it. */
  lemma EndsWith(a: Attempt)
    requires Possible(a)
    ensures
      var (refusal, committed) := Ends(a);
      committed || a.prior.Same? ==> refusal.Some? ==> Revoked(refusal.value) || refusal.value.Storage?
  {
    assert a.entered in {a.entered, a.received, a.authorized, a.after, a.finally} && a.received in {a.entered, a.received, a.authorized, a.after, a.finally}
      && a.authorized in {a.entered, a.received, a.authorized, a.after, a.finally} && a.after in {a.entered, a.received, a.authorized, a.after, a.finally};
    if a.prior.Same? { FirstIs(Opening(a)); }
  }

  lemma {:induction false} FirstIs(checks: seq<Option<Refusal>>)
    ensures First(checks).Some? ==> First(checks) in checks
  {
    if checks != [] { FirstIs(checks[1..]); }
  }

  /** An answer that the draft owner takes for a proof is one: the request was not done, not at this attempt nor at any before
      it. */
  lemma DefiniteWasNotDone(a: Attempt)
    requires Possible(a) && Definite(Handle(a).answer)
    ensures !Handle(a).committed && !a.prior.Same?
  {
    hide Ends, ErrorResponse, Raised;
    EndsWith(a);
    var (refusal, _) := Ends(a);
    if Revoked(refusal.value) || refusal.value.Storage? { RevokedIsUnknown(refusal.value); }
    if a.finally.Some? {
      assert a.finally in {a.entered, a.received, a.authorized, a.after, a.finally};
      RevokedIsUnknown(a.finally.value);
    }
  }

  /** And it takes for one exactly what it can: each refusal of the request, of its aside, of its source and of the budget,
      unless access is lost meanwhile. As a conflict it takes exactly a request that differs from the one done under its
      identity, or from what the aside is now. */
  lemma DefiniteIff(a: Attempt)
    requires Possible(a) && (Ends(a).0.Some? ==> Apart(Ends(a).0.value))
    ensures
      var refusal := Ends(a).0;
      var told := refusal.Some? && (a.finally.None? || refusal.value.WrongMethod?);
      && (Definite(Handle(a).answer) <==> told && Plain(refusal.value))
      && (Definite(Handle(a).answer) ==>
            (ErrorResponse(Handle(a).answer.status, Handle(a).answer.code) == Conflicted <==> refusal == Some(Conflict)))
  {
    hide Ends, ErrorResponse, Raised;
    var (refusal, _) := Ends(a);
    if refusal.Some? { RaisedIff(refusal.value); }
    if a.finally.Some? {
      assert a.finally in {a.entered, a.received, a.authorized, a.after, a.finally};
      RevokedIsUnknown(a.finally.value);
    }
  }
}
