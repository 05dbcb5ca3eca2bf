/**
 * The submission endpoint `POST /api/ai-readiness`: validate the parsed body
 * (JSON, then email and consent, then a business identifier), provision an identity
 * on a best-effort basis, insert the row as pending, and notify the workflow engine
 * when its webhook is configured.
 */
module Submission {
  import opened Values
  import opened Store
  import opened Http

  const MissingEmailOrConsent := Response(400, ErrorMessage("Email and consent are required"))
  const MissingBusinessIdentifier := Response(400, ErrorMessage("Website URL or company name is required"))
  const SaveFailed := Response(500, ErrorMessage("Failed to save request"))

  /** The verdict of the validation chain: the payload to store, a 400 response, or an uncaught exception. */
  datatype Check = Accepted(payload: JsValue) | Rejected(response: Response) | Throws

  /** `body.key` where a null body reads as having no fields. */
  function Read(body: Json, key: string): JsValue
  {
    OptField(Defined(body), key)
  }

  /**
   * The validation chain exactly as written: `body.email` is read without a null
   * check, so a JSON body of `null` throws a TypeError that nothing catches.
   */
  function ValidateAsWritten(body: Option<Json>): (r: Check)
    ensures r == Throws <==> body == Some(Null)
    ensures body.None? ==> r == Rejected(InvalidJson)
    ensures r.Accepted? ==> body.Some? && r.payload == Defined(body.value)
  {
    if body.None? then Rejected(InvalidJson)
    else if body.value == Null then Throws
    else
      var b := Defined(body.value);
      if !Truthy(Field(b, "email")) || !Truthy(Field(b, "consent")) then Rejected(MissingEmailOrConsent)
      else if !Truthy(Field(b, "websiteUrl")) && !Truthy(Field(b, "companyName")) then Rejected(MissingBusinessIdentifier)
      else Accepted(b)
  }

  /** The input that shows it: the JSON text `null` parses, then the email check throws. */
  lemma NullBodyThrows()
    ensures ValidateAsWritten(Some(Null)) == Throws
  {
  }

  /**
   * The validation chain with a null body treated as one without email or consent.
   * It never throws, agrees with the code wherever the code does not throw, and its
   * checks run in order with the first failure deciding the response.
   */
  function Validate(body: Option<Json>): (r: Check)
    ensures r != Throws
    ensures ValidateAsWritten(body) != Throws ==> r == ValidateAsWritten(body)
    ensures body.None? ==> r == Rejected(InvalidJson)
    ensures body.Some? && (!Truthy(Read(body.value, "email")) || !Truthy(Read(body.value, "consent"))) ==>
      r == Rejected(MissingEmailOrConsent)
    ensures (&& body.Some? && Truthy(Read(body.value, "email")) && Truthy(Read(body.value, "consent"))
             && !Truthy(Read(body.value, "websiteUrl")) && !Truthy(Read(body.value, "companyName"))) ==>
      r == Rejected(MissingBusinessIdentifier)
    ensures r.Accepted? <==>
      && body.Some?
      && Truthy(Read(body.value, "email")) && Truthy(Read(body.value, "consent"))
      && (Truthy(Read(body.value, "websiteUrl")) || Truthy(Read(body.value, "companyName")))
    ensures r.Accepted? ==> r.payload == Defined(body.value)
  {
    if body == Some(Null) then Rejected(MissingEmailOrConsent) else ValidateAsWritten(body)
  }

  /** What `auth.admin.createUser` did: returned a user (whose id may be missing), returned an error, or threw. */
  datatype IdentityOutcome = UserCreated(user: Option<string>) | CreateError | CreateThrew

  /** `userId`: the created user's id, or null when the call errored, threw or returned no id. */
  function ResolvedUserId(o: IdentityOutcome): (r: Option<string>)
    ensures r.Some? <==> o.UserCreated? && o.user.Some?
    ensures r.Some? ==> o == UserCreated(r)
  {
    match o
    case UserCreated(user) => user
    case CreateError => None
    case CreateThrew => None
  }

  /** A column written as `body.key ?? null` (or `body.key`, which an absent key leaves null). */
  function OrNull(x: JsValue): Json
  {
    if Nullish(x) then Null else x.json
  }

  /** A column written as `body.key || null`. */
  function NullIfFalsy(x: JsValue): Json
  {
    if Truthy(x) then x.json else Null
  }

  /**
   * The row inserted for an accepted payload: status pending, linked to `userId`,
   * website and company name null when falsy (the empty string included), every
   * absent optional field null, and every other field copied from the payload.
   */
  function RowFor(payload: JsValue, userId: Option<string>): (row: Row)
    requires !Nullish(payload)
    ensures row.status == Pending && row.userId == userId
    ensures row.websiteUrl == Null <==> !Truthy(Field(payload, "websiteUrl"))
    ensures row.websiteUrl != Null ==> Defined(row.websiteUrl) == Field(payload, "websiteUrl")
    ensures row.companyName == Null <==> !Truthy(Field(payload, "companyName"))
    ensures row.companyName != Null ==> Defined(row.companyName) == Field(payload, "companyName")
    ensures Nullish(Field(payload, "companySize")) <==> row.companySize == Null
    ensures !Nullish(Field(payload, "companySize")) ==> Defined(row.companySize) == Field(payload, "companySize")
    ensures Nullish(Field(payload, "aiAdoption")) <==> row.aiAdoptionLevel == Null
    ensures !Nullish(Field(payload, "aiAdoption")) ==> Defined(row.aiAdoptionLevel) == Field(payload, "aiAdoption")
    ensures Nullish(Field(payload, "aiTalent")) <==> row.aiTalent == Null
    ensures !Nullish(Field(payload, "aiTalent")) ==> Defined(row.aiTalent) == Field(payload, "aiTalent")
    ensures Nullish(Field(payload, "responseSpeed")) <==> row.responseSpeedToLeads == Null
    ensures !Nullish(Field(payload, "responseSpeed")) ==> Defined(row.responseSpeedToLeads) == Field(payload, "responseSpeed")
    ensures Nullish(Field(payload, "missedCalls")) <==> row.missedCalls == Null
    ensures !Nullish(Field(payload, "missedCalls")) ==> Defined(row.missedCalls) == Field(payload, "missedCalls")
    // the columns written without a default: the payload's value, null when it is absent
    ensures Nullish(Field(payload, "industry")) <==> row.industry == Null
    ensures !Nullish(Field(payload, "industry")) ==> Defined(row.industry) == Field(payload, "industry")
    ensures Nullish(Field(payload, "businessGoals")) <==> row.businessGoals == Null
    ensures !Nullish(Field(payload, "businessGoals")) ==> Defined(row.businessGoals) == Field(payload, "businessGoals")
    ensures Nullish(Field(payload, "additionalContext")) <==> row.additionalContext == Null
    ensures !Nullish(Field(payload, "additionalContext")) ==> Defined(row.additionalContext) == Field(payload, "additionalContext")
    ensures Truthy(Field(payload, "email")) ==> Defined(row.email) == Field(payload, "email")
    ensures Truthy(Field(payload, "consent")) ==> Defined(row.consentAccepted) == Field(payload, "consent")
  {
    Row(
      email := OrNull(Field(payload, "email")),
      consentAccepted := OrNull(Field(payload, "consent")),
      industry := OrNull(Field(payload, "industry")),
      websiteUrl := NullIfFalsy(Field(payload, "websiteUrl")),
      companyName := NullIfFalsy(Field(payload, "companyName")),
      companySize := OrNull(Field(payload, "companySize")),
      aiAdoptionLevel := OrNull(Field(payload, "aiAdoption")),
      aiTalent := OrNull(Field(payload, "aiTalent")),
      businessGoals := OrNull(Field(payload, "businessGoals")),
      responseSpeedToLeads := OrNull(Field(payload, "responseSpeed")),
      missedCalls := OrNull(Field(payload, "missedCalls")),
      additionalContext := OrNull(Field(payload, "additionalContext")),
      userId := userId,
      status := Pending)
  }

  /** N8N_WEBHOOK_URL; the empty string stands for "not set". */
  datatype SubmitConfig = SubmitConfig(webhookUrl: string)

  /** What the insert returned: the new row's id, or an error. The store refuses an id it already holds. */
  datatype InsertOutcome = Inserted(id: string) | InsertFailed

  predicate InsertAccepted(w: World, insert: InsertOutcome)
  {
    insert.Inserted? && insert.id !in w.rows
  }

  /**
   * The whole handler as one function of the backend state and the outcomes of its
   * external calls, built on the corrected checks of `Validate`.
   */
  function Submit(w: World, body: Option<Json>, cfg: SubmitConfig, identity: IdentityOutcome, insert: InsertOutcome): (r: Handled)
    ensures r.response.status in {200, 400, 500}
    // validation: a rejected body changes nothing and calls nothing
    ensures r.response.status == 400 <==> Validate(body).Rejected?
    ensures r.response.status == 400 ==> r.response == Validate(body).response && r.world == w
    // identity provisioning is attempted exactly once for every accepted body and never aborts
    ensures r.response.status != 400 ==>
      Validate(body).Accepted? && r.world.identityRequests == w.identityRequests + [Validate(body).payload.json.fields["email"]]
    // an insert failure is fatal: 500, no row, no webhook
    ensures r.response.status == 500 <==> Validate(body).Accepted? && !InsertAccepted(w, insert)
    ensures r.response.status == 500 ==> r.response == SaveFailed && r.world.rows == w.rows && r.world.workflowNotices == w.workflowNotices
    // success: exactly one new row, pending, linked to the resolved user id, and the id is returned
    ensures r.response.status == 200 ==>
      && InsertAccepted(w, insert)
      && r.response == Response(200, OkWithId(insert.id))
      && r.world.rows == w.rows[insert.id := RowFor(Validate(body).payload, ResolvedUserId(identity))]
      && r.world.rows[insert.id].status == Pending
      && r.world.rows[insert.id].userId == ResolvedUserId(identity)
    // the webhook fires only when configured, with the stored row's id, email and user id
    ensures r.response.status == 200 ==>
      var row := r.world.rows[insert.id];
      r.world.workflowNotices == w.workflowNotices
        + (if cfg.webhookUrl != "" then [WorkflowNotice(insert.id, row.email, row.userId)] else [])
    ensures r.world.linkRequests == w.linkRequests && r.world.deliveryNotices == w.deliveryNotices
    ensures StatusMonotone(w.rows, r.world.rows)
    ensures NoticesNameRows(w) ==> NoticesNameRows(r.world)
  {
    var check := Validate(body);
    if check.Rejected? then Handled(check.response, w)
    else
      var payload := check.payload;
      var w1 := w.(identityRequests := w.identityRequests + [Field(payload, "email").json]);
      if !InsertAccepted(w, insert) then Handled(SaveFailed, w1)
      else
        var row := RowFor(payload, ResolvedUserId(identity));
        var w2 := w1.(rows := w1.rows[insert.id := row]);
        var w3 :=
          if cfg.webhookUrl != "" then w2.(workflowNotices := w2.workflowNotices + [WorkflowNotice(insert.id, row.email, row.userId)])
          else w2;
        Handled(Response(200, OkWithId(insert.id)), w3)
  }

  /**
   * `POST(request)`, step by step against the backend: early returns for the three
   * validation failures, a mutable `userId`, the insert, and the optional webhook.
   * The checks are the corrected ones of `Validate`: a JSON body of `null` is answered
   * 400 where the code as written throws (`NullBodyThrows`).
   */
  method Post(store: Backend, body: Option<Json>, cfg: SubmitConfig, identity: IdentityOutcome, insert: InsertOutcome)
    returns (response: Response)
    modifies store
    ensures Handled(response, store.State()) == Submit(old(store.State()), body, cfg, identity, insert)
    ensures old(store.Valid()) ==> store.Valid()
  {
    if body.None? {
      return InvalidJson;
    }
    var b := body.value;
    if !Truthy(Read(b, "email")) || !Truthy(Read(b, "consent")) {
      return MissingEmailOrConsent;
    }
    if !Truthy(Read(b, "websiteUrl")) && !Truthy(Read(b, "companyName")) {
      return MissingBusinessIdentifier;
    }

    var userId: Option<string> := None;
    store.identityRequests := store.identityRequests + [Read(b, "email").json];
    match identity {
      case UserCreated(user) => userId := user;
      case CreateError =>     // logged; e.g. the user is already registered
      case CreateThrew =>     // logged
    }

    if !insert.Inserted? || insert.id in store.rows {
      return SaveFailed;
    }
    var id := insert.id;
    var row := RowFor(Defined(b), userId);
    store.rows := store.rows[id := row];

    if cfg.webhookUrl != "" {
      // a failed call is only logged
      store.workflowNotices := store.workflowNotices + [WorkflowNotice(id, row.email, row.userId)];
    }
    return Response(200, OkWithId(id));
  }
}
