/**
 * The completion edge function `handle-report-completed`: called by the workflow
 * engine with `{ requestId }` once a report is written. It looks the request up,
 * marks it completed, asks for a magic link when the request is linked to a user,
 * and notifies the delivery webhook when one is configured.
 */
module Completion {
  import opened Values
  import opened Store
  import opened Http

  const MissingRequestId := Response(400, ErrorMessage("requestId is required"))
  const RequestNotFound := Response(404, ErrorMessage("Request not found"))
  const Completed200 := Response(200, OkOnly)

  /** The verdict of the checks before the lookup: the request id to look up, a response, or an uncaught exception. */
  datatype Check = Accepted(requestId: JsValue) | Rejected(response: Response) | Throws

  /**
   * The checks exactly as written: `body.requestId` is read without a null check,
   * so a JSON body of `null` throws a TypeError that nothing catches.
   */
  function CheckAsWritten(httpMethod: string, body: Option<Json>): (r: Check)
    ensures r == Throws <==> httpMethod == "POST" && body == Some(Null)
    ensures httpMethod != "POST" ==> r == Rejected(MethodNotAllowed)
    ensures r.Accepted? ==> body.Some? && r.requestId == OptField(Defined(body.value), "requestId") && Truthy(r.requestId)
  {
    if httpMethod != "POST" then Rejected(MethodNotAllowed)
    else if body.None? then Rejected(InvalidJson)
    else if body.value == Null then Throws
    else
      var id := Field(Defined(body.value), "requestId");
      if !Truthy(id) then Rejected(MissingRequestId) else Accepted(id)
  }

  /** The input that shows it: a POST whose body is the JSON text `null`. */
  lemma NullBodyThrows()
    ensures CheckAsWritten("POST", Some(Null)) == Throws
  {
  }

  /**
   * The checks with a null body treated as one without a request id: method, then
   * JSON, then a truthy `requestId`, the first failure deciding the response. They
   * never throw and agree with the code wherever the code does not throw.
   */
  function CheckRequest(httpMethod: string, body: Option<Json>): (r: Check)
    ensures r != Throws
    ensures CheckAsWritten(httpMethod, body) != Throws ==> r == CheckAsWritten(httpMethod, body)
    ensures httpMethod != "POST" ==> r == Rejected(MethodNotAllowed)
    ensures httpMethod == "POST" && body.None? ==> r == Rejected(InvalidJson)
    ensures httpMethod == "POST" && body.Some? ==>
      var id := OptField(Defined(body.value), "requestId");
      r == if Truthy(id) then Accepted(id) else Rejected(MissingRequestId)
  {
    if httpMethod == "POST" && body == Some(Null) then Rejected(MissingRequestId)
    else CheckAsWritten(httpMethod, body)
  }

  /**
   * `select(...).eq("id", requestId).single()`: the id of the row found, if any. A
   * failed query finds nothing, and so does a request id that is not a string.
   */
  function Lookup(w: World, requestId: JsValue, lookupFails: bool): (found: Option<string>)
    ensures found.Some? <==> !lookupFails && requestId.Defined? && requestId.json.Str? && requestId.json.s in w.rows
    ensures found.Some? ==> requestId == Defined(Str(found.value)) && found.value in w.rows
  {
    if !lookupFails && requestId.Defined? && requestId.json.Str? && requestId.json.s in w.rows
    then Some(requestId.json.s) else None
  }

  /** REPORT_REDIRECT_URL is passed as `redirectTo` only when it is set. */
  function RedirectOption(redirectUrl: string): (r: Option<string>)
    ensures r.Some? <==> redirectUrl != ""
    ensures r.Some? ==> r.value == redirectUrl
  {
    if redirectUrl != "" then Some(redirectUrl) else None
  }

  /** `if (requestRow.user_id)`: a magic link is wanted only for a row linked to a (non-empty) user id. */
  predicate WantsLink(row: Row)
  {
    row.userId.Some? && row.userId.value != ""
  }

  /** What `auth.admin.generateLink` returned: a result whose action link may be missing, or an error. */
  datatype LinkOutcome = LinkIssued(actionLink: Option<string>) | LinkFailed

  /** `magicLink`: the action link when one was requested and issued, null otherwise. */
  function MagicLink(row: Row, link: LinkOutcome): (r: Option<string>)
    ensures r.Some? <==> WantsLink(row) && link.LinkIssued? && link.actionLink.Some?
    ensures r.Some? ==> link == LinkIssued(r)
  {
    if WantsLink(row) && link.LinkIssued? then link.actionLink else None
  }

  /** N8N_MAGICLINK_WEBHOOK_URL and REPORT_REDIRECT_URL; the empty string stands for "not set". */
  datatype CompletionConfig = CompletionConfig(deliveryWebhookUrl: string, redirectUrl: string)

  /**
   * The whole handler as one function of the backend state and the outcomes of its
   * external calls, built on the corrected checks of `CheckRequest`.
   */
  function Complete(w: World, httpMethod: string, body: Option<Json>, cfg: CompletionConfig,
                    lookupFails: bool, updateFails: bool, link: LinkOutcome): (r: Handled)
    ensures r.response.status in {200, 400, 404, 405}
    ensures httpMethod != "POST" ==> r == Handled(MethodNotAllowed, w)
    ensures r.response.status in {400, 405} <==> CheckRequest(httpMethod, body).Rejected?
    ensures r.response.status in {400, 405} ==> r.response == CheckRequest(httpMethod, body).response && r.world == w
    // a failed lookup or a missing row stops everything: 404 and no writes, links or webhooks
    ensures r.response.status == 404 <==>
      CheckRequest(httpMethod, body).Accepted? && Lookup(w, CheckRequest(httpMethod, body).requestId, lookupFails).None?
    ensures r.response.status == 404 ==> r.response == RequestNotFound && r.world == w
    // once the row is found the answer is always 200 { ok: true }
    ensures r.response.status == 200 ==>
      && CheckRequest(httpMethod, body).Accepted?
      && var id := Lookup(w, CheckRequest(httpMethod, body).requestId, lookupFails).value;
      var row := w.rows[id];
      && r.response == Completed200
      // the status becomes completed whatever it was, unless the update failed; nothing else changes
      && r.world.rows == (if updateFails then w.rows else w.rows[id := row.(status := Completed)])
      && (!updateFails ==> r.world.rows[id].status == Completed)
      // a magic link is requested only for a row linked to a user
      && r.world.linkRequests == w.linkRequests
           + (if WantsLink(row) then [LinkRequest(row.email, RedirectOption(cfg.redirectUrl))] else [])
      // the delivery webhook fires only when configured, even after an update or link failure
      && r.world.deliveryNotices == w.deliveryNotices
           + (if cfg.deliveryWebhookUrl != "" then [DeliveryNotice(id, row.userId, row.email, MagicLink(row, link))] else [])
    ensures r.world.identityRequests == w.identityRequests && r.world.workflowNotices == w.workflowNotices
    ensures r.world.rows.Keys == w.rows.Keys
    ensures StatusMonotone(w.rows, r.world.rows)
    ensures NoticesNameRows(w) ==> NoticesNameRows(r.world)
  {
    var check := CheckRequest(httpMethod, body);
    if check.Rejected? then Handled(check.response, w)
    else
      var found := Lookup(w, check.requestId, lookupFails);
      if found.None? then Handled(RequestNotFound, w)
      else
        var id := found.value;
        var row := w.rows[id];
        var w1 := if updateFails then w else w.(rows := w.rows[id := row.(status := Completed)]);
        var w2 :=
          if WantsLink(row) then w1.(linkRequests := w1.linkRequests + [LinkRequest(row.email, RedirectOption(cfg.redirectUrl))])
          else w1;
        var w3 :=
          if cfg.deliveryWebhookUrl != "" then
            w2.(deliveryNotices := w2.deliveryNotices + [DeliveryNotice(id, row.userId, row.email, MagicLink(row, link))])
          else w2;
        Handled(Completed200, w3)
  }

  /**
   * The `Deno.serve` handler, step by step against the backend: early returns for
   * the method, JSON, request-id and lookup failures; the status update whose
   * failure is only logged; a mutable `magicLink`; and the optional webhook.
   * The checks are the corrected ones of `CheckRequest`: a JSON body of `null` is
   * answered 400 where the code as written throws (`NullBodyThrows`).
   */
  method Handle(store: Backend, httpMethod: string, body: Option<Json>, cfg: CompletionConfig,
                lookupFails: bool, updateFails: bool, link: LinkOutcome)
    returns (response: Response)
    modifies store
    ensures Handled(response, store.State()) == Complete(old(store.State()), httpMethod, body, cfg, lookupFails, updateFails, link)
    ensures old(store.Valid()) ==> store.Valid()
  {
    if httpMethod != "POST" {
      return MethodNotAllowed;
    }
    if body.None? {
      return InvalidJson;
    }
    var requestId := OptField(Defined(body.value), "requestId");
    if !Truthy(requestId) {
      return MissingRequestId;
    }

    // 1) look the request up
    if lookupFails || !requestId.json.Str? || requestId.json.s !in store.rows {
      return RequestNotFound;
    }
    var id := requestId.json.s;
    var requestRow := store.rows[id];

    // 2) mark it completed; a failure is only logged
    if !updateFails {
      store.rows := store.rows[id := store.rows[id].(status := Completed)];
    }

    // 3) a magic link for a linked user; a failure is only logged
    var magicLink: Option<string> := None;
    if requestRow.userId.Some? && requestRow.userId.value != "" {
      store.linkRequests := store.linkRequests + [LinkRequest(requestRow.email, RedirectOption(cfg.redirectUrl))];
      match link {
        case LinkIssued(actionLink) => magicLink := actionLink;
        case LinkFailed =>
      }
    }

    // 4) notify the delivery webhook; a failure is only logged
    if cfg.deliveryWebhookUrl != "" {
      store.deliveryNotices := store.deliveryNotices + [DeliveryNotice(id, requestRow.userId, requestRow.email, magicLink)];
    }
    return Completed200;
  }
}
