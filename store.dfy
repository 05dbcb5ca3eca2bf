/**
 * The backend both request handlers talk to: the `ai_readiness_requests` table as a
 * map from row id to row, and a log of every call made to the identity provider and
 * to the two outbound webhooks. Outcomes of those calls (success, error, a thrown
 * exception) are parameters of the handlers, not state.
 */
module Store {
  import opened Values

  datatype Status = Pending | Completed

  /** One row of `ai_readiness_requests`; a column the handler writes from the payload holds that JSON value (null when absent). */
  datatype Row = Row(
    email: Json,
    consentAccepted: Json,
    industry: Json,
    websiteUrl: Json,
    companyName: Json,
    companySize: Json,
    aiAdoptionLevel: Json,
    aiTalent: Json,
    businessGoals: Json,
    responseSpeedToLeads: Json,
    missedCalls: Json,
    additionalContext: Json,
    userId: Option<string>,
    status: Status)

  /** The body of the call to N8N_WEBHOOK_URL after a submission: `{ requestId, email, userId }`. */
  datatype WorkflowNotice = WorkflowNotice(requestId: string, email: Json, userId: Option<string>)

  /** One `auth.admin.generateLink({ type: "magiclink", email, options })` call; `redirectTo` is absent when no option is passed. */
  datatype LinkRequest = LinkRequest(email: Json, redirectTo: Option<string>)

  /** The body of the call to N8N_MAGICLINK_WEBHOOK_URL: `{ requestId, userId, email, magicLink }`. */
  datatype DeliveryNotice = DeliveryNotice(requestId: string, userId: Option<string>, email: Json, magicLink: Option<string>)

  /** Everything the handlers can change or emit, as one value. */
  datatype World = World(
    rows: map<string, Row>,
    identityRequests: seq<Json>,
    workflowNotices: seq<WorkflowNotice>,
    linkRequests: seq<LinkRequest>,
    deliveryNotices: seq<DeliveryNotice>)

  /** Every notification names a row that is in the table. */
  ghost predicate NoticesNameRows(w: World)
  {
    && (forall n :: n in w.workflowNotices ==> n.requestId in w.rows)
    && (forall n :: n in w.deliveryNotices ==> n.requestId in w.rows)
  }

  /** A completed row stays completed and no row disappears. */
  ghost predicate StatusMonotone(before: map<string, Row>, after: map<string, Row>)
  {
    forall id :: id in before ==> id in after && (before[id].status == Completed ==> after[id].status == Completed)
  }

  /** The backend as the handlers see it during one invocation. */
  class Backend {
    var rows: map<string, Row>
    var identityRequests: seq<Json>
    var workflowNotices: seq<WorkflowNotice>
    var linkRequests: seq<LinkRequest>
    var deliveryNotices: seq<DeliveryNotice>

    function State(): World
      reads this
    {
      World(rows, identityRequests, workflowNotices, linkRequests, deliveryNotices)
    }

    ghost predicate Valid()
      reads this
    {
      NoticesNameRows(State())
    }

    constructor ()
      ensures Valid() && State() == World(map[], [], [], [], [])
    {
      rows := map[];
      identityRequests := [];
      workflowNotices := [];
      linkRequests := [];
      deliveryNotices := [];
    }
  }
}
