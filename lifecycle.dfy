/**
 * The request lifecycle across the two handlers that share the requests table: a
 * submission creates a pending row, a completion call marks it completed, a repeated
 * completion call is harmless, and over any sequence of calls a completed row never
 * reverts and every notification names a stored row.
 */
module Lifecycle {
  import opened Values
  import opened Store
  import opened Http
  import Submission
  import Completion

  /** The completion body `{ requestId: id }`. */
  function CompletionBody(id: string): Json
  {
    Obj(map["requestId" := Str(id)])
  }

  /** A successful submission followed by a completion call for the returned id leaves that row completed and otherwise as inserted. */
  lemma SubmitThenComplete(w: World, body: Option<Json>, cfg: Submission.SubmitConfig,
                           identity: Submission.IdentityOutcome, insert: Submission.InsertOutcome,
                           ccfg: Completion.CompletionConfig, link: Completion.LinkOutcome)
    requires Submission.Submit(w, body, cfg, identity, insert).response.status == 200
    requires insert.id != ""  // row ids are generated UUIDs; an empty requestId is rejected as missing
    ensures
      var s := Submission.Submit(w, body, cfg, identity, insert);
      var id := insert.id;
      var c := Completion.Complete(s.world, "POST", Some(CompletionBody(id)), ccfg, false, false, link);
      && s.world.rows[id].status == Pending
      && c.response == Response(200, OkOnly)
      && c.world.rows[id] == s.world.rows[id].(status := Completed)
      && c.world.rows == s.world.rows[id := s.world.rows[id].(status := Completed)]
  {
    var s := Submission.Submit(w, body, cfg, identity, insert);
    var id := insert.id;
    assert OptField(Defined(CompletionBody(id)), "requestId") == Defined(Str(id));
  }

  /**
   * Calling the completion handler again for a request it already completed succeeds
   * again and leaves the table as it was; only the link request and the delivery
   * notification are repeated.
   */
  lemma CompleteTwice(w: World, id: string, ccfg: Completion.CompletionConfig,
                      updateFails: bool, link1: Completion.LinkOutcome, link2: Completion.LinkOutcome)
    requires id in w.rows && id != ""
    ensures
      var first := Completion.Complete(w, "POST", Some(CompletionBody(id)), ccfg, false, false, link1);
      var second := Completion.Complete(first.world, "POST", Some(CompletionBody(id)), ccfg, false, updateFails, link2);
      && first.response == Response(200, OkOnly)
      && second.response == Response(200, OkOnly)
      && second.world.rows == first.world.rows
      && second.world.rows[id].status == Completed
  {
    assert OptField(Defined(CompletionBody(id)), "requestId") == Defined(Str(id));
    var first := Completion.Complete(w, "POST", Some(CompletionBody(id)), ccfg, false, false, link1);
    var row := first.world.rows[id];
    assert row.status == Completed;
    assert first.world.rows[id := row.(status := Completed)] == first.world.rows;
  }

  /** A completion call for an id that is not in the table answers 404 and changes nothing. */
  lemma UnknownIdNotFound(w: World, id: string, ccfg: Completion.CompletionConfig,
                          lookupFails: bool, updateFails: bool, link: Completion.LinkOutcome)
    requires id !in w.rows && id != ""
    ensures
      var c := Completion.Complete(w, "POST", Some(CompletionBody(id)), ccfg, lookupFails, updateFails, link);
      c.response == Response(404, ErrorMessage("Request not found")) && c.world == w
  {
    assert OptField(Defined(CompletionBody(id)), "requestId") == Defined(Str(id));
  }

  /** One handler invocation with the outcomes of its external calls. */
  datatype Call =
    | SubmitCall(body: Option<Json>, cfg: Submission.SubmitConfig,
                 identity: Submission.IdentityOutcome, insert: Submission.InsertOutcome)
    | CompleteCall(httpMethod: string, cbody: Option<Json>, ccfg: Completion.CompletionConfig,
                   lookupFails: bool, updateFails: bool, link: Completion.LinkOutcome)

  function Apply(w: World, c: Call): World
  {
    match c
    case SubmitCall(body, cfg, identity, insert) => Submission.Submit(w, body, cfg, identity, insert).world
    case CompleteCall(m, body, cfg, lf, uf, link) => Completion.Complete(w, m, body, cfg, lf, uf, link).world
  }

  /** The backend after the calls, one after another. */
  function Run(w: World, calls: seq<Call>): World
    decreases |calls|
  {
    if calls == [] then w else Run(Apply(w, calls[0]), calls[1..])
  }

  /**
   * Over any sequence of submissions and completions no row disappears, a completed
   * row stays completed, and every notification sent names a stored row.
   */
  lemma {:induction false} RunKeepsInvariants(w: World, calls: seq<Call>)
    ensures StatusMonotone(w.rows, Run(w, calls).rows)
    ensures NoticesNameRows(w) ==> NoticesNameRows(Run(w, calls))
    decreases |calls|
  {
    if calls != [] {
      var w1 := Apply(w, calls[0]);
      assert StatusMonotone(w.rows, w1.rows) && (NoticesNameRows(w) ==> NoticesNameRows(w1));
      RunKeepsInvariants(w1, calls[1..]);
    }
  }
}
