/**
 * The alternative submission edge function `submit-ai-readiness`: a chain of checks
 * (method, JSON, email and consent, a non-blank website URL) that answers 200 for a
 * payload passing all of them and stores nothing.
 */
module SubmitEdge {
  import opened Values
  import opened Text
  import opened Http
  import Submission

  const MissingEmailOrConsent := Response(400, ErrorMessage("Email and consent are required"))
  const MissingWebsite := Response(400, ErrorMessage("Website URL is required"))
  const Received := Response(200, OkOnly)

  /** A response, or an exception that nothing catches. */
  datatype Outcome = Replied(response: Response) | Throws

  /**
   * The chain exactly as written. `body.email` is read without a null check, and
   * `body.websiteUrl.trim()` is called on any truthy value, so a null body and a
   * truthy website URL that is not a string both throw a TypeError.
   */
  function RespondAsWritten(httpMethod: string, body: Option<Json>): (r: Outcome)
    ensures r == Throws <==>
      && httpMethod == "POST" && body.Some?
      && (|| body.value == Null
          || (&& Truthy(Submission.Read(body.value, "email")) && Truthy(Submission.Read(body.value, "consent"))
              && Truthy(Submission.Read(body.value, "websiteUrl"))
              && !Submission.Read(body.value, "websiteUrl").json.Str?))
    ensures r == Replied(Received) ==> body.Some? && HasWebsite(Submission.Read(body.value, "websiteUrl"))
  {
    if httpMethod != "POST" then Replied(MethodNotAllowed)
    else if body.None? then Replied(InvalidJson)
    else if body.value == Null then Throws
    else
      var b := Defined(body.value);
      if !Truthy(Field(b, "email")) || !Truthy(Field(b, "consent")) then Replied(MissingEmailOrConsent)
      else
        var website := Field(b, "websiteUrl");
        if !Truthy(website) then Replied(MissingWebsite)
        else if !website.json.Str? then Throws
        else if Trim(website.json.s) == "" then Replied(MissingWebsite)
        else Replied(Received)
  }

  /** The inputs that show it: the JSON body `null`, and a body whose websiteUrl is the number 5. */
  lemma AsWrittenThrows()
    ensures RespondAsWritten("POST", Some(Null)) == Throws
    ensures RespondAsWritten("POST", Some(Obj(map["email" := Str("a@b.com"), "consent" := Bool(true), "websiteUrl" := Num(5.0)]))) == Throws
  {
    var b := Obj(map["email" := Str("a@b.com"), "consent" := Bool(true), "websiteUrl" := Num(5.0)]);
    assert Field(Defined(b), "websiteUrl") == Defined(Num(5.0));
  }

  /** The website check: a string containing a non-whitespace character. */
  predicate HasWebsite(website: JsValue)
  {
    website.Defined? && website.json.Str? && !AllWhitespace(website.json.s)
  }

  /**
   * The chain with a null body read as one without email or consent and a non-string
   * website URL rejected like a missing one. It never throws, agrees with the code
   * wherever the code does not throw, runs its checks in order with the first failure
   * deciding, and accepts exactly the payloads with email, consent and a non-blank
   * website URL, whatever the company name.
   */
  function Respond(httpMethod: string, body: Option<Json>): (r: Response)
    ensures RespondAsWritten(httpMethod, body).Replied? ==> r == RespondAsWritten(httpMethod, body).response
    ensures r.status in {200, 400, 405}
    ensures httpMethod != "POST" ==> r == MethodNotAllowed
    ensures httpMethod == "POST" && body.None? ==> r == InvalidJson
    ensures (&& httpMethod == "POST" && body.Some?
             && (!Truthy(Submission.Read(body.value, "email")) || !Truthy(Submission.Read(body.value, "consent")))) ==>
      r == MissingEmailOrConsent
    ensures (&& httpMethod == "POST" && body.Some?
             && Truthy(Submission.Read(body.value, "email")) && Truthy(Submission.Read(body.value, "consent"))
             && !HasWebsite(Submission.Read(body.value, "websiteUrl"))) ==>
      r == MissingWebsite
    ensures r.status == 200 <==>
      && httpMethod == "POST" && body.Some?
      && Truthy(Submission.Read(body.value, "email")) && Truthy(Submission.Read(body.value, "consent"))
      && HasWebsite(Submission.Read(body.value, "websiteUrl"))
    ensures r.status == 200 ==> r == Received
  {
    if httpMethod == "POST" && body == Some(Null) then MissingEmailOrConsent
    else
      match RespondAsWritten(httpMethod, body)
      case Replied(response) => response
      case Throws => MissingWebsite
  }

  /** A payload this function accepts is also accepted by the submission endpoint's validation. */
  lemma AcceptedByRoute(body: Option<Json>)
    ensures Respond("POST", body).status == 200 ==> Submission.Validate(body).Accepted?
  {
  }

  /** The converse fails: a company name alone satisfies the submission endpoint but not this function. */
  lemma CompanyNameAloneRejected()
    ensures
      var body := Some(Obj(map["email" := Str("a@b.com"), "consent" := Bool(true), "companyName" := Str("Acme")]));
      Submission.Validate(body).Accepted? && Respond("POST", body) == MissingWebsite
  {
    var b := Obj(map["email" := Str("a@b.com"), "consent" := Bool(true), "companyName" := Str("Acme")]);
    assert Field(Defined(b), "websiteUrl") == Undefined;
    assert Field(Defined(b), "companyName") == Defined(Str("Acme"));
  }
}
