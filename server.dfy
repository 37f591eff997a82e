/**
 * The webhook handler: decode the Gumroad ping, check its seller id, look the
 * buyer up on GitHub by email, then add them to the team, or remove them on a
 * refund. Every failure is caught and logged, and the response is 200 on
 * every path so that Gumroad never retries.
 */
module Server {
  import opened Wrappers
  import opened Form
  import opened Gumroad
  import opened GitHub

  /** An outbound call to GitHub, as it is issued. */
  datatype Call = Lookup(email: string) | Add(user: string) | Remove(user: string)

  /** The error a step throws; the handler catches and logs it. */
  datatype Failure =
    | BadActor                      // seller id missing or not the configured one
    | LookupFailed(email: string)   // the search reply was a SearchError (no `items` list)
    | UserNotFound(email: string)   // no item matched, or its login was empty
    | AddFailed(user: string)       // the PUT failed or its status was not ok
    | RemoveFailed(user: string)    // the DELETE failed or its status was not 204

  /** The inbound POST: its decoded form body, if it has one. */
  datatype Request = Request(body: Option<FormData>)

  /** What one request does: the calls it issues, in order, and the error it logs, if any. */
  datatype Outcome = Outcome(calls: seq<Call>, failure: Option<Failure>)

  /** The buyer's email the lookup is for. */
  function EmailOf(form: FormData): string
  {
    ConvertFormPayloadToJson(form).email
  }

  /** The membership change a payload asks for: removal on a refund, addition otherwise. */
  function MembershipChange(refunded: bool, user: string): Call
  {
    if refunded then Remove(user) else Add(user)
  }

  /** The request has a body whose seller id passes the shared-secret check. */
  predicate Authorized(expected: Option<string>, request: Request)
  {
    request.body.Some? && !IsBadRequest(ConvertFormPayloadToJson(request.body.value).sellerId, expected)
  }

  /** The non-empty login the search resolves the email to, if any (`!gitHubUsername` fails on ""). */
  function ResolvedUser(reply: SearchReply, email: string): Option<string>
  {
    if reply.SearchError? then None
    else match FindGitHubUserByEmail(reply.items, email)
      case Some(login) => if login == "" then None else Some(login)
      case None => None
  }

  /**
   * A user is resolved exactly when the search returned items and the
   * earliest qualifying item has a non-empty login; it is that login.
   */
  lemma ResolvedUserIsFirstMatch(reply: SearchReply, email: string)
    ensures ResolvedUser(reply, email).Some? <==>
      reply.Items? && exists i :: IsFirstQualifying(reply.items, email, i) && reply.items[i].login != ""
    ensures forall i :: reply.Items? && IsFirstQualifying(reply.items, email, i) ==>
      ResolvedUser(reply, email) == if reply.items[i].login == "" then None else Some(reply.items[i].login)
  {
  }

  /**
   * The handler's behaviour on one request, given what GitHub replies to the
   * search and to the membership change.
   */
  function Handle(expected: Option<string>, request: Request, search: SearchReply, mutation: MutationReply): (o: Outcome)
    // nothing is called without a body or an accepted seller id
    ensures !Authorized(expected, request) ==> o.calls == []
    // otherwise the first call is the lookup of the payload's email
    ensures Authorized(expected, request) ==> |o.calls| >= 1 && o.calls[0] == Lookup(EmailOf(request.body.value))
    // at most one membership change, and only for the user the search resolved
    ensures |o.calls| <= 2
    ensures |o.calls| == 2 ==>
      Authorized(expected, request) &&
      var p := ConvertFormPayloadToJson(request.body.value);
      ResolvedUser(search, p.email).Some? &&
      o.calls[1] == MembershipChange(p.refunded, ResolvedUser(search, p.email).value)
    // a request without a body is skipped: no call, nothing logged
    ensures request.body.None? ==> o == Outcome([], None)
    // any other request logs an error unless it went as far as a membership change
    ensures o.failure.None? ==> request.body.None? || |o.calls| == 2
  {
    match request.body
    case None => Outcome([], None)
    case Some(form) =>
      var payload := ConvertFormPayloadToJson(form);
      if IsBadRequest(payload.sellerId, expected) then Outcome([], Some(BadActor))
      else HandleAuthorized(payload, search, mutation)
  }

  /** The steps after the seller id was accepted: look the buyer up, then change their membership. */
  function HandleAuthorized(payload: Payload, search: SearchReply, mutation: MutationReply): (o: Outcome)
    ensures 1 <= |o.calls| <= 2 && o.calls[0] == Lookup(payload.email)
    ensures |o.calls| == 2 ==>
      ResolvedUser(search, payload.email).Some? &&
      o.calls[1] == MembershipChange(payload.refunded, ResolvedUser(search, payload.email).value)
    ensures o.failure.None? ==> |o.calls| == 2
  {
    var lookup := [Lookup(payload.email)];
    if search.SearchError? then Outcome(lookup, Some(LookupFailed(payload.email)))
    else match ResolvedUser(search, payload.email)
      case None => Outcome(lookup, Some(UserNotFound(payload.email)))
      case Some(user) =>
        if payload.refunded then
          Outcome(lookup + [Remove(user)], if RemoveSucceeded(mutation) then None else Some(RemoveFailed(user)))
        else
          Outcome(lookup + [Add(user)], if AddSucceeded(mutation) then None else Some(AddFailed(user)))
  }

  /**
   * With an accepted seller id and a resolved user, exactly one membership
   * change is issued for that user, and it is judged by its own success check.
   */
  lemma ResolvedUserGetsOneChange(expected: Option<string>, request: Request, search: SearchReply, mutation: MutationReply)
    requires Authorized(expected, request)
    requires ResolvedUser(search, EmailOf(request.body.value)).Some?
    ensures var p := ConvertFormPayloadToJson(request.body.value);
      var user := ResolvedUser(search, p.email).value;
      var o := Handle(expected, request, search, mutation);
      o.calls == [Lookup(p.email), MembershipChange(p.refunded, user)] &&
      (o.failure.None? <==> if p.refunded then RemoveSucceeded(mutation) else AddSucceeded(mutation)) &&
      (o.failure.Some? ==> o.failure.value == if p.refunded then RemoveFailed(user) else AddFailed(user))
  {
    var p := ConvertFormPayloadToJson(request.body.value);
    assert Handle(expected, request, search, mutation) == HandleAuthorized(p, search, mutation);
    OneChangeAfterValidation(p, search, mutation);
  }

  /** The part of `ResolvedUserGetsOneChange` after validation, stated on the decoded payload. */
  lemma OneChangeAfterValidation(p: Payload, search: SearchReply, mutation: MutationReply)
    requires ResolvedUser(search, p.email).Some?
    ensures var user := ResolvedUser(search, p.email).value;
      var o := HandleAuthorized(p, search, mutation);
      o.calls == [Lookup(p.email), MembershipChange(p.refunded, user)] &&
      (o.failure.None? <==> if p.refunded then RemoveSucceeded(mutation) else AddSucceeded(mutation)) &&
      (o.failure.Some? ==> o.failure.value == if p.refunded then RemoveFailed(user) else AddFailed(user))
  {
  }

  /** With an accepted seller id but no resolved user, only the lookup is issued, and an error is logged. */
  lemma UnresolvedUserGetsNoChange(expected: Option<string>, request: Request, search: SearchReply, mutation: MutationReply)
    requires Authorized(expected, request)
    requires ResolvedUser(search, EmailOf(request.body.value)).None?
    ensures var o := Handle(expected, request, search, mutation);
      o.calls == [Lookup(EmailOf(request.body.value))] && o.failure.Some?
  {
  }

  /** Without a configured seller id, or with an empty one, no request ever reaches GitHub. */
  lemma UnconfiguredSecretRejectsAll(expected: Option<string>, request: Request, search: SearchReply, mutation: MutationReply)
    requires expected == None || expected == Some("")
    ensures Handle(expected, request, search, mutation).calls == []
  {
  }

  /** A forged seller id: no call to GitHub, the attempt is logged. */
  lemma WrongSellerExample(search: SearchReply, mutation: MutationReply)
    ensures Handle(Some("S1"), Request(Some([Entry("email", "u@x.com"), Entry("seller_id", "WRONG")])), search, mutation)
      == Outcome([], Some(BadActor))
  {
  }

  /** No item matches the email exactly (the match differs in case): lookup only, user not found. */
  lemma NoMatchExample(mutation: MutationReply)
    ensures
      var form := [Entry("email", "nomatch@x.com"), Entry("seller_id", "S1")];
      var search := Items([SearchItem("someone", [TextMatch("email", "NoMatch@x.com")])]);
      Handle(Some("S1"), Request(Some(form)), search, mutation)
        == Outcome([Lookup("nomatch@x.com")], Some(UserNotFound("nomatch@x.com")))
  {
  }

  /** The ping for buyer u@x.com with the right seller id and the given `refunded` field. */
  function OctocatForm(refunded: string): FormData
  {
    [Entry("email", "u@x.com"), Entry("seller_id", "S1"), Entry("refunded", refunded)]
  }

  lemma OctocatFormDecodes(refunded: string)
    ensures ConvertFormPayloadToJson(OctocatForm(refunded)) == Payload("u@x.com", refunded == "true", "S1")
  {
    var form := OctocatForm(refunded);
    assert IsFirstNamed(form, "email", 0) && IsFirstNamed(form, "seller_id", 1) && IsFirstNamed(form, "refunded", 2);
  }

  /** A search reply with one item, "octocat", whose email is u@x.com. */
  function OctocatSearch(): SearchReply
  {
    Items([SearchItem("octocat", [TextMatch("email", "u@x.com")])])
  }

  lemma OctocatFound()
    ensures ResolvedUser(OctocatSearch(), "u@x.com") == Some("octocat")
  {
  }

  /** A sale for the buyer whose GitHub login is "octocat": one PUT for "octocat", which succeeds on 200. */
  lemma AddExample()
    ensures
      Handle(Some("S1"), Request(Some(OctocatForm("false"))), OctocatSearch(), Replied(200))
        == Outcome([Lookup("u@x.com"), Add("octocat")], None)
  {
    var form := OctocatForm("false");
    OctocatFound();
    OctocatFormDecodes("false");
    assert AddSucceeded(Replied(200));
    ResolvedUserGetsOneChange(Some("S1"), Request(Some(form)), OctocatSearch(), Replied(200));
  }

  /** The same buyer refunded: one DELETE for "octocat"; a reply other than 204 is logged as a failure. */
  lemma RemoveExample()
    ensures
      Handle(Some("S1"), Request(Some(OctocatForm("true"))), OctocatSearch(), Replied(200))
        == Outcome([Lookup("u@x.com"), Remove("octocat")], Some(RemoveFailed("octocat")))
  {
    var form := OctocatForm("true");
    OctocatFound();
    OctocatFormDecodes("true");
    ResolvedUserGetsOneChange(Some("S1"), Request(Some(form)), OctocatSearch(), Replied(200));
  }

  /**
   * One request/response exchange: the calls the handler has issued, the
   * errors it has logged, and the response status (None until set).
   */
  class WebhookHandler {
    const expectedSellerId: Option<string>
    var trace: seq<Call>
    var errors: seq<Failure>
    var status: Option<int>

    constructor (expectedSellerId: Option<string>)
      ensures this.expectedSellerId == expectedSellerId
      ensures trace == [] && errors == [] && status == None
    {
      this.expectedSellerId := expectedSellerId;
      trace, errors, status := [], [], None;
    }

    /** Issues the user search for `email`; throws when the reply is a `SearchError` (no `items` list). */
    method FindUser(email: string, search: SearchReply) returns (user: Option<string>, thrown: Option<Failure>)
      modifies this`trace
      ensures trace == old(trace) + [Lookup(email)]
      ensures thrown == if search.SearchError? then Some(LookupFailed(email)) else None
      ensures search.Items? ==> user == FindGitHubUserByEmail(search.items, email)
    {
      trace := trace + [Lookup(email)];
      if search.SearchError? {
        return None, Some(LookupFailed(email));
      }
      user, thrown := FindGitHubUserByEmail(search.items, email), None;
    }

    /** Issues the PUT adding `user` to the team; throws unless the reply is ok. */
    method AddToGitHubTeam(user: string, reply: MutationReply) returns (thrown: Option<Failure>)
      modifies this`trace
      ensures trace == old(trace) + [Add(user)]
      ensures thrown.None? <==> AddSucceeded(reply)
      ensures thrown.Some? ==> thrown.value == AddFailed(user)
    {
      trace := trace + [Add(user)];
      thrown := if AddSucceeded(reply) then None else Some(AddFailed(user));
    }

    /** Issues the DELETE removing `user` from the team; throws unless the reply is 204. */
    method RemoveFromGitHubTeam(user: string, reply: MutationReply) returns (thrown: Option<Failure>)
      modifies this`trace
      ensures trace == old(trace) + [Remove(user)]
      ensures thrown.None? <==> RemoveSucceeded(reply)
      ensures thrown.Some? ==> thrown.value == RemoveFailed(user)
    {
      trace := trace + [Remove(user)];
      thrown := if RemoveSucceeded(reply) then None else Some(RemoveFailed(user));
    }

    /** The `try` block of the handler: runs the steps and returns the error thrown, if any. */
    method Run(request: Request, search: SearchReply, mutation: MutationReply) returns (thrown: Option<Failure>)
      modifies this`trace
      ensures trace == old(trace) + Handle(expectedSellerId, request, search, mutation).calls
      ensures thrown == Handle(expectedSellerId, request, search, mutation).failure
    {
      if request.body.None? {
        return None;
      }
      var payload := ConvertFormPayloadToJson(request.body.value);
      if IsBadRequest(payload.sellerId, expectedSellerId) {
        return Some(BadActor);
      }
      thrown := Relay(payload, search, mutation);
    }

    /** The steps after validation: resolve the GitHub user, then add or remove them. */
    method Relay(payload: Payload, search: SearchReply, mutation: MutationReply) returns (thrown: Option<Failure>)
      modifies this`trace
      ensures trace == old(trace) + HandleAuthorized(payload, search, mutation).calls
      ensures thrown == HandleAuthorized(payload, search, mutation).failure
    {
      var user;
      user, thrown := FindUser(payload.email, search);
      if thrown.Some? {
        return;
      }
      if user.None? || user.value == "" {
        return Some(UserNotFound(payload.email));
      }
      if payload.refunded {
        thrown := RemoveFromGitHubTeam(user.value, mutation);
      } else {
        thrown := AddToGitHubTeam(user.value, mutation);
      }
    }

    /**
     * Handles one webhook POST: the error thrown by any step is logged, and
     * the response status is set to 200 on every path.
     */
    method ProcessWebhook(request: Request, search: SearchReply, mutation: MutationReply)
      modifies this`trace, this`errors, this`status
      ensures status == Some(200)
      ensures trace == old(trace) + Handle(expectedSellerId, request, search, mutation).calls
      ensures var f := Handle(expectedSellerId, request, search, mutation).failure;
        errors == old(errors) + (if f.Some? then [f.value] else [])
    {
      var thrown := Run(request, search, mutation);
      if thrown.Some? {
        errors := errors + [thrown.value];
      }
      status := Some(200);
    }
  }
}
