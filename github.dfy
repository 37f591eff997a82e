/**
 * The GitHub side of the relay: the decoded user-search response, the choice
 * of the user whose public email matches the buyer's, and how the replies to
 * the team-membership PUT and DELETE are judged.
 */
module GitHub {
  import opened Wrappers
  import opened Seqs

  /** One entry of an item's `text_matches`: which profile field matched, and the matched text. */
  datatype TextMatch = TextMatch(property: string, fragment: string)

  /** One item of the search response's `items`. */
  datatype SearchItem = SearchItem(login: string, textMatches: seq<TextMatch>)

  /**
   * What the user search gave back: the decoded `items`, or an error (the
   * request failed, the body was not JSON, or it had no `items` list, as in
   * GitHub's error responses).
   */
  datatype SearchReply = Items(items: seq<SearchItem>) | SearchError

  /** What a team-membership PUT or DELETE gave back: an HTTP status, or a network error. */
  datatype MutationReply = Replied(status: int) | NetworkError

  /** The text match names the email property and its fragment is exactly `email`. */
  function IsEmailMatch(email: string): TextMatch -> bool
  {
    (m: TextMatch) => m.property == "email" && m.fragment == email
  }

  /** The item's text matches contain an exact email match. */
  function HasEmailMatch(email: string): SearchItem -> bool
  {
    (item: SearchItem) => Find(item.textMatches, IsEmailMatch(email)).Some?
  }

  /** Some text match of `item` is on the email property with exactly `email` as fragment. */
  ghost predicate Qualifies(item: SearchItem, email: string)
  {
    exists k :: 0 <= k < |item.textMatches| &&
      item.textMatches[k].property == "email" && item.textMatches[k].fragment == email
  }

  /** `i` is the earliest qualifying item of `items`. */
  ghost predicate IsFirstQualifying(items: seq<SearchItem>, email: string, i: int)
  {
    0 <= i < |items| && Qualifies(items[i], email) &&
    forall j :: 0 <= j < i ==> !Qualifies(items[j], email)
  }

  /**
   * The login of the first search item with an exact, case-sensitive match
   * of `email` on the email property; none when no item has one.
   */
  function FindGitHubUserByEmail(items: seq<SearchItem>, email: string): (login: Option<string>)
    ensures login.None? <==> forall j :: 0 <= j < |items| ==> !Qualifies(items[j], email)
    ensures login.Some? ==> exists i :: IsFirstQualifying(items, email, i) && login.value == items[i].login
    ensures forall i :: IsFirstQualifying(items, email, i) ==> login == Some(items[i].login)
  {
    match Find(items, HasEmailMatch(email))
    case None => None
    case Some(item) => Some(item.login)
  }

  /** Items after the first qualifying one never change the resolved login. */
  lemma {:induction false} LaterItemsIgnored(items: seq<SearchItem>, more: seq<SearchItem>, email: string)
    requires exists j :: 0 <= j < |items| && Qualifies(items[j], email)
    ensures FindGitHubUserByEmail(items + more, email) == FindGitHubUserByEmail(items, email)
  {
    var login := FindGitHubUserByEmail(items, email);
    var i :| IsFirstQualifying(items, email, i) && login.value == items[i].login;
    assert IsFirstQualifying(items + more, email, i);
  }

  /** `Response.ok` of the Fetch Standard: the status is in the range 200 to 299. */
  predicate IsOk(status: int)
  {
    200 <= status <= 299
  }

  /** The PUT adding a team member succeeded: a reply whose status is ok. */
  function AddSucceeded(reply: MutationReply): (success: bool)
    ensures success <==> reply.Replied? && IsOk(reply.status)
  {
    match reply
    case Replied(status) => IsOk(status)
    case NetworkError => false
  }

  /** The DELETE removing a team member succeeded: a reply with status 204 No Content. */
  function RemoveSucceeded(reply: MutationReply): (success: bool)
    ensures success <==> reply == Replied(204)
  {
    match reply
    case Replied(status) => status == 204
    case NetworkError => false
  }

  /**
   * The remove check is the stricter one: every reply it accepts the add check
   * accepts too, but a plain 200 reply to the DELETE counts as a failure.
   */
  lemma RemoveCheckIsStricter(reply: MutationReply)
    ensures RemoveSucceeded(reply) ==> AddSucceeded(reply)
    ensures AddSucceeded(Replied(200)) && !RemoveSucceeded(Replied(200))
  {
  }
}
