# Gumroad → GitHub team access relay, modelled in Dafny

The `gumroad-github-access` service receives Gumroad's sale notification (the
"ping", a form-encoded POST), checks that it carries the configured Gumroad
seller id, looks the buyer up on GitHub by email, and then adds that GitHub user
to a team, or removes them from it when the sale was refunded. Every failure is
caught and logged, and the response status is 200 on every path so that Gumroad
never retries.

This project models the request-handling decision logic of
`services/gumroad-github-access/src/server.ts`:

- `wrappers.dfy` — `Option`, standing for JavaScript's `null`/`undefined`.
- `seqs.dfy` — first-match search (`Array.prototype.find`) as `Find`/`FindIndex`
  over a predicate. Its contract is the earliest satisfying element, or none.
- `form.dfy` — the decoded form body as name/value pairs, and `Get`. `Get` is
  the `get` lookup of section 6.2 of the WHATWG URL Standard: the value of the
  first pair with that name. A later repeat of a name never changes it.
- `gumroad.dfy` — the payload (`email`, `refunded`, `seller_id`), its decoding
  `ConvertFormPayloadToJson`, and the shared-secret check `IsBadRequest`. The
  configured seller id is a parameter (`Option<string>`, None when unset).
- `github.dfy` — the decoded user-search response (items with `login` and
  `text_matches`), `FindGitHubUserByEmail`, and the success checks for the
  team-membership PUT and DELETE replies.
- `server.dfy` — `Handle`, a function giving the calls one request issues and
  the error it logs. `WebhookHandler` is a class whose `ProcessWebhook`
  method mirrors the source's `try`/`catch`/`finally`. It appends each issued
  call (`Lookup`, `Add`, `Remove`) to `trace` and each caught error to `errors`,
  and sets `status` to 200. Its contract ties `trace` and `errors` to `Handle`.

GitHub's replies are inputs. A `SearchReply` is either the decoded items or an
error. The error stands for a failed request, a body that is not JSON, or a
body without an `items` list; in the source the `fetch`, `res.json()` or
`data.items.find` then throws. A `MutationReply` is either an HTTP status or a network error. Whether a
reply is `ok` follows the Fetch Standard: a status from 200 to 299.

## Model

| member | source | states |
|---|---|---|
| `Seqs.FindIndex` | services/gumroad-github-access/src/server.ts:61-65 | the index returned is of the earliest element satisfying the predicate; none is returned exactly when no element satisfies it |
| `Seqs.Find` | services/gumroad-github-access/src/server.ts:61-65 | `find` returns the earliest satisfying element, and returns none exactly when no element satisfies the predicate |
| `Form.Get` | services/gumroad-github-access/src/server.ts:44-46 | `get(name)` is none exactly when no pair has that name, and otherwise is the value of the first pair with that name |
| `Form.GetIgnoresLaterPairs` | services/gumroad-github-access/src/server.ts:44-46 | once a name occurs in the form, appending more pairs (repeats included) does not change what `get` returns |
| `Gumroad.ConvertFormPayloadToJson` | services/gumroad-github-access/src/server.ts:41-47 | `email` and `seller_id` are the first form value for their name, or "" when the name is absent; `refunded` holds iff the first `refunded` value is exactly "true" |
| `Gumroad.DecodeIgnoresRepeatedFields` | services/gumroad-github-access/src/server.ts:43-47 | when all three fields occur, appended pairs never change the decoded payload |
| `Gumroad.DecodeExample` | services/gumroad-github-access/src/server.ts:41-47 | `email=a@b.com&seller_id=X&refunded=true` decodes to email "a@b.com", seller id "X", refunded |
| `Gumroad.RefundedIsExactTrue` | services/gumroad-github-access/src/server.ts:45 | "TRUE", "1", a missing field, and a first value "false" followed by "true" all decode to not refunded |
| `Gumroad.IsBadRequest` | services/gumroad-github-access/src/server.ts:106-107 | a request is accepted iff a non-empty seller id is configured and the payload's seller id equals it; with none configured, or "", every request is rejected |
| `GitHub.FindGitHubUserByEmail` | services/gumroad-github-access/src/server.ts:61-66 | the result is the login of the earliest item having a text match on property "email" whose fragment equals the email exactly (case-sensitive); it is null iff no item has one |
| `GitHub.LaterItemsIgnored` | services/gumroad-github-access/src/server.ts:61-66 | once some item qualifies, appending further items (qualifying or not) does not change the login found |
| `GitHub.AddSucceeded` | services/gumroad-github-access/src/server.ts:80 | the PUT counts as successful iff GitHub replied with an ok status (200 to 299); a network error is a failure |
| `GitHub.RemoveSucceeded` | services/gumroad-github-access/src/server.ts:99 | the DELETE counts as successful iff GitHub replied with status 204 exactly |
| `GitHub.RemoveCheckIsStricter` | services/gumroad-github-access/src/server.ts:80-103 | every reply accepted by the remove check is accepted by the add check, and a 200 reply separates the two |
| `Server.ResolvedUserIsFirstMatch` | services/gumroad-github-access/src/server.ts:134-141 | a user is resolved iff the search returned items and the earliest qualifying item has a non-empty login (`!gitHubUsername` also rejects ""); it is that login |
| `Server.Handle` | services/gumroad-github-access/src/server.ts:116-154 | a request without a body issues no call and logs nothing; one whose seller id is not accepted issues no call; otherwise the first call is the lookup of the payload's email; at most one membership change follows, only for the resolved user, a removal iff refunded; a request logs no error only when it has no body or it went as far as a membership change |
| `Server.HandleAuthorized` | services/gumroad-github-access/src/server.ts:134-153 | after validation the lookup is issued first, then at most one change for the resolved user, and success requires that change |
| `Server.ResolvedUserGetsOneChange` | services/gumroad-github-access/src/server.ts:143-153 | with an accepted seller id and a resolved user, the calls are exactly the lookup and one Remove (refunded) or Add (otherwise) for that user; no error is logged iff that call's own check succeeds, otherwise the matching failure is logged |
| `Server.UnresolvedUserGetsNoChange` | services/gumroad-github-access/src/server.ts:134-141 | with an accepted seller id but no resolved user, only the lookup is issued and an error is logged |
| `Server.UnconfiguredSecretRejectsAll` | services/gumroad-github-access/src/server.ts:106-107 | when no seller id is configured, or an empty one, no request ever issues a call to GitHub |
| `Server.WrongSellerExample` | services/gumroad-github-access/src/server.ts:124-132 | seller id "WRONG" against configured "S1": no calls, the attempt is logged as a bad actor |
| `Server.NoMatchExample` | services/gumroad-github-access/src/server.ts:134-141 | a search whose only fragment differs in case from the email: only the lookup, and the user is not found |
| `Server.AddExample` | services/gumroad-github-access/src/server.ts:148-153 | a sale for u@x.com matching login "octocat": lookup, then one Add("octocat"), which succeeds on a 200 reply |
| `Server.RemoveExample` | services/gumroad-github-access/src/server.ts:143-147 | the same buyer refunded: lookup, then one Remove("octocat"); a 200 reply (not 204) is logged as a failure |
| `Server.WebhookHandler.FindUser` | services/gumroad-github-access/src/server.ts:53-67 | appends Lookup(email) to the trace; throws iff the reply is a `SearchError` (no `items` list), otherwise returns the login `FindGitHubUserByEmail` finds |
| `Server.WebhookHandler.AddToGitHubTeam` | services/gumroad-github-access/src/server.ts:69-87 | appends Add(user) to the trace; throws iff the reply fails the add check |
| `Server.WebhookHandler.RemoveFromGitHubTeam` | services/gumroad-github-access/src/server.ts:89-104 | appends Remove(user) to the trace; throws iff the reply fails the remove check |
| `Server.WebhookHandler.Run` | services/gumroad-github-access/src/server.ts:116-154 | the `try` block appends exactly `Handle`'s calls to the trace and throws exactly `Handle`'s failure |
| `Server.WebhookHandler.Relay` | services/gumroad-github-access/src/server.ts:134-153 | the steps after validation append exactly `HandleAuthorized`'s calls and throw its failure |
| `Server.WebhookHandler.ProcessWebhook` | services/gumroad-github-access/src/server.ts:109-164 | on every path the status becomes 200 and no error escapes; the trace gains exactly the calls `Handle` gives, and the caught error, if any, is appended to the log |

## Left out

- HTTP server bootstrapping, router wiring and the listen port (server.ts:166-175): framework I/O.
- Network calls, URL construction, headers and the access token. The
  unencoded `q=${email}` in the search URL is one of these, so an email
  containing `+` or `&` is not modelled. The replies are inputs instead.
- Reading the body (`request.body()`) and percent-decoding it: the form is
  modelled as already-decoded name/value pairs.
- Reading environment variables: the expected seller id is a parameter.
- Log and error message text, and the header dump on a bad request:
  observability only. The model records which failure was caught, not the message.
- The empty response body and any header other than the status.
- `async`/`await` scheduling: each request is one sequential run with no shared state.
- The optional payload fields other than `email`, `refunded` and `seller_id` (server.ts:9-38): nothing reads them.
- GitHub.AddSucceeded: `res.json()` is read before the ok check, so a reply
  body that is not JSON also makes the add throw. The model judges the add by
  its status alone.
- The status the response carries before the handler sets it is not modelled;
  it is None in `WebhookHandler` until `ProcessWebhook` sets 200.
