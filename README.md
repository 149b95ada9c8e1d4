# Accounts gateway of misstodon, modelled in Dafny

misstodon serves a Mastodon-shaped REST API and answers it by calling a
Misskey server. This project models the decision logic of its account
endpoints and of the two HTTP helpers they use.

- `internal/utils/http.go`: `GetHeaderToken` extracts a bearer token from the
  Authorization header, and `JoinURL` builds a URL from "https://", a server
  and extra parts. Both are pure functions over strings (`HttpUtils`). They
  rest on a model of the Go `strings` functions they call (`GoStrings`):
  `Contains`, `Split`, `Join`, plus `IndexOf` and `TakeUntil`, which give an
  independent description of a split's pieces.
- `internal/api/v1/accounts.go`: each handler is a function, or a method where
  the Go code loops. It maps a request to an `Exchange`. An `Exchange` lists
  the remote calls the handler issued, in order, and says how the handler
  ended:
  - a rendered response (status and body);
  - a remote error handed back to echo unchanged;
  - a panic.

  The Misskey service is a `Remote` value (`Misskey`): a record of total
  functions from the call record to an answer or a tagged error (`NotFound`,
  `AcctIsInvalid`, `Other`). Every proof therefore holds for every possible
  behaviour of the service. The target server is an explicit parameter.
  Parameters bound by echo arrive as given `Result` values.
  - Pagination defaults and clamps are in `Pagination`.
  - The update_credentials form parsing is in `UpdateForm`. It merges the
    value maps with loops over their keys, taken in any order.

Behaviours of the code worth knowing (the model follows the code):
- The token is the second space-separated piece of the whole header value,
  not the text after "Bearer": "Basic x Bearer y" yields "x"
  (`HttpUtils.TokenIsNotAfterMarker`).
- Get-by-id does not map `NotFound` to 404 as lookup does. It returns every
  remote error unchanged.
- The relationships handler does not reorder anything. It renders the remote
  answer as it is, which may be a nil slice. Only the follow-request,
  follower, following and status listings go through `SliceIfNull`.
- `AccountFollowRequests` is not registered in `AccountsRouter`
  (accounts.go:16-28). It is modelled as written all the same.
- The status listing sends no token at all to the remote service.

## Model

| member | source | states |
|---|---|---|
| `GoStrings.ContainsIffOccurs` | internal/utils/http.go:16 | strings.Contains as modelled holds exactly when the substring occurs at some position |
| `GoStrings.ContainsChar` | internal/utils/http.go:16 | every character of a contained string occurs in the containing string |
| `GoStrings.IndexOf` | internal/utils/http.go:19 | the first index of a character, or -1 exactly when it does not occur; no earlier occurrence |
| `GoStrings.TakeUntil` | internal/utils/http.go:19 | the longest prefix without the separator: a prefix, separator-free, ended by the separator or the end |
| `GoStrings.TakeUntilIndex` | internal/utils/http.go:19 | that prefix is cut at the separator's first index, or is the whole string |
| `GoStrings.TakeUntilAt` | internal/utils/http.go:19 | a separator at i with none before it makes the prefix exactly s[..i] |
| `GoStrings.SplitFirst` | internal/utils/http.go:19 | the first piece of strings.Split is the text before the first separator |
| `GoStrings.SplitAfterFirst` | internal/utils/http.go:19 | the pieces after the first are the split of the text after the first separator |
| `GoStrings.SplitPartsExcludeSep` | internal/utils/http.go:19 | no piece contains the separator |
| `GoStrings.SplitCount` | internal/utils/http.go:19 | the number of pieces is the number of separators plus one |
| `GoStrings.JoinSplit` | internal/utils/http.go:19 | joining the pieces with the separator gives back the value |
| `GoStrings.JoinConcat` | internal/utils/http.go:23 | joining with "" distributes over concatenation of the element lists |
| `HttpUtils.FirstValue` | internal/utils/http.go:12 | the header value is the first value of the key, "" when the key is absent or has no value |
| `HttpUtils.BearerValueSplitsInTwo` | internal/utils/http.go:16-19 | a value containing "Bearer " contains a space, so the split has at least two pieces and index 1 is in range |
| `HttpUtils.GetHeaderToken` | internal/utils/http.go:11-20 | empty value iff "Authorization header is required"; non-empty without "Bearer " anywhere iff "must be Bearer"; otherwise success; the token never holds a space and is the text between the first and the second space |
| `HttpUtils.TokenOrEmpty` | internal/api/v1/accounts.go:202 | a discarded extraction error leaves the empty token; otherwise the extracted token |
| `HttpUtils.TokenAt` | internal/utils/http.go:16-19 | a value with the marker at any position yields the text from its first space to the next |
| `HttpUtils.GetHeaderTokenErrorExamples` | internal/utils/http.go:12-18 | no header, a header with no value and "" are missing; "Basic abc" is not Bearer |
| `HttpUtils.SecondPieceOfExample` | internal/utils/http.go:19 | the second piece of "Bearer abc def" stops at the next space |
| `HttpUtils.TokenStopsAtNextSpace` | internal/utils/http.go:19 | "Bearer abc def" yields "abc" |
| `HttpUtils.TokenMayBeEmpty` | internal/utils/http.go:19 | "Bearer " yields the empty token |
| `HttpUtils.MarkerFoundAnywhere` | internal/utils/http.go:16-19 | "xBearer tok" yields "tok": the marker need not be a prefix |
| `HttpUtils.SecondPieceOfMisplacedMarker` | internal/utils/http.go:19 | the second piece of "Basic x Bearer y" is "x" |
| `HttpUtils.TokenIsNotAfterMarker` | internal/utils/http.go:16-19 | "Basic x Bearer y" yields "x", the second piece, not the text after the marker |
| `HttpUtils.JoinURL` | internal/utils/http.go:22-24 | the URL is "https://" + server + the parts in order; it starts with "https://"; with no parts it is "https://" + server |
| `HttpUtils.JoinURLAppend` | internal/utils/http.go:23 | one more part appends exactly that part's text |
| `Pagination.FollowRequestsLimit` | internal/api/v1/accounts.go:189-191 | a limit of 0 or less becomes 40; a positive limit is kept, with no upper clamp |
| `Pagination.FollowListLimit` | internal/api/v1/accounts.go:213-218 | 0 or less becomes 40, above 80 becomes 80, anything else is kept; the result lies in [1, 80] |
| `Pagination.FollowRequestsLimitIdempotent` | internal/api/v1/accounts.go:189-191 | normalising the follow-request limit twice equals once |
| `Pagination.FollowListLimitIdempotent` | internal/api/v1/accounts.go:239-244 | normalising the follower/following limit twice equals once |
| `Pagination.FollowLimitsAgreeUpToMax` | internal/api/v1/accounts.go:213-218 | the follower and follow-request rules agree exactly on the limits up to 80 |
| `Pagination.ResolveStatusesParams` | internal/api/v1/accounts.go:72-89 | the limit is 30 only when absent and otherwise passed as given; each flag holds only when given as true; an absent max_id/min_id is "" |
| `UpdateForm.MergedValuesLastWriterWins` | internal/api/v1/accounts.go:149-162 | the merged keys are the union of query, form and multipart keys; each key takes the values of the last source holding it (query < form < multipart) |
| `UpdateForm.Overwrite` | internal/api/v1/accounts.go:150-152 | copying a map in: the keys of both; the copied entries win; other entries stay |
| `UpdateForm.MergeValues` | internal/api/v1/accounts.go:149-162 | the three copy loops build exactly the merged value map |
| `UpdateForm.ParseUpdateCredentialsForm` | internal/api/v1/accounts.go:143-173 | a binding error is returned as it is; otherwise the bound fields are kept and the decoded profile fields are appended, in order, to those already bound |
| `Accounts.SliceIfNull` | internal/api/v1/accounts.go:104 | assumed contract of a helper whose source is not shown: nil renders as the empty list, other slices as themselves |
| `Accounts.MissingImageURL` | internal/api/v1/accounts.go:64 | the placeholder `<scheme>://<host>/static/missing.png` is longer than scheme and host together, so never empty |
| `Accounts.WithHeaderFallback` | internal/api/v1/accounts.go:63-66 | either header image empty: both become the same placeholder; both non-empty: unchanged; no other field changes; both are non-empty afterwards |
| `Accounts.WithHeaderFallbackIdempotent` | internal/api/v1/accounts.go:313-316 | applying the fallback twice equals once |
| `Accounts.AccountsVerifyCredentialsHandler` | internal/api/v1/accounts.go:30-41 | a bad token gives 401 with the extraction message and no remote call, and 401 only then; otherwise one call, and the account is returned without the fallback |
| `Accounts.LookupError` | internal/api/v1/accounts.go:51-62 | NotFound gives 404 "Record not found"; AcctIsInvalid gives 400 with the error's message; any other error is returned unchanged |
| `Accounts.AccountsLookupHandler` | internal/api/v1/accounts.go:43-68 | an empty acct gives 400 "acct is required" with no remote call; otherwise exactly one lookup, errors mapped as above, a found account gets the fallback; never 401 |
| `Accounts.AccountsStatusesHandler` | internal/api/v1/accounts.go:70-105 | a binding error gives 400 with field and message and no call; otherwise one call with the resolved parameters and no token; statuses render as a list even when nil |
| `Accounts.StatusesLimitForwardedVerbatim` | internal/api/v1/accounts.go:96-100 | a limit given in the query reaches the remote call unchanged, whatever its value |
| `Accounts.AccountsUpdateCredentialsHandler` | internal/api/v1/accounts.go:107-127 | a form error gives 400 before the token is looked at; then a bad token gives 401; otherwise one call carrying the parsed changes |
| `Accounts.AccountFollowRequestsHandler` | internal/api/v1/accounts.go:175-198 | a bad token gives 401 before the query is bound; a bind error gives 400; otherwise one call with the limit normalised to default 40 and no clamp |
| `Accounts.AccountFollowersHandler` | internal/api/v1/accounts.go:200-224 | never 401: a bad token sends ""; a bind error gives 400; otherwise one call with the limit in [1, 80]; accounts render as a list even when nil |
| `Accounts.AccountFollowingHandler` | internal/api/v1/accounts.go:226-250 | never 401: a bad token sends ""; a bind error gives 400; otherwise one call with the limit in [1, 80]; accounts render as a list even when nil |
| `Accounts.CollectIds` | internal/api/v1/accounts.go:258-264 | the ids are exactly the values of "id[]" in their order, duplicates kept, other keys ignored |
| `Accounts.AccountRelationshipsHandler` | internal/api/v1/accounts.go:252-270 | a bad token gives 401 with no call; otherwise one call with the "id[]" values, and the remote answer rendered as it is |
| `Accounts.FirstRelationship` | internal/api/v1/accounts.go:286 | a panic exactly when the re-fetch returned no relationship; otherwise the first one with 200 |
| `Accounts.AccountFollowHandler` | internal/api/v1/accounts.go:272-287 | a bad token gives 401 with no call; a failed follow is returned with no re-fetch; otherwise the relationships of exactly [id] are fetched second and the first is returned |
| `Accounts.AccountUnfollowHandler` | internal/api/v1/accounts.go:289-304 | a bad token gives 401 with no call; a failed unfollow is returned with no re-fetch; otherwise the relationships of exactly [id] are fetched second and the first is returned |
| `Accounts.AccountsGetHandler` | internal/api/v1/accounts.go:306-318 | never 401: a bad token sends ""; exactly one call; remote errors returned unchanged; a found account gets the fallback |
| `Accounts.BadTokenActsAsNoToken` | internal/api/v1/accounts.go:306-309 | for followers, following and get-by-id, a malformed token gives exactly the same exchange as no Authorization header |

## Left out

- `AccountsRouter` and echo's routing are not modelled. Each handler is a separate entry point.
- Echo's parameter binding (`c.Bind`, `QueryParamsBinder`, `BindingError`) is not modelled. The bound values, or the binding error, are inputs of the handlers.
- JSON rendering is not modelled. A response is a status and a body record.
- The `misskey.*` calls are network I/O. They are the functions of a `Remote` value, so nothing is assumed about what the service answers.
- `utils.GetFieldsAttributes` is not part of this model. Its source is not shown, so the profile-field decoder is a parameter of the form parsing.
- `Accounts.SliceIfNull`: its source is not shown. Its body is the never-null rendering assumed above.
- The avatar and header file uploads (`c.FormFile`, accounts.go:166-171) are not modelled. The changes sent by update_credentials carry no files.
- `c.Get("server").(string)` is replaced by an explicit `server` parameter. The panic of a missing server value is not modelled.
- `http.Header.Get` is a first-value lookup. Key canonicalisation is not modelled.
- What echo does with a handler's panic (`relationships[0]` on an empty re-fetch) is not modelled. The outcome is `Panic`.
- Limits are unbounded integers. Go's 64-bit `int` only matters when parsing the query, which is part of binding.
- `strings.Split` is modelled for a one-character separator, the only kind used (" ").
- Go's map iteration order is not modelled. The loops over map keys take the keys in an arbitrary order, and the results are proved not to depend on it.
- `Misskey.Account` carries a chosen set of profile fields. The `models` package is not part of this model.
- proxy/misskey/accounts_test.go is a live-network test. It states nothing about the handlers.
