/**
 * The Mastodon account endpoints of the gateway (internal/api/v1/accounts.go).
 * Each handler maps a request to the remote calls it issues, in order, and to
 * what it answers. The target server is an explicit parameter, and echo's
 * parameter binding is given as its result.
 */
module Accounts {
  import opened Wrappers
  import opened HttpUtils
  import opened Misskey
  import opened Pagination
  import opened UpdateForm

  const StatusOK: int := 200
  const StatusBadRequest: int := 400
  const StatusUnauthorized: int := 401
  const StatusNotFound: int := 404

  /** The parts of an inbound request the handlers read. */
  datatype Request = Request(
    scheme: string,
    host: string,
    header: Values,
    query: Values,
    form: Option<Values>,       // the values c.FormParams() returns, when it succeeds
    multipart: Option<Values>)  // the multipart body's values, when it parses

  /** A failure of echo's typed parameter binder: the offending field and the message. */
  datatype BindingError = BindingError(field: string, message: string)

  /** The query of a follower or following listing; an absent parameter binds as 0 or "". */
  datatype ListQuery = ListQuery(limit: int, maxId: string, minId: string, sinceId: string)

  /** The query of a follow-request listing; an absent parameter binds as 0 or "". */
  datatype FollowRequestsQuery = FollowRequestsQuery(limit: int, maxId: string, sinceId: string)

  /** The JSON a handler renders. */
  datatype Body =
    | ErrorBody(error: string)
    | FieldErrorBody(field: string, error: string)
    | AccountBody(account: Account)
    | AccountsBody(accounts: seq<Account>)
    | StatusesBody(statuses: seq<Status>)
    | RelationshipsBody(relationships: GoSlice<Relationship>)
    | RelationshipBody(relationship: Relationship)

  /**
   * How a handler ends: a response it renders, a remote error it returns to
   * echo unchanged, or a panic (indexing an empty relationship list).
   */
  datatype Outcome = Respond(status: int, body: Body) | Fail(error: RemoteError) | Panic

  /** The remote calls a handler issued, in order, and how it ended. */
  datatype Exchange = Exchange(calls: seq<Call>, outcome: Outcome)

  /** The answer to a missing or malformed token: 401 carrying the extraction error, no remote call. */
  function Unauthorized(e: TokenError): Exchange {
    Exchange([], Respond(StatusUnauthorized, ErrorBody(e.Message())))
  }

  /** True when the outcome is a 401 response. */
  predicate IsUnauthorized(o: Outcome) {
    o.Respond? && o.status == StatusUnauthorized
  }

  /**
   * utils.SliceIfNull (its source is not part of this model), with its assumed
   * contract: a nil slice renders as an empty list, anything else as itself.
   */
  function SliceIfNull<T>(s: GoSlice<T>): (r: seq<T>)
    ensures s.Nil? ==> r == []
    ensures s.Elems? ==> r == s.elems
  {
    match s
    case Nil => []
    case Elems(e) => e
  }

  /** The placeholder header image: `<scheme>://<host>/static/missing.png`. */
  function MissingImageURL(scheme: string, host: string): (url: string)
    ensures |url| > |scheme| + |host|
  {
    scheme + "://" + host + "/static/missing.png"
  }

  /**
   * The header fallback of lookup and get: when either header image is empty,
   * both become the placeholder; otherwise the account is returned as it is.
   */
  function WithHeaderFallback(a: Account, scheme: string, host: string): (r: Account)
    ensures a.header != "" && a.headerStatic != "" ==> r == a
    ensures a.header == "" || a.headerStatic == "" ==>
      r.header == MissingImageURL(scheme, host) && r.headerStatic == MissingImageURL(scheme, host)
    ensures r.(header := a.header, headerStatic := a.headerStatic) == a
    ensures r.header != "" && r.headerStatic != ""
  {
    if a.header == "" || a.headerStatic == "" then
      var url := MissingImageURL(scheme, host);
      a.(header := url, headerStatic := url)
    else a
  }

  /** Applying the fallback a second time changes nothing. */
  lemma WithHeaderFallbackIdempotent(a: Account, scheme: string, host: string)
    ensures WithHeaderFallback(WithHeaderFallback(a, scheme, host), scheme, host)
         == WithHeaderFallback(a, scheme, host)
  {
  }

  /** GET /accounts/verify_credentials: token required; the account is returned without the header fallback. */
  function AccountsVerifyCredentialsHandler(req: Request, server: string, remote: Remote): (x: Exchange)
    ensures GetHeaderToken(req.header).Err? ==> x == Unauthorized(GetHeaderToken(req.header).error)
    ensures IsUnauthorized(x.outcome) <==> GetHeaderToken(req.header).Err?
    ensures GetHeaderToken(req.header).Ok? ==>
      var call := VerifyCredentials(server, GetHeaderToken(req.header).value);
      x.calls == [call] &&
      (remote.account(call).Ok? ==> x.outcome == Respond(StatusOK, AccountBody(remote.account(call).value))) &&
      (remote.account(call).Err? ==> x.outcome == Fail(remote.account(call).error))
  {
    match GetHeaderToken(req.header)
    case Err(e) => Unauthorized(e)
    case Ok(token) =>
      var call := VerifyCredentials(server, token);
      match remote.account(call)
      case Err(e) => Exchange([call], Fail(e))
      case Ok(info) => Exchange([call], Respond(StatusOK, AccountBody(info)))
  }

  /** How lookup answers a remote error: the two sentinels become responses, anything else is returned. */
  function LookupError(e: RemoteError): (o: Outcome)
    ensures e.kind == NotFound ==> o == Respond(StatusNotFound, ErrorBody("Record not found"))
    ensures e.kind == AcctIsInvalid ==> o == Respond(StatusBadRequest, ErrorBody(e.message))
    ensures e.kind == Other ==> o == Fail(e)
  {
    match e.kind
    case NotFound => Respond(StatusNotFound, ErrorBody("Record not found"))
    case AcctIsInvalid => Respond(StatusBadRequest, ErrorBody(e.message))
    case Other => Fail(e)
  }

  /**
   * GET /accounts/lookup?acct=: an empty handle is refused before any remote
   * call; remote sentinels map to 404 and 400; a found account gets the header
   * fallback.
   */
  function AccountsLookupHandler(req: Request, server: string, remote: Remote): (x: Exchange)
    ensures FirstValue(req.query, "acct") == "" ==>
      x == Exchange([], Respond(StatusBadRequest, ErrorBody("acct is required")))
    ensures FirstValue(req.query, "acct") != "" ==>
      var call := AccountsLookup(server, FirstValue(req.query, "acct"));
      x.calls == [call] &&
      (remote.account(call).Err? ==> x.outcome == LookupError(remote.account(call).error)) &&
      (remote.account(call).Ok? ==>
         x.outcome == Respond(StatusOK, AccountBody(WithHeaderFallback(remote.account(call).value, req.scheme, req.host))))
    ensures !IsUnauthorized(x.outcome)
  {
    var acct := FirstValue(req.query, "acct");
    if acct == "" then
      Exchange([], Respond(StatusBadRequest, ErrorBody("acct is required")))
    else
      var call := AccountsLookup(server, acct);
      match remote.account(call)
      case Err(e) => Exchange([call], LookupError(e))
      case Ok(info) => Exchange([call], Respond(StatusOK, AccountBody(WithHeaderFallback(info, req.scheme, req.host))))
  }

  /**
   * GET /accounts/:id/statuses: a binding failure answers 400 with the field;
   * otherwise the resolved parameters are forwarded as they are, with no token,
   * and the statuses render as a list even when the remote returns nil.
   */
  function AccountsStatusesHandler(server: string, id: string,
                                   params: Result<StatusesParams, BindingError>, remote: Remote): (x: Exchange)
    ensures params.Err? ==>
      x == Exchange([], Respond(StatusBadRequest, FieldErrorBody(params.error.field, params.error.message)))
    ensures params.Ok? ==>
      var q := ResolveStatusesParams(params.value);
      var call := AccountsStatuses(server, id, q.limit, q.pinnedOnly, q.onlyMedia, q.onlyPublic,
                                   q.excludeReplies, q.excludeReblogs, q.maxId, q.minId);
      x.calls == [call] &&
      (remote.statuses(call).Err? ==> x.outcome == Fail(remote.statuses(call).error)) &&
      (remote.statuses(call).Ok? ==>
         x.outcome == Respond(StatusOK, StatusesBody(SliceIfNull(remote.statuses(call).value))))
  {
    match params
    case Err(e) => Exchange([], Respond(StatusBadRequest, FieldErrorBody(e.field, e.message)))
    case Ok(p) =>
      var q := ResolveStatusesParams(p);
      var call := AccountsStatuses(server, id, q.limit, q.pinnedOnly, q.onlyMedia, q.onlyPublic,
                                   q.excludeReplies, q.excludeReblogs, q.maxId, q.minId);
      match remote.statuses(call)
      case Err(e) => Exchange([call], Fail(e))
      case Ok(statuses) => Exchange([call], Respond(StatusOK, StatusesBody(SliceIfNull(statuses))))
  }

  /** A limit given in the status query reaches the remote service unchanged, whatever its size. */
  lemma StatusesLimitForwardedVerbatim(server: string, id: string, p: StatusesParams, remote: Remote, n: int)
    requires p.limit == Some(n)
    ensures AccountsStatusesHandler(server, id, Ok(p), remote).calls[0].limit == n
  {
  }

  /**
   * PATCH /accounts/update_credentials: the form is parsed first, so a form
   * error answers 400 even when the token is bad; then the token is required;
   * then the parsed changes are sent.
   */
  method AccountsUpdateCredentialsHandler(req: Request, server: string,
                                          bound: Result<CredentialsUpdate, string>,
                                          fieldsAttributes: Values -> seq<AccountField>,
                                          remote: Remote)
    returns (x: Exchange)
    ensures bound.Err? ==> x == Exchange([], Respond(StatusBadRequest, ErrorBody(bound.error)))
    ensures bound.Ok? && GetHeaderToken(req.header).Err? ==> x == Unauthorized(GetHeaderToken(req.header).error)
    ensures bound.Ok? && GetHeaderToken(req.header).Ok? ==>
      var update := bound.value.(accountFields := bound.value.accountFields
                                 + fieldsAttributes(MergedValues(req.query, req.form, req.multipart)));
      var call := UpdateCredentials(server, GetHeaderToken(req.header).value, update);
      x.calls == [call] &&
      (remote.account(call).Err? ==> x.outcome == Fail(remote.account(call).error)) &&
      (remote.account(call).Ok? ==> x.outcome == Respond(StatusOK, AccountBody(remote.account(call).value)))
  {
    var form := ParseUpdateCredentialsForm(bound, req.query, req.form, req.multipart, fieldsAttributes);
    if form.Err? {
      return Exchange([], Respond(StatusBadRequest, ErrorBody(form.error)));
    }
    var token := GetHeaderToken(req.header);
    if token.Err? {
      return Unauthorized(token.error);
    }
    var call := UpdateCredentials(server, token.value, form.value);
    var account := remote.account(call);
    if account.Err? {
      return Exchange([call], Fail(account.error));
    }
    return Exchange([call], Respond(StatusOK, AccountBody(account.value)));
  }

  /**
   * AccountFollowRequests (not routed by AccountsRouter): token required (checked before the query is
   * bound); a non-positive limit becomes 40, a positive one is kept.
   */
  function AccountFollowRequestsHandler(req: Request, server: string,
                                        query: Result<FollowRequestsQuery, string>, remote: Remote): (x: Exchange)
    ensures GetHeaderToken(req.header).Err? ==> x == Unauthorized(GetHeaderToken(req.header).error)
    ensures GetHeaderToken(req.header).Ok? && query.Err? ==>
      x == Exchange([], Respond(StatusBadRequest, ErrorBody(query.error)))
    ensures GetHeaderToken(req.header).Ok? && query.Ok? ==>
      var q := query.value;
      var call := AccountFollowRequests(server, GetHeaderToken(req.header).value,
                                        FollowRequestsLimit(q.limit), q.sinceId, q.maxId);
      x.calls == [call] &&
      (remote.accounts(call).Err? ==> x.outcome == Fail(remote.accounts(call).error)) &&
      (remote.accounts(call).Ok? ==>
         x.outcome == Respond(StatusOK, AccountsBody(SliceIfNull(remote.accounts(call).value))))
  {
    match GetHeaderToken(req.header)
    case Err(e) => Unauthorized(e)
    case Ok(token) =>
      match query
      case Err(msg) => Exchange([], Respond(StatusBadRequest, ErrorBody(msg)))
      case Ok(q) =>
        var call := AccountFollowRequests(server, token, FollowRequestsLimit(q.limit), q.sinceId, q.maxId);
        match remote.accounts(call)
        case Err(e) => Exchange([call], Fail(e))
        case Ok(accounts) => Exchange([call], Respond(StatusOK, AccountsBody(SliceIfNull(accounts))))
  }

  /**
   * GET /accounts/:id/followers: a bad token is ignored (the empty token is
   * sent); the limit defaults to 40 and is clamped at 80.
   */
  function AccountFollowersHandler(req: Request, server: string, id: string,
                                   query: Result<ListQuery, string>, remote: Remote): (x: Exchange)
    ensures !IsUnauthorized(x.outcome)
    ensures query.Err? ==> x == Exchange([], Respond(StatusBadRequest, ErrorBody(query.error)))
    ensures query.Ok? ==>
      var q := query.value;
      var call := AccountFollowers(server, TokenOrEmpty(req.header), id, FollowListLimit(q.limit),
                                   q.sinceId, q.minId, q.maxId);
      x.calls == [call] &&
      (remote.accounts(call).Err? ==> x.outcome == Fail(remote.accounts(call).error)) &&
      (remote.accounts(call).Ok? ==>
         x.outcome == Respond(StatusOK, AccountsBody(SliceIfNull(remote.accounts(call).value))))
  {
    var token := TokenOrEmpty(req.header);
    match query
    case Err(msg) => Exchange([], Respond(StatusBadRequest, ErrorBody(msg)))
    case Ok(q) =>
      var call := AccountFollowers(server, token, id, FollowListLimit(q.limit), q.sinceId, q.minId, q.maxId);
      match remote.accounts(call)
      case Err(e) => Exchange([call], Fail(e))
      case Ok(accounts) => Exchange([call], Respond(StatusOK, AccountsBody(SliceIfNull(accounts))))
  }

  /**
   * GET /accounts/:id/following: a bad token is ignored (the empty token is
   * sent); the limit defaults to 40 and is clamped at 80.
   */
  function AccountFollowingHandler(req: Request, server: string, id: string,
                                   query: Result<ListQuery, string>, remote: Remote): (x: Exchange)
    ensures !IsUnauthorized(x.outcome)
    ensures query.Err? ==> x == Exchange([], Respond(StatusBadRequest, ErrorBody(query.error)))
    ensures query.Ok? ==>
      var q := query.value;
      var call := AccountFollowing(server, TokenOrEmpty(req.header), id, FollowListLimit(q.limit),
                                   q.sinceId, q.minId, q.maxId);
      x.calls == [call] &&
      (remote.accounts(call).Err? ==> x.outcome == Fail(remote.accounts(call).error)) &&
      (remote.accounts(call).Ok? ==>
         x.outcome == Respond(StatusOK, AccountsBody(SliceIfNull(remote.accounts(call).value))))
  {
    var token := TokenOrEmpty(req.header);
    match query
    case Err(msg) => Exchange([], Respond(StatusBadRequest, ErrorBody(msg)))
    case Ok(q) =>
      var call := AccountFollowing(server, token, id, FollowListLimit(q.limit), q.sinceId, q.minId, q.maxId);
      match remote.accounts(call)
      case Err(e) => Exchange([call], Fail(e))
      case Ok(accounts) => Exchange([call], Respond(StatusOK, AccountsBody(SliceIfNull(accounts))))
  }

  /** The values of `key` in a query, in order; none when the key is absent. */
  function QueryValues(query: Values, key: string): seq<string> {
    if key in query then query[key] else []
  }

  /**
   * The ids of a relationships request: the loop over the query keys appends
   * the values of "id[]" and ignores every other key.
   */
  method CollectIds(query: Values) returns (ids: seq<string>)
    ensures ids == QueryValues(query, "id[]")
  {
    ids := [];
    var pending := query.Keys;
    while pending != {}
      invariant pending <= query.Keys
      invariant ids == if "id[]" in query && "id[]" !in pending then query["id[]"] else []
      decreases pending
    {
      var k :| k in pending;
      if k == "id[]" {
        ids := ids + query[k];
      }
      pending := pending - {k};
    }
  }

  /**
   * GET /accounts/relationships: token required; the ids are the "id[]" values
   * in request order, duplicates kept, and the remote answer is rendered as it is.
   */
  method AccountRelationshipsHandler(req: Request, server: string, remote: Remote) returns (x: Exchange)
    ensures GetHeaderToken(req.header).Err? ==> x == Unauthorized(GetHeaderToken(req.header).error)
    ensures GetHeaderToken(req.header).Ok? ==>
      var call := AccountRelationships(server, GetHeaderToken(req.header).value, QueryValues(req.query, "id[]"));
      x.calls == [call] &&
      (remote.relationships(call).Err? ==> x.outcome == Fail(remote.relationships(call).error)) &&
      (remote.relationships(call).Ok? ==>
         x.outcome == Respond(StatusOK, RelationshipsBody(remote.relationships(call).value)))
  {
    var token := GetHeaderToken(req.header);
    if token.Err? {
      return Unauthorized(token.error);
    }
    var ids := CollectIds(req.query);
    var call := AccountRelationships(server, token.value, ids);
    var relationships := remote.relationships(call);
    if relationships.Err? {
      return Exchange([call], Fail(relationships.error));
    }
    return Exchange([call], Respond(StatusOK, RelationshipsBody(relationships.value)));
  }

  /** How a follow or unfollow ends once the re-fetch answered: its first relationship, or a panic when there is none. */
  function FirstRelationship(rels: GoSlice<Relationship>): (o: Outcome)
    ensures o == Panic <==> SliceIfNull(rels) == []
    ensures SliceIfNull(rels) != [] ==> o == Respond(StatusOK, RelationshipBody(SliceIfNull(rels)[0]))
  {
    var elems := SliceIfNull(rels);
    if |elems| == 0 then Panic else Respond(StatusOK, RelationshipBody(elems[0]))
  }

  /**
   * POST /accounts/:id/follow: token required; the follow is issued, and only
   * when it succeeds are the relationships of exactly [id] fetched, the first
   * of which is returned.
   */
  function AccountFollowHandler(req: Request, server: string, id: string, remote: Remote): (x: Exchange)
    ensures GetHeaderToken(req.header).Err? ==> x == Unauthorized(GetHeaderToken(req.header).error)
    ensures GetHeaderToken(req.header).Ok? ==>
      var token := GetHeaderToken(req.header).value;
      var mutate := AccountFollow(server, token, id);
      var refetch := AccountRelationships(server, token, [id]);
      (remote.mutation(mutate).Some? ==> x == Exchange([mutate], Fail(remote.mutation(mutate).value))) &&
      (remote.mutation(mutate).None? ==>
         x.calls == [mutate, refetch] &&
         (remote.relationships(refetch).Err? ==> x.outcome == Fail(remote.relationships(refetch).error)) &&
         (remote.relationships(refetch).Ok? ==> x.outcome == FirstRelationship(remote.relationships(refetch).value)))
  {
    match GetHeaderToken(req.header)
    case Err(e) => Unauthorized(e)
    case Ok(token) =>
      var mutate := AccountFollow(server, token, id);
      match remote.mutation(mutate)
      case Some(e) => Exchange([mutate], Fail(e))
      case None =>
        var refetch := AccountRelationships(server, token, [id]);
        match remote.relationships(refetch)
        case Err(e) => Exchange([mutate, refetch], Fail(e))
        case Ok(rels) => Exchange([mutate, refetch], FirstRelationship(rels))
  }

  /**
   * POST /accounts/:id/unfollow: token required; the unfollow is issued, and
   * only when it succeeds are the relationships of exactly [id] fetched, the
   * first of which is returned.
   */
  function AccountUnfollowHandler(req: Request, server: string, id: string, remote: Remote): (x: Exchange)
    ensures GetHeaderToken(req.header).Err? ==> x == Unauthorized(GetHeaderToken(req.header).error)
    ensures GetHeaderToken(req.header).Ok? ==>
      var token := GetHeaderToken(req.header).value;
      var mutate := AccountUnfollow(server, token, id);
      var refetch := AccountRelationships(server, token, [id]);
      (remote.mutation(mutate).Some? ==> x == Exchange([mutate], Fail(remote.mutation(mutate).value))) &&
      (remote.mutation(mutate).None? ==>
         x.calls == [mutate, refetch] &&
         (remote.relationships(refetch).Err? ==> x.outcome == Fail(remote.relationships(refetch).error)) &&
         (remote.relationships(refetch).Ok? ==> x.outcome == FirstRelationship(remote.relationships(refetch).value)))
  {
    match GetHeaderToken(req.header)
    case Err(e) => Unauthorized(e)
    case Ok(token) =>
      var mutate := AccountUnfollow(server, token, id);
      match remote.mutation(mutate)
      case Some(e) => Exchange([mutate], Fail(e))
      case None =>
        var refetch := AccountRelationships(server, token, [id]);
        match remote.relationships(refetch)
        case Err(e) => Exchange([mutate, refetch], Fail(e))
        case Ok(rels) => Exchange([mutate, refetch], FirstRelationship(rels))
  }

  /**
   * GET /accounts/:id: a bad token is ignored (the empty token is sent); a
   * remote error is returned unchanged and a found account gets the header
   * fallback.
   */
  function AccountsGetHandler(req: Request, server: string, id: string, remote: Remote): (x: Exchange)
    ensures !IsUnauthorized(x.outcome)
    ensures x.calls == [AccountsGet(server, TokenOrEmpty(req.header), id)]
    ensures remote.account(x.calls[0]).Err? ==> x.outcome == Fail(remote.account(x.calls[0]).error)
    ensures remote.account(x.calls[0]).Ok? ==>
      x.outcome == Respond(StatusOK, AccountBody(WithHeaderFallback(remote.account(x.calls[0]).value, req.scheme, req.host)))
  {
    var call := AccountsGet(server, TokenOrEmpty(req.header), id);
    match remote.account(call)
    case Err(e) => Exchange([call], Fail(e))
    case Ok(info) => Exchange([call], Respond(StatusOK, AccountBody(WithHeaderFallback(info, req.scheme, req.host))))
  }

  /** The handlers that ignore the token treat a malformed one exactly like an absent header. */
  lemma BadTokenActsAsNoToken(req: Request, server: string, id: string, query: Result<ListQuery, string>, remote: Remote)
    requires GetHeaderToken(req.header).Err?
    ensures AccountFollowersHandler(req, server, id, query, remote)
         == AccountFollowersHandler(req.(header := map[]), server, id, query, remote)
    ensures AccountFollowingHandler(req, server, id, query, remote)
         == AccountFollowingHandler(req.(header := map[]), server, id, query, remote)
    ensures AccountsGetHandler(req, server, id, remote)
         == AccountsGetHandler(req.(header := map[]), server, id, remote)
  {
    assert GetHeaderToken(map[]).Err?;
  }
}
