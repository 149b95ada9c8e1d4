/**
 * The paging and filter parameters of the account listings, with the
 * defaults and clamps each call site applies (internal/api/v1/accounts.go).
 */
module Pagination {
  import opened Wrappers

  /** The limit of a status listing when the caller gives none. */
  const StatusesDefaultLimit: int := 30
  /** The limit of a follow-request, follower or following listing given as unset. */
  const FollowListDefaultLimit: int := 40
  /** The largest limit a follower or following listing forwards. */
  const FollowListMaxLimit: int := 80

  /**
   * The limit of a follow-request listing: a non-positive limit means unset and
   * becomes the default; any positive limit is kept, however large.
   */
  function FollowRequestsLimit(limit: int): (r: int)
    ensures r >= 1
    ensures limit <= 0 ==> r == FollowListDefaultLimit
    ensures limit > 0 ==> r == limit
  {
    if limit <= 0 then FollowListDefaultLimit else limit
  }

  /**
   * The limit of a follower or following listing: a non-positive limit becomes
   * the default, a limit above the maximum becomes the maximum, and any other
   * limit is kept.
   */
  function FollowListLimit(limit: int): (r: int)
    ensures 1 <= r <= FollowListMaxLimit
    ensures limit <= 0 ==> r == FollowListDefaultLimit
    ensures limit > FollowListMaxLimit ==> r == FollowListMaxLimit
    ensures 0 < limit <= FollowListMaxLimit ==> r == limit
  {
    var defaulted := if limit <= 0 then FollowListDefaultLimit else limit;
    if defaulted > FollowListMaxLimit then FollowListMaxLimit else defaulted
  }

  /** Normalising a follow-request limit twice is the same as once. */
  lemma FollowRequestsLimitIdempotent(limit: int)
    ensures FollowRequestsLimit(FollowRequestsLimit(limit)) == FollowRequestsLimit(limit)
  {
  }

  /** Normalising a follower or following limit twice is the same as once. */
  lemma FollowListLimitIdempotent(limit: int)
    ensures FollowListLimit(FollowListLimit(limit)) == FollowListLimit(limit)
  {
  }

  /** The two follow-list rules agree exactly on the limits up to the maximum. */
  lemma FollowLimitsAgreeUpToMax(limit: int)
    ensures FollowListLimit(limit) == FollowRequestsLimit(limit) <==> limit <= FollowListMaxLimit
  {
  }

  /** The status-listing parameters as bound from the query: None where the parameter is absent. */
  datatype StatusesParams = StatusesParams(
    limit: Option<int>,
    pinnedOnly: Option<bool>,
    onlyMedia: Option<bool>,
    onlyPublic: Option<bool>,
    excludeReplies: Option<bool>,
    excludeReblogs: Option<bool>,
    maxId: Option<string>,
    minId: Option<string>)

  /** The status-listing parameters forwarded to the remote service. */
  datatype StatusesQuery = StatusesQuery(
    limit: int,
    pinnedOnly: bool,
    onlyMedia: bool,
    onlyPublic: bool,
    excludeReplies: bool,
    excludeReblogs: bool,
    maxId: string,
    minId: string)

  /**
   * The status-listing parameters with their defaults: the limit is 30 only when
   * absent and is otherwise forwarded as given, with no clamp; a flag holds only
   * when it was given as true; an absent cursor is the empty string.
   */
  function ResolveStatusesParams(p: StatusesParams): (q: StatusesQuery)
    ensures p.limit.None? ==> q.limit == StatusesDefaultLimit
    ensures p.limit.Some? ==> q.limit == p.limit.value
    ensures q.pinnedOnly <==> p.pinnedOnly == Some(true)
    ensures q.onlyMedia <==> p.onlyMedia == Some(true)
    ensures q.onlyPublic <==> p.onlyPublic == Some(true)
    ensures q.excludeReplies <==> p.excludeReplies == Some(true)
    ensures q.excludeReblogs <==> p.excludeReblogs == Some(true)
    ensures p.maxId.None? ==> q.maxId == ""
    ensures p.maxId.Some? ==> q.maxId == p.maxId.value
    ensures p.minId.None? ==> q.minId == ""
    ensures p.minId.Some? ==> q.minId == p.minId.value
  {
    StatusesQuery(
      p.limit.GetOr(StatusesDefaultLimit),
      p.pinnedOnly.GetOr(false),
      p.onlyMedia.GetOr(false),
      p.onlyPublic.GetOr(false),
      p.excludeReplies.GetOr(false),
      p.excludeReblogs.GetOr(false),
      p.maxId.GetOr(""),
      p.minId.GetOr(""))
  }
}
