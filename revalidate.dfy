/** The cache-invalidation webhook of apps/web/src/app/api/revalidate/route.ts:
    `POST` checks a shared secret, then invalidates a fixed list of cache
    tags one after the other. The framework's tag cache is a `TagCache`
    object whose `log` records every tag handed to `revalidateTag`, in call
    order; the set of stale tags is the set of logged tags. */
module Revalidate {
  import opened Http

  /** One tag per content type, in the order they are invalidated. */
  const ALL_TAGS: seq<string> := [
    "articles",
    "team-members",
    "testimonials",
    "publications",
    "presentations",
    "news-items",
    "career-openings",
    "featured-logos",
    "page-contents",
    "site-configs"
  ]

  /** A JavaScript value as `!==` compares it: no coercion between kinds. */
  datatype JsValue = Null | Undefined | Str(s: string)

  /** `request.headers.get(...)` is `null` for an absent header. */
  function HeaderValue(header: Option<string>): JsValue
  {
    if header.Some? then Str(header.value) else Null
  }

  /** `process.env.REVALIDATION_SECRET` is `undefined` when unset. */
  function EnvValue(configured: Option<string>): JsValue
  {
    if configured.Some? then Str(configured.value) else Undefined
  }

  /** The request passes the secret check, i.e. `secret !== process.env...`
      is false: both sides are present and equal strings. */
  function Authorized(header: Option<string>, configured: Option<string>): (ok: bool)
    ensures ok <==> header.Some? && configured.Some? && header.value == configured.value
  {
    HeaderValue(header) == EnvValue(configured)
  }

  /** A JSON body; a field that is `None` is not present. */
  datatype Body = Body(success: Option<bool>, revalidated: Option<bool>, message: Option<string>)

  /** `NextResponse.json(body, { status })`, status 200 when none is given. */
  datatype Response = Response(status: int, body: Body)

  const UNAUTHORIZED := Response(401, Body(None, None, Some("Invalid secret")))
  const REVALIDATED := Response(200, Body(Some(true), Some(true), None))
  const REVALIDATION_FAILED := Response(500, Body(Some(false), None, Some("Revalidation failed")))

  /** `fault` is the index in ALL_TAGS of the `revalidateTag` call that
      throws, if any does; an index past the list means no call throws. */
  predicate Throws(fault: Option<nat>)
  {
    fault.Some? && fault.value < |ALL_TAGS|
  }

  /** The response `POST` gives. */
  function PostResponse(header: Option<string>, configured: Option<string>, fault: Option<nat>): (r: Response)
    ensures r.status == 401 <==> !Authorized(header, configured)
    ensures r.status == 500 <==> Authorized(header, configured) && Throws(fault)
    ensures r.status == 200 <==> Authorized(header, configured) && !Throws(fault)
    ensures r == UNAUTHORIZED || r == REVALIDATION_FAILED || r == REVALIDATED
  {
    if !Authorized(header, configured) then UNAUTHORIZED
    else if Throws(fault) then REVALIDATION_FAILED
    else REVALIDATED
  }

  /** The tags `POST` invalidates, in order: none on a bad secret, the ones
      before a throwing call, otherwise all of them. */
  function PostInvalidations(header: Option<string>, configured: Option<string>, fault: Option<nat>): (r: seq<string>)
    ensures r <= ALL_TAGS
    ensures r == [] <==> !Authorized(header, configured) || fault == Some(0)
    ensures r == ALL_TAGS <==> Authorized(header, configured) && !Throws(fault)
  {
    if !Authorized(header, configured) then []
    else if Throws(fault) then ALL_TAGS[..fault.value]
    else ALL_TAGS
  }

  /** The tags marked stale by a log of `revalidateTag` calls. */
  function StaleTags(log: seq<string>): set<string>
  {
    set t | t in log
  }

  /** The framework's tag cache, seen through the calls made to it. */
  class TagCache {
    var log: seq<string>

    constructor ()
      ensures log == []
    {
      log := [];
    }

    /** `revalidateTag(tag, "default")`; `throws` says whether this call
        throws, in which case nothing is recorded. */
    method RevalidateTag(tag: string, throws: bool) returns (thrown: bool)
      modifies this
      ensures thrown == throws
      ensures log == if throws then old(log) else old(log) + [tag]
    {
      thrown := throws;
      if !throws {
        log := log + [tag];
      }
    }
  }

  /** `POST(request)`: reject a bad secret, else invalidate every tag in
      order, stopping at the first call that throws. */
  method Post(cache: TagCache, header: Option<string>, configured: Option<string>, fault: Option<nat>)
    returns (resp: Response)
    modifies cache
    ensures resp == PostResponse(header, configured, fault)
    ensures cache.log == old(cache.log) + PostInvalidations(header, configured, fault)
  {
    if !Authorized(header, configured) {
      return UNAUTHORIZED;
    }
    for i := 0 to |ALL_TAGS|
      invariant cache.log == old(cache.log) + ALL_TAGS[..i]
      invariant fault.Some? ==> i <= fault.value
    {
      var thrown := cache.RevalidateTag(ALL_TAGS[i], fault == Some(i));
      if thrown {
        return REVALIDATION_FAILED;
      }
      assert ALL_TAGS[..i + 1] == ALL_TAGS[..i] + [ALL_TAGS[i]];
    }
    return REVALIDATED;
  }

  /** Two authorised calls in a row: the same response, and the second
      adds no stale tag to those the first left. */
  method PostTwice(cache: TagCache, secret: string) returns (first: Response, second: Response)
    modifies cache
    ensures first == second == REVALIDATED
    ensures StaleTags(cache.log) == StaleTags(old(cache.log) + ALL_TAGS)
  {
    first := Post(cache, Some(secret), Some(secret), None);
    second := Post(cache, Some(secret), Some(secret), None);
    PostIdempotent(old(cache.log), Some(secret), Some(secret));
  }

  // --- Properties ---

  /** ALL_TAGS holds exactly ten distinct names. */
  lemma AllTagsDistinct()
    ensures |ALL_TAGS| == 10
    ensures forall i, j :: 0 <= i < j < |ALL_TAGS| ==> ALL_TAGS[i] != ALL_TAGS[j]
  {
  }

  /** A bad secret gives 401 "Invalid secret" and invalidates nothing. */
  lemma BadSecretChangesNothing(header: Option<string>, configured: Option<string>, fault: Option<nat>)
    requires !Authorized(header, configured)
    ensures PostResponse(header, configured, fault).status == 401
    ensures PostResponse(header, configured, fault).body == Body(None, None, Some("Invalid secret"))
    ensures PostInvalidations(header, configured, fault) == []
  {
  }

  /** With the secret unset, every request is rejected, even one without
      the header (null is not undefined). */
  lemma UnsetSecretRejectsAll(header: Option<string>, fault: Option<nat>)
    ensures !Authorized(header, None)
    ensures PostResponse(header, None, fault) == UNAUTHORIZED
  {
  }

  /** With the right secret and no throwing call, every tag is invalidated
      in list order and the body is `{ success: true, revalidated: true }`. */
  lemma GoodSecretInvalidatesAll(secret: string, fault: Option<nat>)
    requires !Throws(fault)
    ensures PostResponse(Some(secret), Some(secret), fault) == REVALIDATED
    ensures PostInvalidations(Some(secret), Some(secret), fault) == ALL_TAGS
  {
  }

  /** When the call for tag k throws, the earlier tags stay invalidated (no
      rollback), no later tag is attempted, and the response is 500. */
  lemma ThrowStopsWithoutRollback(secret: string, k: nat)
    requires k < |ALL_TAGS|
    ensures PostResponse(Some(secret), Some(secret), Some(k)) == REVALIDATION_FAILED
    ensures var done := PostInvalidations(Some(secret), Some(secret), Some(k));
      && (forall i :: 0 <= i < k ==> ALL_TAGS[i] in done)
      && (forall j :: k <= j < |ALL_TAGS| ==> ALL_TAGS[j] !in done)
  {
  }

  /** Idempotence: a second authorised call gives the same response and
      leaves the same stale set as the first. */
  lemma PostIdempotent(log: seq<string>, header: Option<string>, configured: Option<string>)
    requires Authorized(header, configured)
    ensures var once := log + PostInvalidations(header, configured, None);
      var twice := once + PostInvalidations(header, configured, None);
      && PostResponse(header, configured, None) == REVALIDATED
      && StaleTags(twice) == StaleTags(once)
  {
  }
}
