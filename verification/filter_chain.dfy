/**
 The two response filters run one after the other on every response. Both
 are registered at the same priority, so their order is not fixed; the
 lemmas here show that the order does not matter for the resulting multimap.
 */
module FilterChain {
  import opened HttpHeaders
  import CC = CacheControlFilter
  import WS = WebSubHeaderFilter

  /** The headers after the Cache-Control filter and then the WebSub filter. */
  function Decorate(cc: CC.Config, ws: WS.Config, verb: string, status: int, h: Headers): (r: Headers)
    ensures |r| == |h| + (if IsSuccessfulGet(verb, status) then 2 else 0)
    ensures r[..|h|] == h
  {
    WS.Filter(ws, verb, status, CC.Filter(cc, verb, status, h))
  }

  /**
   Running the filters in either order yields the same multimap: every header
   name holds the same values in the same order.
   */
  lemma FiltersCommute(cc: CC.Config, ws: WS.Config, verb: string, status: int, h: Headers)
    ensures SameMultimap(WS.Filter(ws, verb, status, CC.Filter(cc, verb, status, h)),
                         CC.Filter(cc, verb, status, WS.Filter(ws, verb, status, h)))
  {
    CC.OnlyCacheControlChanges(cc, verb, status, h);
    WS.OnlyLinkChanges(ws, verb, status, CC.Filter(cc, verb, status, h));
    WS.OnlyLinkChanges(ws, verb, status, h);
    CC.OnlyCacheControlChanges(cc, verb, status, WS.Filter(ws, verb, status, h));
  }

  /**
   Running the filters in either order yields the same bag of entries: only
   the order of the two appended entries differs.
   */
  lemma FiltersPermuteEntries(cc: CC.Config, ws: WS.Config, verb: string, status: int, h: Headers)
    ensures multiset(WS.Filter(ws, verb, status, CC.Filter(cc, verb, status, h))) ==
            multiset(CC.Filter(cc, verb, status, WS.Filter(ws, verb, status, h)))
  {
  }

  /**
   A successful GET ends up with exactly one added Cache-Control value and one
   added hub link; every other header name keeps its values.
   */
  lemma SuccessfulGetDecorated(cc: CC.Config, ws: WS.Config, status: int, h: Headers)
    requires 200 <= status <= 299
    ensures Values(Decorate(cc, ws, GET, status, h), CacheControlName) ==
      Values(h, CacheControlName) + [CacheControlValue(CacheControl(cc.cacheAge, cc.revalidate, cc.noCache, true))]
    ensures Values(Decorate(cc, ws, GET, status, h), LinkName) ==
      Values(h, LinkName) + [LinkValue(Link(ws.hub, "hub"))]
    ensures forall name :: name != CacheControlName && name != LinkName ==>
      Values(Decorate(cc, ws, GET, status, h), name) == Values(h, name)
  {
    CC.OnlyCacheControlChanges(cc, GET, status, h);
    WS.OnlyLinkChanges(ws, GET, status, CC.Filter(cc, GET, status, h));
  }

  /**
   A HEAD response is never decorated, whatever its status: unlike the GET
   response for the same resource, it carries neither a Cache-Control value
   nor the hub link.
   */
  lemma HeadUndecorated(cc: CC.Config, ws: WS.Config, status: int, h: Headers)
    ensures Decorate(cc, ws, "HEAD", status, h) == h
    ensures 200 <= status <= 299 ==> Decorate(cc, ws, "HEAD", status, h) != Decorate(cc, ws, GET, status, h)
  {
  }
}
