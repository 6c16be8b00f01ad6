/**
 The Cache-Control response filter: a successful GET response gets one more
 Cache-Control entry carrying the configured max-age, must-revalidate and
 no-cache directives; every other response passes through untouched.
 */
module CacheControlFilter {
  import opened HttpHeaders

  /** The filter's construction parameters. */
  datatype Config = Config(cacheAge: int, revalidate: bool, noCache: bool)

  /** The Cache-Control value built from the configuration, on top of the library's no-transform default. */
  function Directives(cfg: Config): CacheControl
  {
    CacheControl(maxAge := cfg.cacheAge, mustRevalidate := cfg.revalidate, noCache := cfg.noCache, noTransform := true)
  }

  /** The header list after the filter has run on a response to `verb` with `status`. */
  function Filter(cfg: Config, verb: string, status: int, headers: Headers): (r: Headers)
    ensures |r| == |headers| + (if IsSuccessfulGet(verb, status) then 1 else 0)
    ensures r[..|headers|] == headers
    ensures IsSuccessfulGet(verb, status) ==>
      r[|headers|] == Header(CacheControlName, CacheControlValue(CacheControl(cfg.cacheAge, cfg.revalidate, cfg.noCache, true)))
  {
    if IsSuccessfulGet(verb, status) then
      headers + [Header(CacheControlName, CacheControlValue(Directives(cfg)))]
    else
      headers
  }

  /**
   Seen as a multimap, the filter appends the configured value to the
   Cache-Control values (earlier Cache-Control values stay, in order) and
   leaves every other header name exactly as it was.
   */
  lemma OnlyCacheControlChanges(cfg: Config, verb: string, status: int, h: Headers)
    ensures Values(Filter(cfg, verb, status, h), CacheControlName) ==
      Values(h, CacheControlName)
      + (if verb == GET && 200 <= status <= 299 then [CacheControlValue(CacheControl(cfg.cacheAge, cfg.revalidate, cfg.noCache, true))] else [])
    ensures forall name :: name != CacheControlName ==> Values(Filter(cfg, verb, status, h), name) == Values(h, name)
  {
    SuccessfulFamilyRange(status);
    if IsSuccessfulGet(verb, status) {
      var e := Header(CacheControlName, CacheControlValue(Directives(cfg)));
      forall name
        ensures Values(h + [e], name) == Values(h, name) + (if e.name == name then [e.value] else [])
      {
        ValuesAppend(h, e, name);
      }
    }
  }

  /**
   A Cache-Control entry is added if and only if the method is exactly "GET"
   and the status is in 200..299; in every other case the headers come back
   unchanged.
   */
  lemma AddsIffSuccessfulGet(cfg: Config, verb: string, status: int, h: Headers)
    ensures |Values(Filter(cfg, verb, status, h), CacheControlName)| == |Values(h, CacheControlName)| + 1
      <==> verb == GET && 200 <= status <= 299
    ensures Filter(cfg, verb, status, h) == h <==> !(verb == GET && 200 <= status <= 299)
  {
    OnlyCacheControlChanges(cfg, verb, status, h);
    SuccessfulFamilyRange(status);
  }

  /**
   After a successful GET the last Cache-Control value is the configured one,
   so the response always carries the configured max-age.
   */
  lemma SuccessfulGetCarriesMaxAge(cfg: Config, status: int, h: Headers)
    requires 200 <= status <= 299
    ensures var vs := Values(Filter(cfg, GET, status, h), CacheControlName);
      && |vs| > 0
      && vs[|vs| - 1].CacheControlValue?
      && vs[|vs| - 1].cc.maxAge == cfg.cacheAge
      && vs[|vs| - 1].cc.mustRevalidate == cfg.revalidate
      && vs[|vs| - 1].cc.noCache == cfg.noCache
      && vs[|vs| - 1].cc.noTransform
  {
    OnlyCacheControlChanges(cfg, GET, status, h);
  }

  /** An OPTIONS request answered with 204 gets no Cache-Control at all when it had none before. */
  lemma OptionsNoContentUndecorated(cfg: Config, h: Headers)
    requires Values(h, CacheControlName) == []
    ensures Filter(cfg, "OPTIONS", 204, h) == h
    ensures Values(Filter(cfg, "OPTIONS", 204, h), CacheControlName) == []
  {
  }
}
