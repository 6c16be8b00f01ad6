/**
 The WebSub response filter: a successful GET response gets one more Link
 entry pointing at the configured hub with relation type "hub" (the discovery
 mechanism of section 4 of the W3C WebSub recommendation); every other
 response passes through untouched.
 */
module WebSubHeaderFilter {
  import opened HttpHeaders

  const HubRel := "hub"

  /** The filter's construction parameter: the location of the WebSub hub. */
  datatype Config = Config(hub: string)

  /** The Link value built from the configuration. */
  function HubLink(cfg: Config): Link
  {
    Link(uri := cfg.hub, rel := HubRel)
  }

  /** The header list after the filter has run on a response to `verb` with `status`. */
  function Filter(cfg: Config, verb: string, status: int, headers: Headers): (r: Headers)
    ensures |r| == |headers| + (if IsSuccessfulGet(verb, status) then 1 else 0)
    ensures r[..|headers|] == headers
    ensures IsSuccessfulGet(verb, status) ==> r[|headers|] == Header(LinkName, LinkValue(Link(cfg.hub, "hub")))
  {
    if IsSuccessfulGet(verb, status) then
      headers + [Header(LinkName, LinkValue(HubLink(cfg)))]
    else
      headers
  }

  /**
   Seen as a multimap, the filter appends the hub link after every Link value
   already present (type, self, memento links stay, in order) and leaves every
   other header name exactly as it was.
   */
  lemma OnlyLinkChanges(cfg: Config, verb: string, status: int, h: Headers)
    ensures Values(Filter(cfg, verb, status, h), LinkName) ==
      Values(h, LinkName) + (if verb == GET && 200 <= status <= 299 then [LinkValue(Link(cfg.hub, "hub"))] else [])
    ensures forall name :: name != LinkName ==> Values(Filter(cfg, verb, status, h), name) == Values(h, name)
  {
    SuccessfulFamilyRange(status);
    if IsSuccessfulGet(verb, status) {
      var e := Header(LinkName, LinkValue(HubLink(cfg)));
      forall name
        ensures Values(h + [e], name) == Values(h, name) + (if e.name == name then [e.value] else [])
      {
        ValuesAppend(h, e, name);
      }
    }
  }

  /**
   A Link entry is added if and only if the method is exactly "GET" and the
   status is in 200..299; in every other case the headers come back unchanged.
   */
  lemma AddsIffSuccessfulGet(cfg: Config, verb: string, status: int, h: Headers)
    ensures |Values(Filter(cfg, verb, status, h), LinkName)| == |Values(h, LinkName)| + 1
      <==> verb == GET && 200 <= status <= 299
    ensures Filter(cfg, verb, status, h) == h <==> !(verb == GET && 200 <= status <= 299)
  {
    OnlyLinkChanges(cfg, verb, status, h);
    SuccessfulFamilyRange(status);
  }

  /**
   After a successful GET the links hold every Link entry of the input and
   the hub link, so a response that already advertised its types advertises
   them alongside the hub.
   */
  lemma HubAlongsideExistingLinks(cfg: Config, status: int, h: Headers)
    requires 200 <= status <= 299
    ensures forall v :: Header(LinkName, v) in h ==> v in Values(Filter(cfg, GET, status, h), LinkName)
    ensures LinkValue(Link(cfg.hub, "hub")) in Values(Filter(cfg, GET, status, h), LinkName)
  {
    OnlyLinkChanges(cfg, GET, status, h);
    forall v | Header(LinkName, v) in h
      ensures v in Values(Filter(cfg, GET, status, h), LinkName)
    {
      ValuesMembers(h, LinkName, v);
    }
  }
}
