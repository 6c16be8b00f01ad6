# Trellis response filters and triplestore bootstrap decisions

This project models three small pieces of decision logic from the Trellis
Linked Data Platform server and proves properties of them in Dafny.

- **Response filters.** `CacheControlFilter` and `WebSubHeaderFilter` run on every HTTP
  response. When the request method is exactly `GET` and the status is in
  the Successful family (2xx), each appends one header entry. The first
  appends a `Cache-Control` value with the configured max-age, must-revalidate
  and no-cache directives (section 5.2.2 of RFC 7234). It also carries
  no-transform, which the library's `CacheControl` sets by default. The second appends a
  `Link` to the configured WebSub hub with `rel="hub"` (section 4 of the W3C
  WebSub recommendation; Link syntax per section 3 of RFC 8288). Otherwise the
  headers pass through untouched. The response headers are a sequence of
  (name, value) entries. `HttpHeaders.Values` gives the multimap view: the
  values under one name, in order.
- **Bootstrap decisions of the triplestore application (`AppUtils`).** The
  Kafka producer properties are a layered merge. The tunables come first,
  each with the user's value or its default. Every user entry follows. Last
  come the two forced serializers and the broker address. The RDF dataset
  location is in memory when none is configured. It is remote when the
  location starts with `http://` or `https://` (case-sensitive). Any other
  string, `""` included, is a TDB2 path. The event service is a Kafka
  publisher exactly when notifications are enabled and the type is Kafka.
  Otherwise it is the no-op service. The location classifier and the
  event-service selector return a tagged choice (`Remote(url) | Tdb2(path) | InMemory`, `KafkaPublisher(properties, topic) |
  NoopEventService`). It does not build the connection or the producer.

Modules: `Optional` (a nullable value), `HttpHeaders` (header multimap,
status families), `CacheControlFilter`, `WebSubHeaderFilter`, `FilterChain`
(both filters together), `AppUtils`.

The 2xx test follows JAX-RS `Response.Status.Family.familyOf`. It classifies
a code by `status / 100` with Java's truncating division, and
`HttpHeaders.SuccessfulFamilyRange` proves that this is exactly 200..299.
`HttpHeaders.JavaDiv` and `HttpHeaders.FamilyOf` model that JAX-RS library
code, which the filter at CacheControlFilter.java:57 relies on. The
filters compare the method with `"GET"` exactly. So a `HEAD` response carries
neither header, even though section 4.3.2 of RFC 7231 says a server SHOULD
send the same header fields for HEAD as for GET. The model follows the code
(`FilterChain.HeadUndecorated`).

## Model

| member | source | states |
|---|---|---|
| HttpHeaders.JavaDiv | core/http/src/main/java/org/trellisldp/http/CacheControlFilter.java:57 | Java's truncating division as used by the JAX-RS library's `familyOf`: the remainder has the sign of the dividend and is smaller than the divisor in magnitude |
| HttpHeaders.SuccessfulFamilyRange | core/http/src/main/java/org/trellisldp/http/CacheControlFilter.java:57 | the Successful status family, computed with truncating division by 100, holds exactly for codes 200..299, negative codes included |
| HttpHeaders.ValuesMembers | core/http/src/main/java/org/trellisldp/http/CacheControlFilter.java:62 | the multimap view: a value is listed under a name iff an entry with that name and value is in the header list |
| HttpHeaders.ValuesAppend | core/http/src/main/java/org/trellisldp/http/CacheControlFilter.java:62 | adding an entry appends its value at the end of its own name's values and changes no other name's values |
| CacheControlFilter.Filter | core/http/src/main/java/org/trellisldp/http/CacheControlFilter.java:49-63 | the filter keeps the input as a prefix of its output; for a successful GET it adds exactly one entry, Cache-Control with the configured max-age, must-revalidate and no-cache and the default no-transform; otherwise it adds nothing |
| CacheControlFilter.OnlyCacheControlChanges | core/http/src/main/java/org/trellisldp/http/CacheControlFilter.java:57-62 | earlier Cache-Control values are kept in order and the configured value follows them only for GET with status 200..299; every other header name keeps exactly its values |
| CacheControlFilter.AddsIffSuccessfulGet | core/http/src/main/java/org/trellisldp/http/CacheControlFilter.java:57 | one Cache-Control value is added iff the method is "GET" and the status is in 200..299; the headers are unchanged iff that does not hold |
| CacheControlFilter.SuccessfulGetCarriesMaxAge | core/http/src/main/java/org/trellisldp/http/CacheControlFilter.java:58-61 | after a successful GET the last Cache-Control value carries max-age = cacheAge, must-revalidate = revalidate and no-cache = noCache, with the default no-transform set |
| CacheControlFilter.OptionsNoContentUndecorated | core/http/src/test/java/org/trellisldp/http/AbstractLdpResourceTest.java:2566-2571 | an OPTIONS answered with 204 leaves the headers as they were and carries no Cache-Control |
| WebSubHeaderFilter.Filter | core/http/src/main/java/org/trellisldp/http/WebSubHeaderFilter.java:45-53 | the filter keeps the input as a prefix of its output; for a successful GET it adds exactly one entry, a Link to the configured hub with rel "hub"; otherwise it adds nothing |
| WebSubHeaderFilter.OnlyLinkChanges | core/http/src/main/java/org/trellisldp/http/WebSubHeaderFilter.java:51-52 | earlier Link values are kept in order and the hub link follows them only for GET with status 200..299; every other header name keeps exactly its values |
| WebSubHeaderFilter.AddsIffSuccessfulGet | core/http/src/main/java/org/trellisldp/http/WebSubHeaderFilter.java:51 | one Link value is added iff the method is "GET" and the status is in 200..299; the headers are unchanged iff that does not hold |
| WebSubHeaderFilter.HubAlongsideExistingLinks | core/http/src/main/java/org/trellisldp/http/WebSubHeaderFilter.java:52 | after a successful GET every Link entry of the input is still among the Link values, and the hub link with rel "hub" is among them |
| FilterChain.Decorate | core/http/src/main/java/org/trellisldp/http/WebSubHeaderFilter.java:35-54 | running both filters keeps the input as a prefix and adds two entries on a successful GET and none otherwise |
| FilterChain.FiltersCommute | core/http/src/main/java/org/trellisldp/http/CacheControlFilter.java:35-64 | both filters have the same priority, and either order yields the same values, in the same order, under every header name |
| FilterChain.FiltersPermuteEntries | core/http/src/main/java/org/trellisldp/http/WebSubHeaderFilter.java:35-54 | either order of the two filters yields the same multiset of header entries |
| FilterChain.SuccessfulGetDecorated | core/http/src/test/java/org/trellisldp/http/AbstractLdpResourceTest.java:133-143 | a successful GET through both filters gains exactly the configured Cache-Control value and the hub link; every other name is unchanged |
| FilterChain.HeadUndecorated | core/http/src/main/java/org/trellisldp/http/CacheControlFilter.java:57 | a HEAD response is never decorated; a 2xx HEAD response's headers differ from those of the GET with the same status |
| AppUtils.KafkaProperties | components/app-triplestore/src/main/java/org/trellisldp/app/triplestore/AppUtils.java:45-57 | the result's keys are exactly the user's keys, the five tunables and the three forced keys |
| AppUtils.KafkaPropertyAt | components/app-triplestore/src/main/java/org/trellisldp/app/triplestore/AppUtils.java:46-55 | for any one key, presence and value follow the precedence forced > user > default > absent |
| AppUtils.KafkaPropertiesByPrecedence | components/app-triplestore/src/main/java/org/trellisldp/app/triplestore/AppUtils.java:45-56 | for every key at once, presence and value follow the precedence forced > user > default > absent |
| AppUtils.KafkaPropertiesOverrides | components/app-triplestore/src/main/java/org/trellisldp/app/triplestore/AppUtils.java:47-55 | both serializers are always StringSerializer and bootstrap.servers is always the connection string; every other user key keeps the user's value; each tunable the user omitted takes its default (all / 16384 / 0 / 1 / 33554432) |
| AppUtils.KafkaPropertiesLayered | components/app-triplestore/src/main/java/org/trellisldp/app/triplestore/AppUtils.java:47-55 | the result equals the defaults, then the user map over them, then the three forced keys over that; the getOrDefault layer adds nothing beyond the defaults |
| AppUtils.StartsWithIffConcat | components/app-triplestore/src/main/java/org/trellisldp/app/triplestore/AppUtils.java:85 | the prefix test holds iff the string is the prefix followed by some rest |
| AppUtils.ClassifyLocation | components/app-triplestore/src/main/java/org/trellisldp/app/triplestore/AppUtils.java:81-94 | InMemory iff no location; Remote iff the location is "http://" or "https://" followed by anything; Tdb2 iff a location is given and is neither; exactly one holds, and Remote and Tdb2 carry the location unchanged |
| AppUtils.ClassifyEdgeCases | components/app-triplestore/src/main/java/org/trellisldp/app/triplestore/AppUtils.java:85-90 | "" and "HTTP://…" (wrong case) are TDB2 paths; an https URL is remote |
| AppUtils.NotificationService | components/app-triplestore/src/main/java/org/trellisldp/app/triplestore/AppUtils.java:59-79 | the service is a Kafka publisher iff notifications are enabled and the type is Kafka, and then it carries the merged producer properties and the configured topic; otherwise it is the no-op service |

## Left out

- Building the Kafka producer, the publisher, the RDF connection and the TDB2 or in-memory dataset. Lifecycle registration and logging are also omitted. These are library calls and I/O; the model returns only the choice.
- The JAX-RS request and response context objects. Also omitted: the string rendering of a `CacheControl` value (whether `max-age=` appears in the text) and the formatting of a built `Link`. These are library behaviour. The added values are the records `CacheControl(maxAge, mustRevalidate, noCache, noTransform)` and `Link(uri, rel)`.
- CacheControlFilter.Filter: the library's `CacheControl` also has other defaults: private, no-store and proxy-revalidate false, s-maxage unset, and empty private, no-cache field and extension lists. The configuration never changes them, so only the three configured directives and no-transform are modelled.
- Header-name case-insensitivity of the library's header map. Names are compared exactly. The filters always use the canonical spellings `Cache-Control` and `Link`.
- Null inputs: a null `cacheAge`, `revalidate` or `noCache` fails on unboxing. A null hub or connection string, or a null user value in the Kafka map, fails inside the library. The model's types exclude null, so these failures are not modelled. A null notification type and a null resources location are modelled, both as `None`.
- WebSubHeaderFilter.Filter: a hub string that the library cannot parse as a URI makes the library throw when the link is built. The model always adds the link.
- CacheControlFilter.Filter: `cacheAge` is a Java `Integer`. The model uses an unbounded `int`. The value is copied and never computed with, so no wrap-around can occur.
- The enumeration of notification types other than Kafka. `NotificationsConfiguration` is not part of this model, so any other type is `Other(name)`.
- The Linked Data Platform request handlers (method × resource-state status table, Prefer, Memento, Range, Digest, CORS, WebAC). Their code is not part of this model.
