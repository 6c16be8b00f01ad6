/**
 The response side of an HTTP exchange as the two response filters see it:
 a request method, a status code and an ordered header multimap.

 The multimap is a sequence of (name, value) entries. Adding a value under a
 name appends an entry; the values a name holds are the values of its
 entries, in order (`Values`). Two header sequences that hold the same
 values under every name are the same multimap (`SameMultimap`), whatever
 the interleaving of entries with different names.
 */
module HttpHeaders {

  const GET := "GET"
  const CacheControlName := "Cache-Control"
  const LinkName := "Link"

  /**
   The directives a Cache-Control value carries (section 5.2.2 of RFC 7234).
   A freshly constructed JAX-RS `CacheControl` has no-transform set, so the
   field is kept even though no configuration changes it.
   */
  datatype CacheControl = CacheControl(maxAge: int, mustRevalidate: bool, noCache: bool, noTransform: bool)

  /** A Link value (section 3 of RFC 8288): a target URI and a relation type. */
  datatype Link = Link(uri: string, rel: string)

  /** A header value: one of the two structured kinds the filters add, or opaque text. */
  datatype HeaderValue =
    | CacheControlValue(cc: CacheControl)
    | LinkValue(link: Link)
    | TextValue(text: string)

  datatype Header = Header(name: string, value: HeaderValue)

  type Headers = seq<Header>

  /** The status-code classes of JAX-RS `Response.Status.Family`. */
  datatype Family = Informational | Successful | Redirection | ClientError | ServerError | Other

  /**
   Java's `int` division, which truncates toward zero (Dafny's `/` is
   Euclidean): the remainder takes the sign of the dividend.
   */
  function JavaDiv(a: int, b: int): (q: int)
    requires b > 0
    ensures a >= 0 ==> 0 <= a - q * b < b
    ensures a < 0 ==> -b < a - q * b <= 0
  {
    if a >= 0 then a / b else -((-a) / b)
  }

  /** `Family.familyOf`: the class is chosen by `status / 100`, anything but 1..5 is Other. */
  function FamilyOf(status: int): Family
  {
    var c := JavaDiv(status, 100);
    if c == 1 then Informational
    else if c == 2 then Successful
    else if c == 3 then Redirection
    else if c == 4 then ClientError
    else if c == 5 then ServerError
    else Other
  }

  /** The Successful family is exactly the codes 200 through 299, negative codes included. */
  lemma SuccessfulFamilyRange(status: int)
    ensures FamilyOf(status) == Successful <==> 200 <= status <= 299
  {
  }

  /** The guard both filters share: the method is exactly "GET" and the status is 2xx. */
  predicate IsSuccessfulGet(verb: string, status: int)
  {
    verb == GET && FamilyOf(status) == Successful
  }

  /** The values held under `name`, in entry order. */
  function Values(h: Headers, name: string): seq<HeaderValue>
    decreases |h|
  {
    if |h| == 0 then []
    else
      var rest := Values(h[1..], name);
      if h[0].name == name then [h[0].value] + rest else rest
  }

  /** A value is listed under a name exactly when an entry with that name and value is present. */
  lemma {:induction false} ValuesMembers(h: Headers, name: string, v: HeaderValue)
    ensures v in Values(h, name) <==> Header(name, v) in h
    decreases |h|
  {
    if |h| > 0 {
      assert h == [h[0]] + h[1..];
      ValuesMembers(h[1..], name, v);
    }
  }

  /** Two header sequences hold the same values under every name. */
  ghost predicate SameMultimap(a: Headers, b: Headers)
  {
    forall name :: Values(a, name) == Values(b, name)
  }

  /** Appending an entry adds its value at the end of its own name's values and touches no other name. */
  lemma {:induction false} ValuesAppend(h: Headers, e: Header, name: string)
    ensures Values(h + [e], name) == Values(h, name) + (if e.name == name then [e.value] else [])
    decreases |h|
  {
    if |h| == 0 {
      assert h + [e] == [e];
      assert [e][1..] == [];
    } else {
      assert (h + [e])[0] == h[0];
      assert (h + [e])[1..] == h[1..] + [e];
      ValuesAppend(h[1..], e, name);
    }
  }
}
