/** The REST client's local logic (`src/config/api.ts`): the bearer-token state, the
    header set each request sends, and the endpoint strings for the two list calls.
    Sending the request and reading the response are not modelled. */
module Api {
  import opened Wrappers
  import opened Text

  const ProductionBaseUrl := "https://nebulaart-api.onrender.com"
  const DevelopmentBaseUrl := "http://localhost:3000"

  function BaseUrl(production: bool): string {
    if production then ProductionBaseUrl else DevelopmentBaseUrl
  }

  type Headers = map<string, string>

  /** The shared default headers. */
  const DefaultHeaders: Headers := map["Content-Type" := "application/json", "Accept" := "application/json"]

  /** The headers for a given token: a copy of the defaults, plus a bearer credential
      when the token is a non-empty string. */
  function HeadersFor(token: Option<string>): (h: Headers)
    ensures "Content-Type" in h && h["Content-Type"] == "application/json"
    ensures "Accept" in h && h["Accept"] == "application/json"
    ensures "Authorization" in h <==> token.Some? && token.value != ""
    ensures "Authorization" in h ==> h["Authorization"] == "Bearer " + token.value
    ensures h.Keys <= {"Content-Type", "Accept", "Authorization"}
  {
    if token.Some? && token.value != "" then DefaultHeaders["Authorization" := "Bearer " + token.value]
    else DefaultHeaders
  }

  /** The header merge of `request`: per-call headers override the defaults key by key. */
  function MergeHeaders(defaults: Headers, perCall: Headers): (h: Headers)
    ensures h.Keys == defaults.Keys + perCall.Keys
    ensures forall k | k in perCall :: h[k] == perCall[k]
    ensures forall k | k in defaults && k !in perCall :: h[k] == defaults[k]
  {
    defaults + perCall
  }

  /** `${path}?page=${page}&limit=${limit}`. */
  function PagedEndpoint(path: string, page: int, limit: int): string {
    path + "?page=" + IntToString(page) + "&limit=" + IntToString(limit)
  }

  function ArtworksEndpoint(page: int := 1, limit: int := 20): string {
    PagedEndpoint("/artworks", page, limit)
  }

  function CurationsEndpoint(page: int := 1, limit: int := 10): string {
    PagedEndpoint("/curations", page, limit)
  }

  lemma DefaultEndpoints()
    ensures ArtworksEndpoint() == "/artworks?page=1&limit=20"
    ensures CurationsEndpoint() == "/curations?page=1&limit=10"
  {
  }

  /** The index of the first '&' (the length when there is none). */
  function FirstAmpersand(s: string): (r: nat)
    ensures r <= |s|
  {
    if s == [] || s[0] == '&' then 0 else 1 + FirstAmpersand(s[1..])
  }

  /** After a run of digits, the first '&' is the one that ends the run. */
  lemma {:induction false} AmpersandAfterDigits(a: string, b: string)
    requires AllDigits(a)
    ensures FirstAmpersand(a + "&" + b) == |a|
  {
    if a != [] {
      assert (a + "&" + b)[1..] == a[1..] + "&" + b;
      AmpersandAfterDigits(a[1..], b);
    }
  }

  /** Two digit strings each followed by '&' can only be split the same way. */
  lemma SplitAtAmpersand(a: string, b: string, c: string, d: string)
    requires AllDigits(a) && AllDigits(c) && a + "&" + b == c + "&" + d
    ensures a == c && b == d
  {
    AmpersandAfterDigits(a, b);
    AmpersandAfterDigits(c, d);
    assert a == (a + "&" + b)[..|a|];
    assert c == (c + "&" + d)[..|c|];
    assert b == (a + "&" + b)[|a| + 1..];
    assert d == (c + "&" + d)[|c| + 1..];
  }

  /** Equal strings with a common prefix agree after it. */
  lemma DropCommonPrefix(h: string, x: string, y: string)
    requires h + x == h + y
    ensures x == y
  {
    assert x == (h + x)[|h|..];
    assert y == (h + y)[|h|..];
  }

  lemma EndpointShape(path: string, a: string, b: string)
    ensures path + "?page=" + a + "&limit=" + b == (path + "?page=") + (a + "&" + ("limit=" + b))
  {
    assert "&limit=" == "&" + "limit=";
  }

  /** Distinct page/limit pairs never request the same URL: the endpoint determines them. */
  lemma PagedEndpointInjective(path: string, p1: nat, l1: nat, p2: nat, l2: nat)
    requires PagedEndpoint(path, p1, l1) == PagedEndpoint(path, p2, l2)
    ensures p1 == p2 && l1 == l2
  {
    var a1, b1, a2, b2 := NatToString(p1), NatToString(l1), NatToString(p2), NatToString(l2);
    EndpointShape(path, a1, b1);
    EndpointShape(path, a2, b2);
    DropCommonPrefix(path + "?page=", a1 + "&" + ("limit=" + b1), a2 + "&" + ("limit=" + b2));
    SplitAtAmpersand(a1, "limit=" + b1, a2, "limit=" + b2);
    DropCommonPrefix("limit=", b1, b2);
    NatToStringInjective(p1, p2);
    NatToStringInjective(l1, l2);
  }

  class ApiClient {
    const baseURL: string
    var token: Option<string>

    constructor (production: bool)
      ensures baseURL == BaseUrl(production) && token == None
      ensures GetHeaders() == DefaultHeaders
    {
      baseURL := BaseUrl(production);
      token := None;
    }

    method SetToken(t: string)
      modifies this
      ensures token == Some(t)
      ensures t != "" ==> "Authorization" in GetHeaders() && GetHeaders()["Authorization"] == "Bearer " + t
      ensures t == "" ==> GetHeaders() == DefaultHeaders
    {
      token := Some(t);
    }

    method ClearToken()
      modifies this
      ensures token == None && GetHeaders() == DefaultHeaders
    {
      token := None;
    }

    function GetHeaders(): Headers
      reads this
    {
      HeadersFor(token)
    }

    /** The URL and headers `request` hands to `fetch`. */
    function RequestTarget(endpoint: string, perCall: Headers): (r: (string, Headers))
      reads this
      ensures r.0 == baseURL + endpoint
      ensures r.1.Keys == GetHeaders().Keys + perCall.Keys
      ensures forall k | k in perCall :: r.1[k] == perCall[k]
      ensures forall k | k in GetHeaders() && k !in perCall :: r.1[k] == GetHeaders()[k]
    {
      (baseURL + endpoint, MergeHeaders(GetHeaders(), perCall))
    }
  }
}
