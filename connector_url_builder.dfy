/** The URLs of the SignPath connector's signing-request endpoints. The
    builder is a value: its fields are computed once, at construction. */
module ConnectorUrls {
  import opened UrlText
  import opened UriEncoding

  const ApiVersion := "1.0"
  const ApiVersionQuery := "?api-version=" + ApiVersion

  datatype ConnectorUrlBuilder = ConnectorUrlBuilder(
    connectorBaseUrl: string,
    organizationId: string,
    baseSigningRequestsRoute: string)
  {
    function BuildSubmitSigningRequestUrl(): string
    {
      baseSigningRequestsRoute + ApiVersionQuery
    }

    function BuildGetSigningRequestStatusUrl(signingRequestId: string): string
    {
      RequestUrl(baseSigningRequestsRoute, signingRequestId, "Status")
    }

    function BuildGetSignedArtifactUrl(signingRequestId: string): string
    {
      RequestUrl(baseSigningRequestsRoute, signingRequestId, "SignedArtifact")
    }
  }

  /** route/<encoded id>/<resource>?api-version=1.0 */
  function RequestUrl(route: string, signingRequestId: string, resource: string): string
  {
    route + "/" + EncodeURIComponent(signingRequestId) + "/" + resource + ApiVersionQuery
  }

  /** The constructor: trims the base and fixes the route of the organization. */
  function NewConnectorUrlBuilder(connectorBaseUrl: string, organizationId: string): ConnectorUrlBuilder
  {
    var base := TrimSlash(connectorBaseUrl);
    ConnectorUrlBuilder(base, organizationId, base + "/" + EncodeURIComponent(organizationId) + "/SigningRequests")
  }

  /** An identifier that encodeURIComponent leaves as it is (a UUID, say). */
  predicate IsPlainId(id: string)
  {
    forall i | 0 <= i < |id| :: IsUnescaped(id[i])
  }

  lemma StatusUrlText(route: string, signingRequestId: string)
    ensures RequestUrl(route, signingRequestId, "Status")
         == route + "/" + EncodeURIComponent(signingRequestId) + "/Status?api-version=1.0"
  {
  }

  lemma SignedArtifactUrlText(route: string, signingRequestId: string)
    ensures RequestUrl(route, signingRequestId, "SignedArtifact")
         == route + "/" + EncodeURIComponent(signingRequestId) + "/SignedArtifact?api-version=1.0"
  {
  }

  /** The three URLs, written out from the constructor's arguments. */
  lemma UrlShapes(connectorBaseUrl: string, organizationId: string, signingRequestId: string)
    ensures NewConnectorUrlBuilder(connectorBaseUrl, organizationId).baseSigningRequestsRoute
         == TrimSlash(connectorBaseUrl) + "/" + EncodeURIComponent(organizationId) + "/SigningRequests"
    ensures NewConnectorUrlBuilder(connectorBaseUrl, organizationId).BuildSubmitSigningRequestUrl()
         == TrimSlash(connectorBaseUrl) + "/" + EncodeURIComponent(organizationId) + "/SigningRequests"
            + "?api-version=1.0"
    ensures NewConnectorUrlBuilder(connectorBaseUrl, organizationId).BuildGetSigningRequestStatusUrl(signingRequestId)
         == TrimSlash(connectorBaseUrl) + "/" + EncodeURIComponent(organizationId) + "/SigningRequests"
            + "/" + EncodeURIComponent(signingRequestId) + "/Status?api-version=1.0"
    ensures NewConnectorUrlBuilder(connectorBaseUrl, organizationId).BuildGetSignedArtifactUrl(signingRequestId)
         == TrimSlash(connectorBaseUrl) + "/" + EncodeURIComponent(organizationId) + "/SigningRequests"
            + "/" + EncodeURIComponent(signingRequestId) + "/SignedArtifact?api-version=1.0"
  {
    var route := NewConnectorUrlBuilder(connectorBaseUrl, organizationId).baseSigningRequestsRoute;
    StatusUrlText(route, signingRequestId);
    SignedArtifactUrlText(route, signingRequestId);
  }

  /** The URLs the tests expect: with a base that has no trailing '/' and
      UUIDs as organization and request ids, the ids appear verbatim. */
  lemma RouteOfPlainIds(connectorBaseUrl: string, organizationId: string)
    requires !EndsWithSlash(connectorBaseUrl)
    requires IsPlainId(organizationId)
    ensures NewConnectorUrlBuilder(connectorBaseUrl, organizationId).baseSigningRequestsRoute
         == connectorBaseUrl + "/" + organizationId + "/SigningRequests"
  {
    EncodeIdentity(organizationId);
  }

  lemma SubmitUrlOfPlainIds(connectorBaseUrl: string, organizationId: string)
    requires !EndsWithSlash(connectorBaseUrl)
    requires IsPlainId(organizationId)
    ensures NewConnectorUrlBuilder(connectorBaseUrl, organizationId).BuildSubmitSigningRequestUrl()
         == connectorBaseUrl + "/" + organizationId + "/SigningRequests?api-version=1.0"
  {
    RouteOfPlainIds(connectorBaseUrl, organizationId);
  }

  lemma StatusUrlOfPlainIds(connectorBaseUrl: string, organizationId: string, signingRequestId: string)
    requires !EndsWithSlash(connectorBaseUrl)
    requires IsPlainId(organizationId) && IsPlainId(signingRequestId)
    ensures NewConnectorUrlBuilder(connectorBaseUrl, organizationId).BuildGetSigningRequestStatusUrl(signingRequestId)
         == connectorBaseUrl + "/" + organizationId + "/SigningRequests/" + signingRequestId + "/Status?api-version=1.0"
  {
    RouteOfPlainIds(connectorBaseUrl, organizationId);
    EncodeIdentity(signingRequestId);
    StatusUrlText(connectorBaseUrl + "/" + organizationId + "/SigningRequests", signingRequestId);
  }

  lemma SignedArtifactUrlOfPlainIds(connectorBaseUrl: string, organizationId: string, signingRequestId: string)
    requires !EndsWithSlash(connectorBaseUrl)
    requires IsPlainId(organizationId) && IsPlainId(signingRequestId)
    ensures NewConnectorUrlBuilder(connectorBaseUrl, organizationId).BuildGetSignedArtifactUrl(signingRequestId)
         == connectorBaseUrl + "/" + organizationId + "/SigningRequests/" + signingRequestId
            + "/SignedArtifact?api-version=1.0"
  {
    RouteOfPlainIds(connectorBaseUrl, organizationId);
    EncodeIdentity(signingRequestId);
    SignedArtifactUrlText(connectorBaseUrl + "/" + organizationId + "/SigningRequests", signingRequestId);
  }

  /** A base given with one trailing '/' builds the same URLs as without it. */
  lemma TrailingSlashIgnored(connectorBaseUrl: string, organizationId: string)
    requires !EndsWithSlash(connectorBaseUrl)
    ensures NewConnectorUrlBuilder(connectorBaseUrl + "/", organizationId)
         == NewConnectorUrlBuilder(connectorBaseUrl, organizationId)
  {
  }

  /** `u` is `route`, then text without '?' or '&', then the api-version query. */
  predicate RouteThenQuery(u: string, route: string)
  {
    && |u| >= |route| + |ApiVersionQuery|
    && u[..|route|] == route
    && u[|u| - |ApiVersionQuery|..] == ApiVersionQuery
    && '?' !in u[|route|..|u| - |ApiVersionQuery|]
    && '&' !in u[|route|..|u| - |ApiVersionQuery|]
  }

  lemma RouteThenQueryOf(route: string, middle: string)
    requires '?' !in middle && '&' !in middle
    ensures RouteThenQuery(route + middle + ApiVersionQuery, route)
  {
    var u := route + middle + ApiVersionQuery;
    assert u[|route|..|u| - |ApiVersionQuery|] == middle;
  }

  lemma RequestUrlRegrouped(route: string, signingRequestId: string, resource: string)
    ensures RequestUrl(route, signingRequestId, resource)
         == route + ("/" + EncodeURIComponent(signingRequestId) + "/" + resource) + ApiVersionQuery
    ensures RequestUrl(route, signingRequestId, resource)
         == (route + "/") + (EncodeURIComponent(signingRequestId) + ['/'] + (resource + ApiVersionQuery))
  {
    var e := EncodeURIComponent(signingRequestId);
    assert "/" == ['/'];
    RegroupAtSlash(route + "/", e, resource, ApiVersionQuery);
    assert route + "/" + e + "/" + resource + ApiVersionQuery == route + ("/" + e + "/" + resource) + ApiVersionQuery;
  }

  /** A request URL starts with the route and ends with the api-version
      query, its only query parameter. */
  lemma RequestUrlRouteThenQuery(route: string, signingRequestId: string, resource: string)
    requires '?' !in resource && '&' !in resource
    ensures RouteThenQuery(RequestUrl(route, signingRequestId, resource), route)
  {
    var e := EncodeURIComponent(signingRequestId);
    EncodedHasNoDelimiters(signingRequestId);
    RequestUrlRegrouped(route, signingRequestId, resource);
    var middle := "/" + e + "/" + resource;
    assert forall i | 0 <= i < |middle| :: middle[i] in "/" || middle[i] in e || middle[i] in resource;
    RouteThenQueryOf(route, middle);
  }

  /** Every URL starts with the route of the organization and ends with the
      api-version query, which is its only query parameter. */
  lemma SubmitUrlRouteThenQuery(b: ConnectorUrlBuilder)
    ensures RouteThenQuery(b.BuildSubmitSigningRequestUrl(), b.baseSigningRequestsRoute)
  {
    RouteThenQueryOf(b.baseSigningRequestsRoute, "");
    assert b.baseSigningRequestsRoute + "" + ApiVersionQuery == b.BuildSubmitSigningRequestUrl();
  }

  lemma UrlsShareRouteAndQuery(b: ConnectorUrlBuilder, signingRequestId: string)
    ensures RouteThenQuery(b.BuildSubmitSigningRequestUrl(), b.baseSigningRequestsRoute)
    ensures RouteThenQuery(b.BuildGetSigningRequestStatusUrl(signingRequestId), b.baseSigningRequestsRoute)
    ensures RouteThenQuery(b.BuildGetSignedArtifactUrl(signingRequestId), b.baseSigningRequestsRoute)
  {
    SubmitUrlRouteThenQuery(b);
    RequestUrlRouteThenQuery(b.baseSigningRequestsRoute, signingRequestId, "Status");
    RequestUrlRouteThenQuery(b.baseSigningRequestsRoute, signingRequestId, "SignedArtifact");
  }

  /** The request id and the resource can be read back from a request URL. */
  lemma RequestUrlInjective(route: string, id1: string, r1: string, id2: string, r2: string)
    requires RequestUrl(route, id1, r1) == RequestUrl(route, id2, r2)
    ensures id1 == id2 && r1 == r2
  {
    var e1, e2 := EncodeURIComponent(id1), EncodeURIComponent(id2);
    EncodedHasNoDelimiters(id1);
    EncodedHasNoDelimiters(id2);
    RequestUrlRegrouped(route, id1, r1);
    RequestUrlRegrouped(route, id2, r2);
    var p := route + "/";
    var x1, x2 := e1 + ['/'] + (r1 + ApiVersionQuery), e2 + ['/'] + (r2 + ApiVersionQuery);
    assert p + x1 == p + x2;
    assert x1 == (p + x1)[|p|..];
    SplitAtDelimiter('/', e1, r1 + ApiVersionQuery, e2, r2 + ApiVersionQuery);
    EncodeInjective(id1, id2);
    assert r1 == (r1 + ApiVersionQuery)[..|r1|];
  }

  /** Two different requests never share a status URL or an artifact URL,
      and no status URL is an artifact URL. */
  lemma RequestUrlsDistinct(b: ConnectorUrlBuilder, id1: string, id2: string)
    ensures b.BuildGetSigningRequestStatusUrl(id1) == b.BuildGetSigningRequestStatusUrl(id2) ==> id1 == id2
    ensures b.BuildGetSignedArtifactUrl(id1) == b.BuildGetSignedArtifactUrl(id2) ==> id1 == id2
    ensures b.BuildGetSigningRequestStatusUrl(id1) != b.BuildGetSignedArtifactUrl(id2)
  {
    var route := b.baseSigningRequestsRoute;
    if b.BuildGetSigningRequestStatusUrl(id1) == b.BuildGetSigningRequestStatusUrl(id2) {
      RequestUrlInjective(route, id1, "Status", id2, "Status");
    }
    if b.BuildGetSignedArtifactUrl(id1) == b.BuildGetSignedArtifactUrl(id2) {
      RequestUrlInjective(route, id1, "SignedArtifact", id2, "SignedArtifact");
    }
    if b.BuildGetSigningRequestStatusUrl(id1) == b.BuildGetSignedArtifactUrl(id2) {
      RequestUrlInjective(route, id1, "Status", id2, "SignedArtifact");
    }
  }
}
