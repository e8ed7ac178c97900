/** The URLs of the connector's submit endpoint and of SignPath's public
    signing-request API. The builder is an object: its API base is a public
    field that the task may overwrite after construction. */
module SignPathUrls {
  import opened Wrappers
  import opened UrlText
  import opened UriEncoding

  const DefaultApiBaseUrl := "https://signpath.io/Api"
  const BaseUrlNotSet := "SignPath Base Url is not set"

  /** base/v1/<encoded organization>/SigningRequests/<encoded request id> */
  function SigningRequestUrl(apiBaseUrl: string, organizationId: string, signingRequestId: string): string
  {
    apiBaseUrl + "/v1/" + EncodeURIComponent(organizationId) + "/SigningRequests/"
      + EncodeURIComponent(signingRequestId)
  }

  /** The status URL under a given API base; an empty base is an error
      and yields no URL. */
  function GetSigningRequestUrl(apiBaseUrl: string, organizationId: string, signingRequestId: string): (r: Result<string, string>)
    ensures r.Err? <==> apiBaseUrl == ""
    ensures r.Err? ==> r.error == BaseUrlNotSet
    ensures r.Ok? ==> r.value == SigningRequestUrl(apiBaseUrl, organizationId, signingRequestId)
  {
    if apiBaseUrl == "" then Err(BaseUrlNotSet)
    else Ok(SigningRequestUrl(apiBaseUrl, organizationId, signingRequestId))
  }

  class SignPathUrlBuilder {
    /** The base of the public API; starts as the SignPath cloud. */
    var signPathApiBaseUrl: string
    /** The connector URL the builder was made with, less one trailing '/'. */
    var signPathGitHubConnectorBaseUrl: string
    /** A field the builder itself never reads. JavaScript creates it on
        the first assignment from outside; `None` until then. */
    var signPathBaseUrl: Option<string>

    constructor(signPathGitHubConnectorBaseUrl: string)
      ensures this.signPathApiBaseUrl == DefaultApiBaseUrl
      ensures this.signPathGitHubConnectorBaseUrl == TrimSlash(signPathGitHubConnectorBaseUrl)
      ensures this.signPathBaseUrl == None
    {
      this.signPathApiBaseUrl := DefaultApiBaseUrl;
      this.signPathGitHubConnectorBaseUrl := TrimSlash(signPathGitHubConnectorBaseUrl);
      this.signPathBaseUrl := None;
    }

    /** The submit URL: the connector URL followed by "/api/sign". The
        constructor trims one trailing '/' from the connector URL, so a URL
        given with one trailing '/' makes no empty path segment. */
    function BuildSubmitSigningRequestUrl(): (u: string)
      reads this
      ensures |u| == |signPathGitHubConnectorBaseUrl| + 9
      ensures u[..|signPathGitHubConnectorBaseUrl|] == signPathGitHubConnectorBaseUrl
      ensures u[|signPathGitHubConnectorBaseUrl|..] == "/api/sign"
    {
      signPathGitHubConnectorBaseUrl + "/api/sign"
    }

    /** The status URL under the API base the field holds when called. */
    function BuildGetSigningRequestUrl(organizationId: string, signingRequestId: string): (r: Result<string, string>)
      reads this
      ensures r == GetSigningRequestUrl(signPathApiBaseUrl, organizationId, signingRequestId)
    {
      GetSigningRequestUrl(signPathApiBaseUrl, organizationId, signingRequestId)
    }
  }

  lemma SigningRequestUrlRegrouped(apiBaseUrl: string, organizationId: string, signingRequestId: string)
    ensures SigningRequestUrl(apiBaseUrl, organizationId, signingRequestId)
         == (apiBaseUrl + "/v1/")
            + (EncodeURIComponent(organizationId) + ['/'] + ("SigningRequests/" + EncodeURIComponent(signingRequestId)))
  {
    var p, e, f := apiBaseUrl + "/v1/", EncodeURIComponent(organizationId), EncodeURIComponent(signingRequestId);
    RegroupAtLeadingSlash(p, e, "/SigningRequests/", "SigningRequests/", f);
  }

  /** Under one API base, the organization and the request id are read back
      from the URL: different requests never share a status URL. */
  lemma SigningRequestUrlInjective(apiBaseUrl: string, org1: string, id1: string, org2: string, id2: string)
    requires SigningRequestUrl(apiBaseUrl, org1, id1) == SigningRequestUrl(apiBaseUrl, org2, id2)
    ensures org1 == org2 && id1 == id2
  {
    var e1, e2 := EncodeURIComponent(org1), EncodeURIComponent(org2);
    var f1, f2 := EncodeURIComponent(id1), EncodeURIComponent(id2);
    EncodedHasNoDelimiters(org1);
    EncodedHasNoDelimiters(org2);
    SigningRequestUrlRegrouped(apiBaseUrl, org1, id1);
    SigningRequestUrlRegrouped(apiBaseUrl, org2, id2);
    var p := apiBaseUrl + "/v1/";
    var x1, x2 := e1 + ['/'] + ("SigningRequests/" + f1), e2 + ['/'] + ("SigningRequests/" + f2);
    assert p + x1 == p + x2;
    assert x1 == (p + x1)[|p|..];
    SplitAtDelimiter('/', e1, "SigningRequests/" + f1, e2, "SigningRequests/" + f2);
    assert f1 == ("SigningRequests/" + f1)[16..];
    EncodeInjective(org1, org2);
    EncodeInjective(id1, id2);
  }

  /** The part past the API base, written out. */
  function SigningRequestPath(organizationId: string, signingRequestId: string): string
  {
    "/v1/" + EncodeURIComponent(organizationId) + "/SigningRequests/" + EncodeURIComponent(signingRequestId)
  }

  lemma SigningRequestUrlSplit(apiBaseUrl: string, organizationId: string, signingRequestId: string)
    ensures SigningRequestUrl(apiBaseUrl, organizationId, signingRequestId)
         == apiBaseUrl + SigningRequestPath(organizationId, signingRequestId)
  {
  }

  /** The URL starts with the API base and, past it, holds no query and no
      fragment, whatever the ids. */
  lemma SigningRequestUrlShape(apiBaseUrl: string, organizationId: string, signingRequestId: string)
    ensures var u := SigningRequestUrl(apiBaseUrl, organizationId, signingRequestId);
      && |u| > |apiBaseUrl|
      && u[..|apiBaseUrl|] == apiBaseUrl
      && '?' !in u[|apiBaseUrl|..] && '#' !in u[|apiBaseUrl|..]
  {
    EncodedHasNoDelimiters(organizationId);
    EncodedHasNoDelimiters(signingRequestId);
    SigningRequestUrlSplit(apiBaseUrl, organizationId, signingRequestId);
    var tail := SigningRequestPath(organizationId, signingRequestId);
    assert (apiBaseUrl + tail)[|apiBaseUrl|..] == tail;
  }
}
