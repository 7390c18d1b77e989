/**
  The three guards that can end a request, composed in the order WordPress fires
  their hooks: plugins_loaded (XML-RPC), then parse_request (GraphQL), then
  template_redirect (templates). The order is an assumption about the host: the
  plugin only registers the hooks. A guard runs only when the ones before it let
  the request go on. Two kinds of request leave this path early:
  - an XML-RPC request is served by xmlrpc.php, which loads WordPress but fires
    neither parse_request nor template_redirect, so only the XML-RPC guard sees it;
  - a REST request is served by WordPress's own parse_request handler
    (rest_api_loaded), registered before any plugin loads and so run before the
    plugin's GraphQL closure; it ends the request, so neither the GraphQL nor the
    template guard sees it. The REST filter decides it instead.
 */
module RequestLifecycle {
  import opened Wrappers
  import opened PhpValues
  import PhpStrings
  import GraphqlRoute
  import opened HeadlessSetup

  /** The response the request gets from the plugin, or Pass when it goes on.
      The first guard in hook order that ends the request decides the response. */
  function FrontGate(options: PhpValue, ctx: RequestContext): (d: Disposition)
    ensures XmlrpcGuard(options, ctx).Halt? ==> d == XmlrpcGuard(options, ctx)
    ensures IsXmlrpcRequest(ctx) ==> d == XmlrpcGuard(options, ctx)
    ensures !IsXmlrpcRequest(ctx) && ctx.restRequest ==> d == Pass
    ensures !IsXmlrpcRequest(ctx) && !ctx.restRequest && GraphqlGuard(options, ctx).Halt? ==>
      d == GraphqlGuard(options, ctx)
    ensures !IsXmlrpcRequest(ctx) && !ctx.restRequest && GraphqlGuard(options, ctx) == Pass ==>
      d == TemplateRedirectGuard(options, ctx)
  {
    var xmlrpc := XmlrpcGuard(options, ctx);
    if xmlrpc.Halt? || IsXmlrpcRequest(ctx) then xmlrpc
    else if ctx.restRequest then Pass
    else
      var graphql := GraphqlGuard(options, ctx);
      if graphql.Halt? then graphql
      else TemplateRedirectGuard(options, ctx)
  }

  /** An XML-RPC request that the plugin does not refuse goes on to xmlrpc.php,
      whatever the headless, GraphQL and template settings say. */
  lemma XmlrpcRequestSkipsPageGuards(options: PhpValue, ctx: RequestContext)
    requires IsXmlrpcRequest(ctx) && !Enabled(options, XMLRPC_DISABLE_KEY)
    ensures FrontGate(options, ctx) == Pass
  {
  }

  /** A REST request goes on to REST dispatch, whatever its URI and the headless
      and GraphQL settings say; only the REST filter can refuse it. */
  lemma RestRequestSkipsPageGuards(options: PhpValue, ctx: RequestContext)
    requires ctx.restRequest && !IsXmlrpcRequest(ctx)
    ensures FrontGate(options, ctx) == Pass
  {
  }

  /** A disabled XML-RPC request is refused before any other flag is consulted:
      the response is the same whatever the other flags and request properties are. */
  lemma XmlrpcRefusedFirst(options: PhpValue, ctx: RequestContext)
    requires Enabled(options, XMLRPC_DISABLE_KEY) && IsXmlrpcRequest(ctx)
    ensures FrontGate(options, ctx) == XMLRPC_DENIAL
  {
  }

  /** The gate lets a request go on exactly when the XML-RPC guard does and, unless
      it is an XML-RPC or REST request, the GraphQL and template guards do too. */
  lemma GatePassesOnlyWhenAllPass(options: PhpValue, ctx: RequestContext)
    ensures FrontGate(options, ctx) == Pass <==>
      && XmlrpcGuard(options, ctx) == Pass
      && (IsXmlrpcRequest(ctx) || ctx.restRequest ||
            (GraphqlGuard(options, ctx) == Pass && TemplateRedirectGuard(options, ctx) == Pass))
  {
  }

  /** An unauthenticated browser request with nothing special about it. */
  function BrowserRequest(uri: string, accept: string): (ctx: RequestContext)
    ensures ctx.requestUri == Some(uri) && ctx.httpAccept == Some(accept)
    ensures !ctx.loggedIn && !ExemptFromTemplateBlock(ctx) && !Truthy(ctx.templateBypass)
  {
    RequestContext(
      isAdmin := false, doingCron := false, restRequest := false, graphqlHttpRequest := false,
      xmlrpcRequest := None, templateBypass := Bool(false), loggedIn := false,
      requestUri := Some(uri), httpAccept := Some(accept))
  }

  /** With the activation defaults, an unauthenticated browser GET of `/` asking for
      HTML gets the headless notice as plain text with status 403. */
  lemma BrowserPageScenario()
    ensures FrontGate(Activate(Bool(false)), BrowserRequest("/", "text/html")) ==
      Halt(403, PlainText(HEADLESS_MESSAGE))
  {
    GraphqlRoute.NoMatchUnlessEndsInEndpointChars("/");
  }

  /** The same request asking for JSON among other media types gets the notice
      as a JSON error. */
  lemma JsonPageScenario()
    ensures FrontGate(Activate(Bool(false)), BrowserRequest("/", "text/html, application/json;q=0.9")) ==
      Halt(403, WpJsonError(HEADLESS_MESSAGE))
  {
    var prefix := "text/html, ";
    var accept := prefix + JSON_MEDIA_TYPE + ";q=0.9";
    assert accept == "text/html, application/json;q=0.9";
    assert accept[|prefix|..|prefix| + |JSON_MEDIA_TYPE|] == JSON_MEDIA_TYPE;
    PhpStrings.ContainsAt(accept, JSON_MEDIA_TYPE, |prefix|);
    var ctx := BrowserRequest("/", accept);
    assert AcceptsJson(ctx);
    GraphqlRoute.NoMatchUnlessEndsInEndpointChars("/");
    assert GraphqlGuard(Activate(Bool(false)), ctx) == Pass;
  }

  /** The media type test is case-sensitive: `Application/JSON` gets plain text. */
  lemma CaseSensitiveAcceptScenario()
    ensures FrontGate(Activate(Bool(false)), BrowserRequest("/", "Application/JSON")) ==
      Halt(403, PlainText(HEADLESS_MESSAGE))
  {
    GraphqlRoute.NoMatchUnlessEndsInEndpointChars("/");
    var accept := "Application/JSON";
    assert !PhpStrings.OccursAt(accept, JSON_MEDIA_TYPE, 0) by {
      assert accept[0] != JSON_MEDIA_TYPE[0];
    }
    assert !PhpStrings.Contains(accept, JSON_MEDIA_TYPE);
  }

  /** With the activation defaults, an unauthenticated POST to `/graphql` gets the
      fixed GraphQL 401 before the template guard runs. */
  lemma GraphqlScenario()
    ensures FrontGate(Activate(Bool(false)), BrowserRequest("/graphql", "application/json")) == GRAPHQL_DENIAL
  {
    GraphqlRoute.EndpointMatches();
  }

  /** With the activation defaults, an unauthenticated REST call gets the
      `rest_cannot_access` error carrying the host's authorization-required status,
      whatever value the filter received. */
  lemma RestScenario<T>(code: int, result: T)
    ensures RestAuthenticationErrors(Activate(Bool(false)), false, code, result) ==
      RestError(REST_ERROR_CODE, REST_MESSAGE, code)
  {
    assert Enabled(Activate(Bool(false)), REST_PROTECT_KEY);
  }
}
