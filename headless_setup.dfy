/**
  The request guards of the Headless Setup WordPress plugin, as pure functions of
  the stored `headless_setup_options` value (what get_option returned) and of what
  WordPress reports about the current request. Each guard either lets the request
  go on or ends it with a fixed response; the REST guard instead rewrites the value
  of the `rest_authentication_errors` filter.
 */
module HeadlessSetup {
  import opened Wrappers
  import opened PhpValues
  import opened PhpStrings
  import opened GraphqlRoute

  // Settings

  const HEADLESS_MODE_KEY := "headless_mode"
  const XMLRPC_DISABLE_KEY := "xmlrpc_disable"
  const REST_PROTECT_KEY := "rest_protect"
  const GRAPHQL_PROTECT_KEY := "graphql_protect"

  /** The four flags of the settings record. */
  const FLAG_KEYS := {HEADLESS_MODE_KEY, XMLRPC_DISABLE_KEY, REST_PROTECT_KEY, GRAPHQL_PROTECT_KEY}

  /** `! empty( $options[$key] )`: the flag is on. A missing record, a record that
      is not an array, a missing key and every empty value all mean off. */
  predicate Enabled(options: PhpValue, key: string)
    ensures Enabled(options, key) <==>
      options.Arr? && key in options.entries && !IsEmpty(options.entries[key])
  {
    !IsEmpty(Lookup(options, key))
  }

  /** The record the activation hook hands to add_option: every flag set to 1. */
  const ACTIVATION_DEFAULTS := Arr(map[
    HEADLESS_MODE_KEY := Int(1),
    XMLRPC_DISABLE_KEY := Int(1),
    REST_PROTECT_KEY := Int(1),
    GRAPHQL_PROTECT_KEY := Int(1)])

  /** The stored option after the activation hook, given what get_option returned
      before it (`false` when the option does not exist). add_option writes only an
      option that does not exist yet, so settings saved earlier survive reactivation. */
  function Activate(stored: PhpValue): (after: PhpValue)
    ensures stored == Bool(false) ==> forall key | key in FLAG_KEYS :: Enabled(after, key)
    ensures stored != Bool(false) ==> after == stored
  {
    if stored == Bool(false) then ACTIVATION_DEFAULTS else stored
  }

  // Requests and responses

  /** What WordPress and PHP report about the request, as the guards read it. */
  datatype RequestContext = RequestContext(
    isAdmin: bool,                    // is_admin()
    doingCron: bool,                  // defined( 'DOING_CRON' )
    restRequest: bool,                // defined( 'REST_REQUEST' )
    graphqlHttpRequest: bool,         // defined( 'GRAPHQL_HTTP_REQUEST' )
    xmlrpcRequest: Option<PhpValue>,  // XMLRPC_REQUEST: None when not defined, else its value
    templateBypass: PhpValue,         // apply_filters( 'headless_template_block_bypass', false )
    loggedIn: bool,                   // is_user_logged_in()
    requestUri: Option<string>,       // $_SERVER['REQUEST_URI'], None when not set
    httpAccept: Option<string>)       // $_SERVER['HTTP_ACCEPT'], None when not set

  /** One entry of a GraphQL `errors` list: its `message` and `extensions.category`. */
  datatype GraphqlError = GraphqlError(message: string, category: string)

  /** The body of a response a guard sends. */
  datatype Body =
    | WpJsonError(message: string)            // wp_send_json_error( [ 'message' => m ] ): {"success":false,"data":{"message":m}}
    | GraphqlErrors(errors: seq<GraphqlError>) // wp_send_json( [ 'errors' => ... ] )
    | PlainText(text: string)                  // Content-Type: text/plain; charset=utf-8, then echo

  /** What a guard does: return and let WordPress go on, or send a response and end the request. */
  datatype Disposition =
    | Pass
    | Halt(status: int, body: Body)

  const HEADLESS_MESSAGE := "This site is headless. Please use the API."
  const REST_MESSAGE := "Only authenticated users can access the REST API."
  const REST_ERROR_CODE := "rest_cannot_access"
  const GRAPHQL_MESSAGE := "Only authenticated users can access the GraphQL endpoint."
  const GRAPHQL_CATEGORY := "authentication"
  const XMLRPC_MESSAGE := "XML-RPC is disabled on this site."
  const JSON_MEDIA_TYPE := "application/json"

  /** The response the GraphQL guard sends. */
  const GRAPHQL_DENIAL := Halt(401, GraphqlErrors([GraphqlError(GRAPHQL_MESSAGE, GRAPHQL_CATEGORY)]))

  /** The response the XML-RPC guard sends. */
  const XMLRPC_DENIAL := Halt(403, PlainText(XMLRPC_MESSAGE))

  // Template guard (template_redirect)

  /** `strpos( $_SERVER['HTTP_ACCEPT'] ?? '', 'application/json' ) !== false`. */
  predicate AcceptsJson(ctx: RequestContext) {
    Contains(if ctx.httpAccept.Some? then ctx.httpAccept.value else "", JSON_MEDIA_TYPE)
  }

  /** Contexts the template guard always lets through: admin, cron, REST, GraphQL over HTTP. */
  predicate ExemptFromTemplateBlock(ctx: RequestContext) {
    ctx.isAdmin || ctx.doingCron || ctx.restRequest || ctx.graphqlHttpRequest
  }

  /** The template_redirect closure: a chain of early returns, then a 403 whose body
      form is chosen by the Accept header. The fourth test repeats two conditions the
      third has already returned on; it is kept here as written. */
  function TemplateRedirectGuard(options: PhpValue, ctx: RequestContext): (d: Disposition)
    ensures d.Halt? ==> d.status == 403
    ensures d.Halt? ==> Enabled(options, HEADLESS_MODE_KEY) && !Truthy(ctx.templateBypass)
  {
    if !Enabled(options, HEADLESS_MODE_KEY) then Pass
    else if Truthy(ctx.templateBypass) then Pass
    else if ctx.isAdmin || ctx.doingCron || ctx.restRequest || ctx.graphqlHttpRequest then Pass
    else if ctx.restRequest || ctx.graphqlHttpRequest then Halt(403, WpJsonError(HEADLESS_MESSAGE))
    else if AcceptsJson(ctx) then Halt(403, WpJsonError(HEADLESS_MESSAGE))
    else Halt(403, PlainText(HEADLESS_MESSAGE))
  }

  /** The template guard as a decision table with no API branch: it blocks exactly
      when headless mode is on, the bypass filter is falsy and the context is not
      exempt; the body is the JSON error when the Accept header contains
      `application/json` (case-sensitive) and the plain text otherwise. Since the
      guard agrees with this table everywhere, its JSON branch for REST and GraphQL
      requests is never taken. */
  lemma TemplateGuardDecisionTable(options: PhpValue, ctx: RequestContext)
    ensures TemplateRedirectGuard(options, ctx) ==
      if Enabled(options, HEADLESS_MODE_KEY) && !Truthy(ctx.templateBypass) && !ExemptFromTemplateBlock(ctx)
      then Halt(403, if AcceptsJson(ctx) then WpJsonError(HEADLESS_MESSAGE) else PlainText(HEADLESS_MESSAGE))
      else Pass
  {
  }

  /** The template guard never answers a REST or GraphQL-over-HTTP request, so its
      JSON response is only ever sent to a page request whose Accept header asks for JSON. */
  lemma TemplateJsonOnlyForPageRequests(options: PhpValue, ctx: RequestContext)
    ensures TemplateRedirectGuard(options, ctx) == Halt(403, WpJsonError(HEADLESS_MESSAGE)) ==>
      !ctx.restRequest && !ctx.graphqlHttpRequest && AcceptsJson(ctx)
    ensures ctx.restRequest || ctx.graphqlHttpRequest ==> TemplateRedirectGuard(options, ctx) == Pass
  {
  }

  /** The JSON body is chosen exactly when `application/json` occurs in the Accept
      header, character for character; a missing header counts as empty. */
  lemma AcceptsJsonIffSubstring(ctx: RequestContext)
    ensures AcceptsJson(ctx) <==>
      ctx.httpAccept.Some? && exists i: nat :: OccursAt(ctx.httpAccept.value, JSON_MEDIA_TYPE, i)
  {
    ContainsIffOccurs(if ctx.httpAccept.Some? then ctx.httpAccept.value else "", JSON_MEDIA_TYPE);
  }

  // REST guard (rest_authentication_errors)

  /** The value the `rest_authentication_errors` filter returns: a WP_Error with its
      code, message and `status` data, or the incoming value unchanged. */
  datatype RestFilterResult<T> =
    | RestError(code: string, message: string, status: int)
    | PassThrough(result: T)

  /** The rest_authentication_errors closure. `authorizationRequiredCode` is what
      rest_authorization_required_code() returns; `result` is the incoming filter value. */
  function RestAuthenticationErrors<T>(options: PhpValue, loggedIn: bool, authorizationRequiredCode: int, result: T)
    : (r: RestFilterResult<T>)
    ensures r.PassThrough? ==> r.result == result
    ensures r.RestError? ==> r == RestError(REST_ERROR_CODE, REST_MESSAGE, authorizationRequiredCode)
  {
    if Enabled(options, REST_PROTECT_KEY) && !loggedIn then
      RestError(REST_ERROR_CODE, REST_MESSAGE, authorizationRequiredCode)
    else
      PassThrough(result)
  }

  /** The REST guard replaces the incoming value exactly when REST protection is on
      and nobody is logged in, whatever that value was; otherwise it hands it on. */
  lemma RestGuardDecision<T>(options: PhpValue, loggedIn: bool, code: int, result: T)
    ensures RestAuthenticationErrors(options, loggedIn, code, result).RestError? <==>
      Enabled(options, REST_PROTECT_KEY) && !loggedIn
  {
  }

  /** The REST guard reads only its own flag and the login state. */
  lemma RestGuardReadsOnlyItsFlag<T>(options1: PhpValue, options2: PhpValue, loggedIn: bool, code: int, result: T)
    requires IsEmpty(Lookup(options1, REST_PROTECT_KEY)) == IsEmpty(Lookup(options2, REST_PROTECT_KEY))
    ensures RestAuthenticationErrors(options1, loggedIn, code, result) ==
      RestAuthenticationErrors(options2, loggedIn, code, result)
  {
  }

  // GraphQL guard (parse_request)

  /** The parse_request closure: the conjunction of four tests, then a 401 with a
      fixed GraphQL error list. */
  function GraphqlGuard(options: PhpValue, ctx: RequestContext): (d: Disposition)
    ensures d.Halt? ==> d == GRAPHQL_DENIAL
    ensures d.Halt? ==> Enabled(options, GRAPHQL_PROTECT_KEY) && !ctx.loggedIn
  {
    if && Enabled(options, GRAPHQL_PROTECT_KEY)
       && ctx.requestUri.Some?
       && PregMatchGraphql(ctx.requestUri.value)
       && !ctx.loggedIn
    then GRAPHQL_DENIAL
    else Pass
  }

  /** The GraphQL guard sends its 401 exactly when protection is on, REQUEST_URI is
      set and ends (less at most one final newline) in `/graphql` or `/graphql/`,
      and nobody is logged in. */
  lemma GraphqlGuardDecision(options: PhpValue, ctx: RequestContext)
    ensures GraphqlGuard(options, ctx) == GRAPHQL_DENIAL <==>
      && Enabled(options, GRAPHQL_PROTECT_KEY)
      && ctx.requestUri.Some?
      && IsGraphqlPath(ctx.requestUri.value)
      && !ctx.loggedIn
  {
    if ctx.requestUri.Some? {
      PregMatchIsSuffixTest(ctx.requestUri.value);
    }
  }

  /** The GraphQL guard reads only its own flag, REQUEST_URI and the login state. */
  lemma GraphqlGuardReadsOnlyItsInputs(options1: PhpValue, options2: PhpValue, ctx1: RequestContext, ctx2: RequestContext)
    requires IsEmpty(Lookup(options1, GRAPHQL_PROTECT_KEY)) == IsEmpty(Lookup(options2, GRAPHQL_PROTECT_KEY))
    requires ctx1.requestUri == ctx2.requestUri && ctx1.loggedIn == ctx2.loggedIn
    ensures GraphqlGuard(options1, ctx1) == GraphqlGuard(options2, ctx2)
  {
  }

  /** A query string after the endpoint is part of REQUEST_URI, so an unauthenticated
      GET to `/graphql?query=...` is not stopped by this guard. */
  lemma GraphqlGuardIgnoresQueryString(options: PhpValue, ctx: RequestContext)
    requires ctx.requestUri == Some("/graphql?query=x")
    ensures GraphqlGuard(options, ctx) == Pass
  {
    NearMissesDoNotMatch();
  }

  // XML-RPC guard (plugins_loaded)

  /** The request is an XML-RPC request: XMLRPC_REQUEST is defined and truthy. */
  predicate IsXmlrpcRequest(ctx: RequestContext) {
    ctx.xmlrpcRequest.Some? && Truthy(ctx.xmlrpcRequest.value)
  }

  /** The plugins_loaded closure: a 403 in plain text when XML-RPC is disabled and
      XMLRPC_REQUEST is defined with a truthy value. */
  function XmlrpcGuard(options: PhpValue, ctx: RequestContext): (d: Disposition)
    ensures d.Halt? ==> d == XMLRPC_DENIAL
    ensures d.Halt? ==> Enabled(options, XMLRPC_DISABLE_KEY)
  {
    if Enabled(options, XMLRPC_DISABLE_KEY) && IsXmlrpcRequest(ctx)
    then XMLRPC_DENIAL
    else Pass
  }

  /** The XML-RPC guard blocks exactly when its flag is on and XMLRPC_REQUEST is
      defined and truthy; it reads no other flag (not even headless_mode) and no
      other property of the request. */
  lemma XmlrpcGuardReadsOnlyItsInputs(options1: PhpValue, options2: PhpValue, ctx1: RequestContext, ctx2: RequestContext)
    requires IsEmpty(Lookup(options1, XMLRPC_DISABLE_KEY)) == IsEmpty(Lookup(options2, XMLRPC_DISABLE_KEY))
    requires ctx1.xmlrpcRequest == ctx2.xmlrpcRequest
    ensures XmlrpcGuard(options1, ctx1) == XmlrpcGuard(options2, ctx2)
    ensures XmlrpcGuard(options1, ctx1) == XMLRPC_DENIAL <==>
      Enabled(options1, XMLRPC_DISABLE_KEY) && IsXmlrpcRequest(ctx1)
  {
  }

  // Fail-open and activation

  /** With no settings array stored (option missing, or saved as a scalar), every
      guard lets every request through and the REST filter hands its value on. */
  lemma NoSettingsFailsOpen<T>(options: PhpValue, ctx: RequestContext, code: int, result: T)
    requires !options.Arr?
    ensures TemplateRedirectGuard(options, ctx) == Pass
    ensures GraphqlGuard(options, ctx) == Pass
    ensures XmlrpcGuard(options, ctx) == Pass
    ensures RestAuthenticationErrors(options, ctx.loggedIn, code, result) == PassThrough(result)
  {
  }

  /** Right after activation on a site with no stored settings, each guard is on:
      the guards act exactly as their conditions on the request say. */
  lemma ActivationTurnsEveryGuardOn<T>(ctx: RequestContext, code: int, result: T)
    ensures var options := Activate(Bool(false));
      && (TemplateRedirectGuard(options, ctx) == Pass <==>
            Truthy(ctx.templateBypass) || ExemptFromTemplateBlock(ctx))
      && (RestAuthenticationErrors(options, ctx.loggedIn, code, result).RestError? <==> !ctx.loggedIn)
      && (XmlrpcGuard(options, ctx) == XMLRPC_DENIAL <==> IsXmlrpcRequest(ctx))
      && (GraphqlGuard(options, ctx) == GRAPHQL_DENIAL <==>
            ctx.requestUri.Some? && IsGraphqlPath(ctx.requestUri.value) && !ctx.loggedIn)
  {
    var options := Activate(Bool(false));
    assert forall key | key in FLAG_KEYS :: Enabled(options, key);
    assert Enabled(options, GRAPHQL_PROTECT_KEY);
    GraphqlGuardDecision(options, ctx);
  }
}
