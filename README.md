# Headless Setup: the request guards, in Dafny

The Headless Setup WordPress plugin turns a WordPress site into an API-only back
end. It keeps four flags in the `headless_setup_options` option:

- `headless_mode` blocks the rendering of front-end templates;
- `xmlrpc_disable` refuses XML-RPC requests;
- `rest_protect` requires a logged-in user for the REST API;
- `graphql_protect` requires a logged-in user for the GraphQL endpoint.

Activation stores all four as 1 when the option does not exist yet. Each flag is
read with PHP `empty()` on every request, so a missing record or a missing key
turns that guard off (fail open).

This project models that decision logic as pure functions. The inputs are the
value `get_option` returned and a `RequestContext` record holding what WordPress
and PHP report about the request: `is_admin()`, the `DOING_CRON`, `REST_REQUEST`,
`GRAPHQL_HTTP_REQUEST` and `XMLRPC_REQUEST` constants, the bypass filter's value,
the login state, `REQUEST_URI` and the `Accept` header. Each guard returns a
disposition: `Pass` or `Halt(status, body)`. The REST guard instead returns the
new value of the `rest_authentication_errors` filter: either a `RestError` or the
incoming value `PassThrough(result)`.

Modules, one file each:

- `Wrappers`: `Option`.
- `PhpValues`: PHP values, `empty()`, conversion to bool, and `$options[$key]`.
- `PhpStrings`: `strpos` as a first-occurrence search, proved equal to "occurs somewhere".
- `GraphqlRoute`: `preg_match('#/graphql/?$#', …)` as PCRE runs it. This is an
  unanchored left-to-right search, and PCRE's `$` also matches just before a final
  newline. It is proved equal to a plain suffix test.
- `HeadlessSetup`: the settings, the activation defaults, the four guards and their properties.
- `RequestLifecycle`: the three request-ending guards composed in hook order, plus
  end-to-end scenarios with the activation defaults.

Behaviour of the code worth noting:

- The template guard's JSON 403 is sent with `wp_send_json_error`, so its body is
  the envelope `{"success":false,"data":{"message":…}}`.
- Every flag is tested with `empty()`. The values `null`, `false`, `0`, `0.0`,
  `""`, `"0"` and the empty array all count as off.
- The REST error's status is whatever `rest_authorization_required_code()` returns.
- The GraphQL rule is applied to the whole `REQUEST_URI`, query string included.
  So `/graphql?query=…` is not matched, and an unauthenticated GET of that form
  is let through (`HeadlessSetup.GraphqlGuardIgnoresQueryString`).
- The template guard re-tests `REST_REQUEST || GRAPHQL_HTTP_REQUEST` after it has
  already returned on them. The model keeps that branch and proves it is never
  taken (`HeadlessSetup.TemplateGuardDecisionTable`).

## Model

| member | source | states |
|---|---|---|
| `PhpValues.IsEmpty` | headless-setup/headless-setup.php:84 | PHP `empty()` holds of exactly the values null, false, 0, 0.0, "", "0" and the empty array |
| `PhpValues.Lookup` | headless-setup/headless-setup.php:83-84 | reading a key of a value that is not an array (the `false` of a missing option), or a missing key, yields null, so the flag reads as empty |
| `PhpStrings.StrPosFrom` | headless-setup/headless-setup.php:102 | strpos returns the first index at or after the start where the needle occurs, and false (None) exactly when it occurs nowhere from there on |
| `PhpStrings.ContainsIffOccurs` | headless-setup/headless-setup.php:102 | `strpos(...) !== false` holds exactly when the needle occurs somewhere in the haystack, index 0 included |
| `GraphqlRoute.SearchFrom` | headless-setup/headless-setup.php:131 | preg_match's unanchored search finds a match exactly when the pattern matches at some start index |
| `GraphqlRoute.PregMatchIsSuffixTest` | headless-setup/headless-setup.php:131 | `#/graphql/?$#` matches exactly when the URI, less at most one final newline, ends in `/graphql` or `/graphql/` |
| `GraphqlRoute.EndpointRule` | headless-setup/headless-setup.php:131 | for a URI that does not end in a newline, a match means it ends in `/graphql` or `/graphql/` |
| `GraphqlRoute.NoMatchUnlessEndsInEndpointChars` | headless-setup/headless-setup.php:131 | a URI that does not end in a newline and does not end in `l` or `l/` is never matched |
| `GraphqlRoute.EndpointMatches` | headless-setup/headless-setup.php:131 | `/graphql`, `/graphql/` and the unanchored `/wp/graphql` match |
| `GraphqlRoute.NearMissesDoNotMatch` | headless-setup/headless-setup.php:131 | `/graphqlx`, `/graphql?query=x`, `/graphql?x=1`, `/graphql//` and `/` do not match |
| `GraphqlRoute.FinalNewlineMatches` | headless-setup/headless-setup.php:131 | because of PCRE's `$`, `/graphql` and `/graphql/` followed by one newline match too |
| `GraphqlRoute.TwoFinalNewlinesDoNotMatch` | headless-setup/headless-setup.php:131 | two final newlines defeat the match |
| `HeadlessSetup.Enabled` | headless-setup/headless-setup.php:84-151 | `! empty( $options[$key] )` (the test at lines 84, 114, 129 and 151) holds exactly when the option is an array holding the key with a value that is not empty |
| `HeadlessSetup.Activate` | headless-setup/headless-setup.php:10-16 | activation on a site without the option turns all four flags on; an option that already exists is left unchanged |
| `HeadlessSetup.ActivationTurnsEveryGuardOn` | headless-setup/headless-setup.php:10-16 | right after activation on a fresh site, each guard blocks exactly under its own request conditions |
| `HeadlessSetup.TemplateRedirectGuard` | headless-setup/headless-setup.php:82-109 | the template guard only ever answers 403, and only when `headless_mode` is on and the bypass filter returned a falsy value |
| `HeadlessSetup.TemplateGuardDecisionTable` | headless-setup/headless-setup.php:82-109 | the guard blocks exactly when headless mode is on, the bypass filter is falsy and the request is not admin, cron, REST or GraphQL-over-HTTP; it answers JSON when Accept contains `application/json` and plain text otherwise; so the branch at lines 95-100 is dead |
| `HeadlessSetup.TemplateJsonOnlyForPageRequests` | headless-setup/headless-setup.php:88-103 | REST and GraphQL-over-HTTP requests always pass the template guard; its JSON 403 goes only to page requests whose Accept header contains `application/json` |
| `HeadlessSetup.AcceptsJsonIffSubstring` | headless-setup/headless-setup.php:102-108 | the JSON body is chosen exactly when the Accept header is present and contains `application/json` case-sensitively |
| `HeadlessSetup.RestAuthenticationErrors` | headless-setup/headless-setup.php:112-122 | the filter either returns the incoming value unchanged or the `rest_cannot_access` error with the fixed message and the host's authorization-required status |
| `HeadlessSetup.RestGuardDecision` | headless-setup/headless-setup.php:114-121 | the error replaces the incoming value exactly when `rest_protect` is on and nobody is logged in, whatever that value was |
| `HeadlessSetup.RestGuardReadsOnlyItsFlag` | headless-setup/headless-setup.php:113-121 | the REST filter depends on no flag but `rest_protect` |
| `HeadlessSetup.GraphqlGuard` | headless-setup/headless-setup.php:125-144 | the GraphQL guard's only response is the 401 with the one `authentication` error, sent only when `graphql_protect` is on and nobody is logged in |
| `HeadlessSetup.GraphqlGuardDecision` | headless-setup/headless-setup.php:128-142 | the 401 is sent exactly when `graphql_protect` is on, REQUEST_URI is set and ends in `/graphql` or `/graphql/` (less one final newline), and nobody is logged in |
| `HeadlessSetup.GraphqlGuardReadsOnlyItsInputs` | headless-setup/headless-setup.php:126-133 | the GraphQL guard depends only on `graphql_protect`, REQUEST_URI and the login state |
| `HeadlessSetup.GraphqlGuardIgnoresQueryString` | headless-setup/headless-setup.php:130-131 | a request for `/graphql?query=x` passes the GraphQL guard whatever the settings and login state |
| `HeadlessSetup.XmlrpcGuard` | headless-setup/headless-setup.php:147-159 | the XML-RPC guard's only response is 403 with "XML-RPC is disabled on this site." as plain text, sent only when `xmlrpc_disable` is on |
| `HeadlessSetup.XmlrpcGuardReadsOnlyItsInputs` | headless-setup/headless-setup.php:148-157 | the XML-RPC guard blocks exactly when `xmlrpc_disable` is on and XMLRPC_REQUEST is defined and truthy; it reads no other flag, `headless_mode` included, and no other request property |
| `HeadlessSetup.NoSettingsFailsOpen` | headless-setup/headless-setup.php:83-151 | with no settings array stored, every guard passes every request and the REST filter hands its value on |
| `RequestLifecycle.FrontGate` | headless-setup/headless-setup.php:82-159 | the first guard in hook order (XML-RPC, then GraphQL, then templates) that ends the request decides the response; an XML-RPC request gets only the XML-RPC guard's answer, and a REST request that is not XML-RPC passes on to REST dispatch |
| `RequestLifecycle.XmlrpcRequestSkipsPageGuards` | headless-setup/headless-setup.php:147-159 | an XML-RPC request that XML-RPC protection does not refuse goes on, whatever the other flags say |
| `RequestLifecycle.RestRequestSkipsPageGuards` | headless-setup/headless-setup.php:125-144 | a REST request passes the gate whatever its URI and the GraphQL and headless settings, since it never reaches the GraphQL or template guard |
| `RequestLifecycle.GatePassesOnlyWhenAllPass` | headless-setup/headless-setup.php:82-159 | the gate lets a request go on exactly when the XML-RPC guard does and, for a request that is neither XML-RPC nor REST, the GraphQL and template guards do too |
| `RequestLifecycle.XmlrpcRefusedFirst` | headless-setup/headless-setup.php:147-159 | a refused XML-RPC request gets the XML-RPC 403 whatever the other flags and request properties are |
| `RequestLifecycle.BrowserPageScenario` | headless-setup/headless-setup.php:102-108 | with the defaults, an unauthenticated GET of `/` with `Accept: text/html` gets the headless notice as plain text, status 403 |
| `RequestLifecycle.JsonPageScenario` | headless-setup/headless-setup.php:102-103 | the same request with `application/json` among its accepted types gets the JSON error, status 403 |
| `RequestLifecycle.CaseSensitiveAcceptScenario` | headless-setup/headless-setup.php:102-107 | `Accept: Application/JSON` gets plain text, since the test is case-sensitive |
| `RequestLifecycle.GraphqlScenario` | headless-setup/headless-setup.php:128-142 | with the defaults, an unauthenticated request for `/graphql` gets the GraphQL 401 |
| `RequestLifecycle.RestScenario` | headless-setup/headless-setup.php:114-119 | with the defaults, an unauthenticated REST call gets `rest_cannot_access` with the host's status, whatever the incoming value |

## Left out

- Hook registration and lifecycle order (`add_action`, `add_filter`): each guard is a standalone function. `RequestLifecycle.FrontGate` assumes that `plugins_loaded` fires before `parse_request`, which fires before `template_redirect`, and that a guard which ends the request stops the rest. It also assumes that an XML-RPC request is served by xmlrpc.php, where neither `parse_request` nor `template_redirect` fires. It also assumes that a REST request is served by WordPress's own `rest_api_loaded` on `parse_request`, which is registered before any plugin loads, runs before the plugin's closure at line 125 and ends the request, so neither the GraphQL nor the template guard sees it. WordPress defines all of this; the plugin does not.
- The REST guard is not part of `FrontGate`: WordPress runs it inside its own REST dispatch, on a filter value rather than on the request.
- The activation redirect (lines 20-25) and the settings page, its fields and its markup (lines 28-79) are admin UI only.
- Side effects (`header`, `echo`, `exit`, `wp_send_json`, `wp_send_json_error`): each becomes the returned `Halt(status, body)`. The JSON encoding and the exact header lines are not modelled; `Body` names the document that is sent.
- Calls into WordPress are inputs: `is_admin()`, `is_user_logged_in()`, `apply_filters()`, `rest_authorization_required_code()` and `get_option()`. For `add_option` the model keeps only its rule "write only when `get_option` returns false"; its cache of known-missing options is not modelled.
- `__()` translation: the REST message is the untranslated literal.
- PHP values: arrays are keyed by strings; objects and resources are not modelled. A string-offset read with a numeric key cannot arise, because the plugin's keys are not numeric.
- PHP strings are bytes; the model reads them as characters. The results are the same here because the needle `application/json` and the GraphQL pattern are ASCII.
