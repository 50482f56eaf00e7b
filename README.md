# reCAPTCHA for WordPress — verification gate in Dafny

This project models the decision logic of the `recaptcha-for-wp` WordPress plugin.
The plugin requires a valid reCAPTCHA token on three forms: login, lost password and registration.
The model covers:

- how the plugin reads its five settings (`rfw_login`, `rfw_lostpassword`, `rfw_registration`,
  `rfw_secret_key`, `rfw_site_key`) through WordPress's option store, including the override by an
  upper-cased PHP constant (`RFW_SECRET_KEY`, …);
- the two save-time sanitizers;
- the siteverify client: the token and client address a request carries, the request posted to
  `https://www.google.com/recaptcha/api/siteverify`, and how the reply is judged;
- the decision whether the login page enqueues the widget script;
- the gate itself: `add_verification_errors` and the three form handlers, with WordPress's
  `WP_Error` as a class whose entry list is appended in place.

Modules, one per source file plus two supporting ones:

- `Wrappers` (`wrappers.dfy`): `Option`.
- `Php` (`php.dfy`): the PHP semantics the decisions rest on. It covers truthiness, `(string)`
  casts, `trim`, ASCII case mapping and `filter_var(…, FILTER_VALIDATE_BOOLEAN)`. A value is null,
  a boolean, an integer, a string or an array.
- `Options` (`options.dfy`): inc/options.php. The option store and the defined constants are the
  `Site` value passed to every reader.
- `Recaptcha` (`recaptcha.dfy`): inc/recaptcha.php. `$_POST`, `$_REQUEST` and `$_SERVER` are the
  `Request` value. The remote service is the function `siteverify` from the posted request to the
  reply. A reply is a transport error or a response: a status code plus the decoded JSON, or none
  when the body does not decode.
- `Plugin` (`plugin.dfy`): inc/plugin.php. `ErrorBag` stands for `WP_Error`, as an ordered list of
  entries (see `Plugin.ErrorBag.Add` under "## Left out"). `add_verification_errors`,
  `lostpassword_handler` and `registration_handler` change the caller's bag in place.
  `login_handler` builds its own bag and hands back its entries or the user.

Behaviour of the code worth knowing. The model keeps all of it except the first point:

- The plugin registers its settings on `login_init` as well as `admin_init` (inc/plugin.php:43-44),
  and `register_setting` with a `'default'` (inc/options.php:190-213) makes `get_option` return that
  default for an unsaved option. On wp-login.php, where the handlers and `enqueue_scripts` run, an
  unsaved flag therefore reads `'1'` (enabled). The model has no registered defaults: an unsaved
  option reads as false, as it does where `login_init` never fires (in the unit tests, for example).
  See `Options.GetOption` under "## Left out".
- The siteverify reply succeeds when `success` is PHP-truthy (`1`, `"yes"`, …), not only when it
  is the boolean `true`.
- A constant defined as `false` does not override its option. `get_option` reads a false
  short-circuit as "no short-circuit" and falls back to the stored value. Any other falsy constant
  (`0`, `""`, `"0"`) does override.
- A key equal to `"0"` counts as unset, like the empty key.
- `registration_handler` returns null when a key is unset, but the bag when the flow is disabled
  (see Findings).

## Model

| member | source | states |
|---|---|---|
| `Options.UseConstantsWhenDefined` | inc/options.php:264-277 | a non-false pre-option value is returned unchanged; otherwise the constant named by the upper-cased option when defined, else false |
| `Options.GetOption` | inc/plugin.php:61-68 | for the five plugin options, a defined constant whose value is not false wins over the store; otherwise the stored value, false when absent; other options never consult constants |
| `Options.ConstantOverridesStoredValue` | inc/options.php:270-276 | whatever is stored under the option, a defined non-false constant is what is read |
| `Options.FalseConstantDoesNotOverride` | inc/options.php:264-268 | a constant defined as false leaves the stored value in force |
| `Options.GetBooleanOption` | inc/options.php:21-24 | an absent option is false; a stored option with no override reads as the boolean filter of the stored value |
| `Options.FlagReadsOwnOption` | inc/options.php:31-51 | each of `rfw_login` / `rfw_lostpassword` / `rfw_registration` is unaffected by storing any other option or defining any other constant |
| `Php.FilterValidateBooleanIgnoresCase` | inc/options.php:23 | the boolean filter gives the same answer for a string and its lower-cased form |
| `Options.SecretKey` | inc/options.php:238-245 | the secret key is the string form of a defined, non-false `RFW_SECRET_KEY`; otherwise that of the stored option; "" when neither is present |
| `Options.SiteKey` | inc/options.php:247-254 | the site key is the string form of a defined, non-false `RFW_SITE_KEY`; otherwise that of the stored option; "" when neither is present |
| `Options.KeysSet` | inc/options.php:58-60 | the keys are set iff both key strings are neither "" nor "0" |
| `Options.KeysSetFromStore` | inc/options.php:58-60 | with no key constants and scalar stored keys, the keys are set iff both are stored and truthy |
| `Php.StringCastKeepsTruthiness` | inc/options.php:59 | casting a scalar to string and then to bool gives the scalar's own truthiness |
| `Options.EmptySiteExamples` | tests/test-options.php:5-21 | an empty store has no keys and no flag on |
| `Options.ConfiguredSiteHasKeys` | tests/test-options.php:20-27 | storing "test" as both keys makes the keys set |
| `Options.ConfiguredSiteEnablesFlows` | tests/test-options.php:5-17 | storing "1" as each flag enables login, lost password and registration |
| `Options.SanitizeBoolean` | inc/options.php:223-225 | the result is exactly "1" or "0"; true gives "1" and false gives "0" |
| `Options.SanitizeBooleanRoundTrip` | inc/options.php:223-225 | reading the sanitized string back through the boolean filter gives the submitted flag, so sanitizing is idempotent |
| `Options.SavedFlagReadsBack` | inc/options.php:21-24 | a flag stored through the sanitizer and read with `get_boolean_option` equals the boolean filter of the submitted value |
| `Options.SanitizeString` | inc/options.php:234-236 | the result is the string form of the value with the `trim` characters cut from both ends, and has none at either end |
| `Php.TrimUnique` | inc/options.php:235 | any infix with only trim characters around it and none at its edges is the trimmed string |
| `Options.SanitizeStringIdempotent` | inc/options.php:234-236 | sanitizing a sanitized string changes nothing |
| `Options.SanitizeStringExamples` | tests/test-options.php:36-40 | null gives "", " test " gives "test", the integer 1 gives "1" |
| `Recaptcha.RequestValues` | inc/recaptcha.php:42-47 | the token is "" or a truthy string; it is non-empty iff the posted field is a truthy string, which it then equals; the address is `REMOTE_ADDR` or "" |
| `Recaptcha.VerificationRequest` | inc/recaptcha.php:106-117 | the request goes to the siteverify URL; its fields are exactly `secret`, `response`, plus `remoteip` iff the address is truthy, with the given values |
| `Recaptcha.VerifyResponse` | inc/recaptcha.php:100-138 | true iff the token is truthy and the reply is a 200 response whose decoded JSON is an array holding a truthy `success` |
| `Recaptcha.FalsyTokenPostsNothing` | inc/recaptcha.php:100-104 | with a falsy token the answer is false whatever the remote service would reply |
| `Recaptcha.VerdictDependsOnOneReply` | inc/recaptcha.php:115-117 | for a truthy token, only the reply to the one built request matters |
| `Recaptcha.ReplyCases` | inc/recaptcha.php:119-137 | a transport error, a status other than 200 and an undecodable body all fail; a 200 reply passes iff it reports success |
| `Recaptcha.SuccessIsTruthiness` | inc/recaptcha.php:131-134 | `success` of true, 1 or "yes" passes; false, "0", null, a missing key or a non-array body fails |
| `Recaptcha.ShouldEnqueueScripts` | inc/recaptcha.php:15-35 | the script is enqueued iff the keys are set and the action (default `login`) is `login`, `lostpassword` or `register` with its flag on |
| `Plugin.VerificationErrors` | inc/plugin.php:19-31 | at most one entry: `missing_recaptcha` iff there is no token; `invalid_recaptcha` iff there is one and the reply does not succeed; none iff it does |
| `Plugin.MissingTokenSkipsVerification` | inc/plugin.php:21-25 | without a token the entry is `missing_recaptcha` whatever the remote service would reply |
| `Plugin.AddVerificationErrors` | inc/plugin.php:18-34 | the bag's old entries stay in order and the verification entries are appended, so it grows by at most one; the same bag is returned |
| `Plugin.LoginHandler` | inc/plugin.php:79-97 | the user passes unchanged when keys are unset or login is off; otherwise the login is rejected iff verification produced an error, with exactly that one entry |
| `Plugin.LostpasswordHandler` | inc/plugin.php:106-118 | the caller's bag is untouched when keys are unset or the flow is off; otherwise the verification entries are appended to it |
| `Plugin.RegistrationHandler` | inc/plugin.php:127-139 | returns null with the bag untouched when keys are unset; the untouched bag when the flow is off; the bag with the verification entries appended otherwise |
| `Plugin.RegistrationWithoutKeysLosesBag` | inc/plugin.php:128-131 | on a site without keys, the handler as written returns null although the caller's bag holds an error |
| `Plugin.RegistrationHandlerIntended` | inc/plugin.php:127-139 | always returns the caller's bag; it is untouched when keys are unset or the flow is off and gains the verification entries otherwise |
| `Plugin.RegistrationWithoutKeysKeepsBag` | inc/plugin.php:128-131 | on the same site, the corrected handler returns the bag with its error intact |

## Left out

- HTTP transport and JSON parsing (`wp_safe_remote_post`, `wp_remote_retrieve_*`, `json_decode`): foreign calls. They are the `siteverify` parameter and the decoded-or-none body of a reply.
- Debug logging (inc/debug.php): a side channel with no effect on results; every `debug` call is a no-op here.
- HTML output and the settings page (`notify_when_options_not_set`, `register_menu`, `register_menu_content`, `register_scripts`, inc/template-tags.php): rendering only.
- Hook wiring and setting registration (`initialize`, `register_settings`). Only the `pre_option_` filter set of inc/plugin.php:61-68 is kept, inside `GetOption`.
- Bootstrap and uninstall (recaptcha-for-wp.php, uninstall.php): plumbing.
- The login-action classifier and the helpers only the tests exercise (`get_current_login_action`, `is_valid_login_action`, `is_enabled_for_action`, `add_overlay_body_class`, `async_and_defer`): their implementation is not part of this model.
- `Options.GetOption`: does not model WordPress's object cache, the `option_` and `default_option_` filters, or the defaults registered with `register_setting`. Where `register_settings` has run (on `login_init` and `admin_init`), an unsaved `rfw_login`, `rfw_lostpassword` or `rfw_registration` reads `'1'` in the code but false in the model, and an unsaved key reads `''` in both.
- `Plugin.ErrorBag.Add`: appends a flat entry. `WP_Error::add` files each message under its code, so adding a code the bag already holds adds no new code and leaves the order of codes unchanged. The model's list would hold that code twice. The first code, which `ErrorCode` reads, is the same either way.
- `Recaptcha.ShouldEnqueueScripts`: gives only the decision; `wp_enqueue_script` itself is the host's. An array-valued `action` is not modelled, because `$_REQUEST` is taken as strings.
- `Plugin.LoginHandler`: returns the entries of the `WP_Error` it builds rather than the object. The bag is fresh and nothing else holds it, so no aliasing is lost.
- PHP floats and objects: not among the values the model's PHP layer covers. A JSON `success` given as a float cannot be expressed.
- `Php.Upper` and `Php.Lower`: map ASCII letters only, as `strtoupper`/`strtolower` do from PHP 8.2 on. The locale-dependent mapping of PHP 8.1 and earlier is not modelled.

## Findings

| source | as written | input that shows it | evidently intended | confidence | as-written member | corrected member |
|---|---|---|---|---|---|---|
| inc/plugin.php:128-131 | `registration_handler` ends with a bare `return;` when a key is unset, so the `registration_errors` filter yields null instead of the error bag | a site with no `rfw_secret_key` stored and no `RFW_SECRET_KEY` defined, and a registration WordPress already flagged with `empty_username` | `return $errors;`, as the disabled-flow branch at inc/plugin.php:133-136 does: the filter must hand the bag back | not executed; high, since WordPress's registration code (not part of this model) uses the filtered value as a `WP_Error` | `Plugin.RegistrationWithoutKeysLosesBag` | `Plugin.RegistrationHandlerIntended` |
