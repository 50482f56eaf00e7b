/**
 * The reCAPTCHA client (inc/recaptcha.php): which values a request carries,
 * the siteverify request built from them, how the reply is judged, and
 * whether the login page enqueues the widget script.
 */
module Recaptcha {
  import opened Wrappers
  import opened Php
  import opened Options

  /** A `$_POST` value: a string, or an array submitted with `name[]` syntax. */
  datatype Field = Text(s: string) | Nested

  /**
   * The request state the plugin reads: `$_POST`, `$_REQUEST` and `$_SERVER`
   * (the last two as strings, the form they take for these keys).
   */
  datatype Request = Request(post: map<string, Field>, params: map<string, string>, server: map<string, string>)

  /** An HTTP POST with a form-encoded body, its fields in order. */
  datatype PostRequest = PostRequest(url: string, body: seq<(string, string)>)

  /**
   * What `wp_safe_remote_post` gives back: a transport error, or a response
   * with its status code and the body as `json_decode($body, true)` reads it
   * (None when the body is not JSON).
   */
  datatype Reply = TransportError | Response(status: int, json: Option<Value>)

  const TokenField := "g-recaptcha-response"
  const RemoteAddr := "REMOTE_ADDR"
  const VerificationUrl := "https://www.google.com/recaptcha/api/siteverify"

  /**
   * `request_values()`: the token (`filter_input(INPUT_POST, ...) ?: ''`, so a
   * missing, array-valued or falsy field becomes "") and the client address
   * ("" when `REMOTE_ADDR` is not set).
   */
  function RequestValues(req: Request): (r: (string, string))
    ensures r.0 == "" || Truthy(Str(r.0))
    ensures r.0 != "" <==> TokenField in req.post && req.post[TokenField].Text? && Truthy(Str(req.post[TokenField].s))
    ensures r.0 != "" ==> req.post[TokenField] == Text(r.0)
    ensures r.1 == (if RemoteAddr in req.server then req.server[RemoteAddr] else "")
  {
    var posted := if TokenField in req.post && req.post[TokenField].Text? then Str(req.post[TokenField].s) else False;
    (if Truthy(posted) then posted.s else "",
     if RemoteAddr in req.server then req.server[RemoteAddr] else "")
  }

  /** The value of the first body field named `key`. */
  function Param(body: seq<(string, string)>, key: string): Option<string> {
    if body == [] then None
    else if body[0].0 == key then Some(body[0].1)
    else Param(body[1..], key)
  }

  function FieldNames(body: seq<(string, string)>): seq<string> {
    seq(|body|, k requires 0 <= k < |body| => body[k].0)
  }

  /**
   * The siteverify request: the secret and the token, and the client address
   * only when it is truthy, posted to the fixed verification URL.
   */
  function VerificationRequest(secret: string, token: string, remoteIp: string): (r: PostRequest)
    ensures r.url == VerificationUrl
    ensures FieldNames(r.body) == ["secret", "response"] + (if Truthy(Str(remoteIp)) then ["remoteip"] else [])
    ensures Param(r.body, "secret") == Some(secret)
    ensures Param(r.body, "response") == Some(token)
    ensures Param(r.body, "remoteip") == if Truthy(Str(remoteIp)) then Some(remoteIp) else None
  {
    var params := [("secret", secret), ("response", token)];
    var body := if Truthy(Str(remoteIp)) then params + [("remoteip", remoteIp)] else params;
    assert body[1..][1..] == if Truthy(Str(remoteIp)) then [("remoteip", remoteIp)] else [];
    assert "secret" != "remoteip" && "response"[2] != "remoteip"[2];
    assert Param(body, "remoteip") == Param(body[1..][1..], "remoteip");
    PostRequest(VerificationUrl, body)
  }

  /**
   * `isset($json['success']) && $json['success']`: only a decoded array can
   * hold the key, and its value must be truthy (not necessarily `true`).
   */
  predicate ReportsSuccess(json: Option<Value>) {
    && json.Some?
    && json.value.Arr?
    && StrKey("success") in json.value.entries
    && Truthy(json.value.entries[StrKey("success")])
  }

  /** Transport errors, statuses other than 200 and replies not reporting success all fail. */
  predicate ReplySucceeds(reply: Reply) {
    reply.Response? && reply.status == 200 && ReportsSuccess(reply.json)
  }

  /**
   * `verify_response($token, $remote_ip)`, with the remote service as the
   * function `siteverify` from the request posted to the reply received. A
   * falsy token fails before anything is posted.
   */
  function VerifyResponse(site: Site, token: string, remoteIp: string, siteverify: PostRequest -> Reply): (r: bool)
    ensures r ==> token != "" && token != "0"
    ensures r <==>
      && Truthy(Str(token))
      && var reply := siteverify(VerificationRequest(SecretKey(site), token, remoteIp));
         && reply.Response? && reply.status == 200
         && reply.json.Some? && reply.json.value.Arr?
         && StrKey("success") in reply.json.value.entries
         && Truthy(reply.json.value.entries[StrKey("success")])
  {
    if !Truthy(Str(token)) then
      false
    else
      var reply := siteverify(VerificationRequest(SecretKey(site), token, remoteIp));
      if reply.TransportError? then false
      else if reply.status != 200 then false
      else ReportsSuccess(reply.json)
  }

  /** With a falsy token the remote service is never asked: the verdict does not depend on it. */
  lemma FalsyTokenPostsNothing(site: Site, token: string, remoteIp: string, one: PostRequest -> Reply, other: PostRequest -> Reply)
    requires token == "" || token == "0"
    ensures !VerifyResponse(site, token, remoteIp, one)
    ensures VerifyResponse(site, token, remoteIp, one) == VerifyResponse(site, token, remoteIp, other)
  {
  }

  /** A truthy token is judged on the reply to exactly one request, the one VerificationRequest builds. */
  lemma VerdictDependsOnOneReply(site: Site, token: string, remoteIp: string, one: PostRequest -> Reply, other: PostRequest -> Reply)
    requires Truthy(Str(token))
    requires var sent := VerificationRequest(SecretKey(site), token, remoteIp); one(sent) == other(sent)
    ensures VerifyResponse(site, token, remoteIp, one) == VerifyResponse(site, token, remoteIp, other)
  {
  }

  /** The reply cases of `verify_response`, for a truthy token. */
  lemma ReplyCases(site: Site, token: string, remoteIp: string, siteverify: PostRequest -> Reply)
    requires Truthy(Str(token))
    ensures var reply := siteverify(VerificationRequest(SecretKey(site), token, remoteIp));
      && (reply.TransportError? ==> !VerifyResponse(site, token, remoteIp, siteverify))
      && (reply.Response? && reply.status != 200 ==> !VerifyResponse(site, token, remoteIp, siteverify))
      && (reply.Response? && reply.json.None? ==> !VerifyResponse(site, token, remoteIp, siteverify))
      && (reply.Response? && reply.status == 200
          ==> VerifyResponse(site, token, remoteIp, siteverify) == ReportsSuccess(reply.json))
  {
  }

  /**
   * `success` need only be truthy: 1 and "yes" pass like true; false, 0, "",
   * "0", null and a missing key fail.
   */
  lemma SuccessIsTruthiness()
    ensures ReportsSuccess(Some(Arr(map[StrKey("success") := Bool(true)])))
    ensures ReportsSuccess(Some(Arr(map[StrKey("success") := Int(1)])))
    ensures ReportsSuccess(Some(Arr(map[StrKey("success") := Str("yes")])))
    ensures !ReportsSuccess(Some(Arr(map[StrKey("success") := Bool(false)])))
    ensures !ReportsSuccess(Some(Arr(map[StrKey("success") := Str("0")])))
    ensures !ReportsSuccess(Some(Arr(map[StrKey("success") := Null])))
    ensures !ReportsSuccess(Some(Arr(map[StrKey("error-codes") := Arr(map[])])))
    ensures !ReportsSuccess(Some(Bool(true)))
    ensures !ReportsSuccess(None)
  {
    assert StrKey("success") != StrKey("error-codes");
  }

  /** The `$conditions` table: the flag behind each action the script serves. */
  function ActionFlag(site: Site, action: string): Option<bool> {
    if action == "login" then Some(IsEnabledForLogin(site))
    else if action == "lostpassword" then Some(IsEnabledForLostpassword(site))
    else if action == "register" then Some(IsEnabledForRegistration(site))
    else None
  }

  /**
   * The decision of `enqueue_scripts`: true when it calls `wp_enqueue_script`.
   * The action defaults to "login"; "register" is governed by the registration
   * flag; any other action never enqueues.
   */
  function ShouldEnqueueScripts(site: Site, req: Request): (r: bool)
    ensures !KeysSet(site) ==> !r
    ensures "action" !in req.params ==> (r <==> KeysSet(site) && IsEnabledForLogin(site))
    ensures "action" in req.params ==>
      (r <==> && KeysSet(site)
              && ((req.params["action"] == "login" && IsEnabledForLogin(site))
                  || (req.params["action"] == "lostpassword" && IsEnabledForLostpassword(site))
                  || (req.params["action"] == "register" && IsEnabledForRegistration(site))))
  {
    if !KeysSet(site) then
      false
    else
      var action := if "action" in req.params then req.params["action"] else "login";
      var condition := ActionFlag(site, action);
      condition.Some? && condition.value
  }
}
