/**
 * The verification gate (inc/plugin.php): the error each submission earns and
 * the three handlers WordPress calls for the login, lost-password and
 * registration forms.
 */
module Plugin {
  import opened Php
  import opened Options
  import opened Recaptcha

  /** One entry of a `WP_Error`: an error code and its message. */
  datatype ErrorEntry = ErrorEntry(code: string, message: string)

  const MissingRecaptcha := ErrorEntry("missing_recaptcha", "<strong>ERROR</strong>: Missing reCAPTCHA response. Are you a bot?")
  const InvalidRecaptcha := ErrorEntry("invalid_recaptcha", "<strong>ERROR</strong>: Invalid reCAPTCHA response. Are you a bot?")

  /**
   * WordPress's `WP_Error`, as the plugin uses it: an ordered bag of entries
   * that `add` appends to and `get_error_code` reads the first code of.
   */
  class ErrorBag {
    var entries: seq<ErrorEntry>

    /** `new \WP_Error` */
    constructor ()
      ensures entries == []
    {
      entries := [];
    }

    /** `$errors->add($code, $message)` */
    method Add(code: string, message: string)
      modifies this
      ensures entries == old(entries) + [ErrorEntry(code, message)]
    {
      entries := entries + [ErrorEntry(code, message)];
    }

    /** `$errors->get_error_code()`: the first code, or "" when the bag is empty. */
    function ErrorCode(): string
      reads this
    {
      if entries == [] then "" else entries[0].code
    }
  }

  /**
   * The entries `add_verification_errors` appends for a request: `missing_recaptcha`
   * when there is no token, `invalid_recaptcha` when the token does not verify,
   * nothing otherwise.
   */
  function VerificationErrors(site: Site, req: Request, siteverify: PostRequest -> Reply): (r: seq<ErrorEntry>)
    ensures |r| <= 1
    ensures r == [MissingRecaptcha] <==> RequestValues(req).0 == ""
    ensures r == [InvalidRecaptcha] <==>
      RequestValues(req).0 != "" && !ReplySucceeds(siteverify(
        VerificationRequest(SecretKey(site), RequestValues(req).0, RequestValues(req).1)))
    ensures r == [] <==>
      RequestValues(req).0 != "" && ReplySucceeds(siteverify(
        VerificationRequest(SecretKey(site), RequestValues(req).0, RequestValues(req).1)))
  {
    var (token, remoteIp) := RequestValues(req);
    if !Truthy(Str(token)) then [MissingRecaptcha]
    else if !VerifyResponse(site, token, remoteIp, siteverify) then [InvalidRecaptcha]
    else []
  }

  /** Without a token the remote service is never consulted. */
  lemma MissingTokenSkipsVerification(site: Site, req: Request, one: PostRequest -> Reply, other: PostRequest -> Reply)
    requires RequestValues(req).0 == ""
    ensures VerificationErrors(site, req, one) == VerificationErrors(site, req, other) == [MissingRecaptcha]
  {
  }

  /**
   * `add_verification_errors($errors)`: appends at most one entry to the bag
   * it is given, keeping the entries already there, and returns that bag.
   */
  method AddVerificationErrors(errors: ErrorBag, site: Site, req: Request, siteverify: PostRequest -> Reply)
    returns (r: ErrorBag)
    modifies errors
    ensures r == errors
    ensures errors.entries == old(errors.entries) + VerificationErrors(site, req, siteverify)
    ensures old(errors.entries) <= errors.entries && |errors.entries| <= |old(errors.entries)| + 1
  {
    var (token, remoteIp) := RequestValues(req);
    if !Truthy(Str(token)) {
      errors.Add(MissingRecaptcha.code, MissingRecaptcha.message);
    } else if !VerifyResponse(site, token, remoteIp, siteverify) {
      errors.Add(InvalidRecaptcha.code, InvalidRecaptcha.message);
    }
    r := errors;
  }

  /** What `login_handler` hands back to `wp_authenticate_user`. */
  datatype LoginResult<U> =
    | PassThrough(user: U)                 // the `$user` it was given
    | Rejected(errors: seq<ErrorEntry>)    // the entries of the `WP_Error` it built

  /**
   * `login_handler($user, $password)`: with the keys set and login protection
   * on, verifies the request into a fresh bag and rejects the login with that
   * bag when it holds an error; otherwise passes `$user` through.
   */
  method LoginHandler<U>(user: U, password: string, site: Site, req: Request, siteverify: PostRequest -> Reply)
    returns (r: LoginResult<U>)
    ensures !KeysSet(site) || !IsEnabledForLogin(site) ==> r == PassThrough(user)
    ensures KeysSet(site) && IsEnabledForLogin(site) ==>
      (r.Rejected? <==> VerificationErrors(site, req, siteverify) != [])
    ensures r.Rejected? ==> r.errors == VerificationErrors(site, req, siteverify) && |r.errors| == 1
    ensures r.PassThrough? ==> r.user == user
  {
    if !KeysSet(site) {
      return PassThrough(user);
    }
    if !IsEnabledForLogin(site) {
      return PassThrough(user);
    }
    var bag := new ErrorBag();
    var errors := AddVerificationErrors(bag, site, req, siteverify);
    ghost var added := VerificationErrors(site, req, siteverify);
    assert errors.entries == added;
    assert added == [] || added == [MissingRecaptcha] || added == [InvalidRecaptcha];
    assert Truthy(Str(MissingRecaptcha.code)) && Truthy(Str(InvalidRecaptcha.code));
    if Truthy(Str(errors.ErrorCode())) {
      return Rejected(errors.entries);
    }
    return PassThrough(user);
  }

  /**
   * `lostpassword_handler($errors)`: with the keys set and the flow enabled,
   * appends the verification error, if any, to the caller's bag in place;
   * otherwise leaves it alone.
   */
  method LostpasswordHandler(errors: ErrorBag, site: Site, req: Request, siteverify: PostRequest -> Reply)
    modifies errors
    ensures KeysSet(site) && IsEnabledForLostpassword(site) ==>
      errors.entries == old(errors.entries) + VerificationErrors(site, req, siteverify)
    ensures !KeysSet(site) || !IsEnabledForLostpassword(site) ==> errors.entries == old(errors.entries)
  {
    if !KeysSet(site) {
      return;
    }
    if !IsEnabledForLostpassword(site) {
      return;
    }
    var _ := AddVerificationErrors(errors, site, req, siteverify);
  }

  /**
   * `registration_handler($errors)` as written: returns nothing (null) when
   * the keys are unset, the bag untouched when the flow is disabled, and the
   * bag after verification otherwise.
   */
  method RegistrationHandler(errors: ErrorBag, site: Site, req: Request, siteverify: PostRequest -> Reply)
    returns (r: ErrorBag?)
    modifies errors
    ensures !KeysSet(site) ==> r == null && errors.entries == old(errors.entries)
    ensures KeysSet(site) ==> r == errors
    ensures KeysSet(site) && !IsEnabledForRegistration(site) ==> errors.entries == old(errors.entries)
    ensures KeysSet(site) && IsEnabledForRegistration(site) ==>
      errors.entries == old(errors.entries) + VerificationErrors(site, req, siteverify)
  {
    if !KeysSet(site) {
      return null;
    }
    if !IsEnabledForRegistration(site) {
      return errors;
    }
    r := AddVerificationErrors(errors, site, req, siteverify);
  }

  /**
   * `registration_handler` as the `registration_errors` filter needs it: the
   * bag always comes back, so the caller can go on asking it for errors.
   */
  method RegistrationHandlerIntended(errors: ErrorBag, site: Site, req: Request, siteverify: PostRequest -> Reply)
    returns (r: ErrorBag)
    modifies errors
    ensures r == errors
    ensures KeysSet(site) && IsEnabledForRegistration(site) ==>
      errors.entries == old(errors.entries) + VerificationErrors(site, req, siteverify)
    ensures !KeysSet(site) || !IsEnabledForRegistration(site) ==> errors.entries == old(errors.entries)
  {
    if !KeysSet(site) {
      return errors;
    }
    if !IsEnabledForRegistration(site) {
      return errors;
    }
    r := AddVerificationErrors(errors, site, req, siteverify);
  }

  /** A site with no keys, and a registration whose form already failed WordPress's own check. */
  const Unconfigured := Site(map[], map[])
  const EmptyUsername := ErrorEntry("empty_username", "<strong>ERROR</strong>: Please enter a username.")

  /**
   * On a site without keys, `registration_handler` as written hands null back
   * to the `registration_errors` filter: the error WordPress had already found
   * is no longer in what the filter returns.
   */
  method RegistrationWithoutKeysLosesBag(req: Request, siteverify: PostRequest -> Reply)
    returns (r: ErrorBag?, kept: seq<ErrorEntry>)
    ensures r == null
    ensures kept == [EmptyUsername]
  {
    EmptySiteExamples();
    var errors := new ErrorBag();
    errors.Add(EmptyUsername.code, EmptyUsername.message);
    r := RegistrationHandler(errors, Unconfigured, req, siteverify);
    kept := errors.entries;
  }

  /** The corrected handler returns the caller's bag, its error intact, on the same site. */
  method RegistrationWithoutKeysKeepsBag(req: Request, siteverify: PostRequest -> Reply)
    returns (r: ErrorBag, returned: seq<ErrorEntry>)
    ensures returned == [EmptyUsername]
  {
    EmptySiteExamples();
    var errors := new ErrorBag();
    errors.Add(EmptyUsername.code, EmptyUsername.message);
    r := RegistrationHandlerIntended(errors, Unconfigured, req, siteverify);
    returned := r.entries;
  }
}
