/**
 * getAuthenticatorOptions of packages/lib/utils/authenticator.ts: the
 * WebAuthn relying-party description built from the resolvers.
 *
 * URL parsing (the host parser of the WHATWG URL Standard, section 3.5) is
 * not modelled: `hostname` stands for `new URL(u).hostname`, returning
 * `None` where the constructor throws. PASSKEY_TIMEOUT is defined in a
 * module that is not part of this model and is passed in as
 * `passkeyTimeout`.
 */
module Authenticator {
  import opened Wrappers
  import C = AppConstants

  datatype RelyingPartyOptions = RelyingPartyOptions(
    rpName: string,
    rpId: string,
    origin: string,
    timeout: int)

  /** `new URL(...)` threw a TypeError for this string. */
  datatype OptionsError = InvalidUrl(url: string)

  function GetAuthenticatorOptions(env: C.Env, hostname: string -> Option<string>, passkeyTimeout: int)
    : (r: Result<RelyingPartyOptions, OptionsError>)
    ensures r.Failure? <==> hostname(C.WebappUrl(env)).None?
    ensures r.Failure? ==> r.error == InvalidUrl(C.WebappUrl(env))
    ensures r.Success? ==> r.value.rpName == C.AuthRpName(env)
    ensures r.Success? ==> Some(r.value.rpId) == hostname(C.WebappUrl(env))
    ensures r.Success? ==> r.value.origin == C.WebappUrl(env)
    ensures r.Success? ==> r.value.timeout == passkeyTimeout
  {
    var webAppBaseUrl := C.WebappUrl(env);
    match hostname(webAppBaseUrl)
    case None => Failure(InvalidUrl(webAppBaseUrl))
    case Some(rpId) =>
      Success(RelyingPartyOptions(C.AuthRpName(env), rpId, C.WebappUrl(env), passkeyTimeout))
  }

  /**
   * The relying-party name is NEXT_PRIVATE_AUTH_RP_NAME when defined and
   * the application name otherwise; the origin is the configured URL
   * string verbatim, not a normalised form of it.
   */
  lemma OptionsFromEnvironment(env: C.Env, hostname: string -> Option<string>, passkeyTimeout: int)
    requires GetAuthenticatorOptions(env, hostname, passkeyTimeout).Success?
    ensures var o := GetAuthenticatorOptions(env, hostname, passkeyTimeout).value;
            && (C.NEXT_PRIVATE_AUTH_RP_NAME in env ==> o.rpName == env[C.NEXT_PRIVATE_AUTH_RP_NAME])
            && (C.NEXT_PRIVATE_AUTH_RP_NAME !in env ==> o.rpName == C.AppName(env))
            && (C.NEXT_PUBLIC_WEBAPP_URL in env ==> o.origin == env[C.NEXT_PUBLIC_WEBAPP_URL])
            && (C.NEXT_PUBLIC_WEBAPP_URL !in env ==> o.origin == "http://localhost:3000")
  {
  }

  /** With nothing set, the options describe the local development server. */
  lemma DefaultOptions(hostname: string -> Option<string>, passkeyTimeout: int)
    requires hostname("http://localhost:3000") == Some("localhost")
    ensures GetAuthenticatorOptions(map[], hostname, passkeyTimeout)
            == Success(RelyingPartyOptions("Documenso", "localhost", "http://localhost:3000", passkeyTimeout))
  {
  }

  /** The two environments give every named variable the same status and value. */
  predicate AgreeOn(env1: C.Env, env2: C.Env, names: set<string>) {
    forall n :: n in names ==> C.Lookup(env1, n) == C.Lookup(env2, n)
  }

  /**
   * The options read only the web-app URL, the relying-party name and the
   * application name: environments that agree on those three variables give
   * the same result, failure included.
   */
  lemma OptionsReadThreeVariables(env1: C.Env, env2: C.Env, hostname: string -> Option<string>, passkeyTimeout: int)
    requires AgreeOn(env1, env2, {C.NEXT_PUBLIC_WEBAPP_URL, C.NEXT_PRIVATE_AUTH_RP_NAME, C.NEXT_PUBLIC_APP_NAME})
    ensures GetAuthenticatorOptions(env1, hostname, passkeyTimeout)
            == GetAuthenticatorOptions(env2, hostname, passkeyTimeout)
  {
    assert C.Lookup(env1, C.NEXT_PUBLIC_WEBAPP_URL) == C.Lookup(env2, C.NEXT_PUBLIC_WEBAPP_URL);
    assert C.Lookup(env1, C.NEXT_PRIVATE_AUTH_RP_NAME) == C.Lookup(env2, C.NEXT_PRIVATE_AUTH_RP_NAME);
    assert C.Lookup(env1, C.NEXT_PUBLIC_APP_NAME) == C.Lookup(env2, C.NEXT_PUBLIC_APP_NAME);
  }
}
