/**
 * The resolvers of packages/lib/constants/app.ts seen as one table: every
 * configuration key has one environment variable and one fallback rule, and
 * a fallback may use the resolved value of one other key. A generic
 * interpreter of that table is the reference definition the exports are
 * proved against; the rule graph is acyclic by construction because the
 * interpreter terminates on a rank that every dependency lowers.
 */
module ConfigRules {
  import opened Wrappers
  import C = AppConstants

  datatype ConfigKey =
    | AppName | AppShortName | WebappUrl | InternalWebappUrl
    | BillingEnabled | DocumentUploadSizeLimit
    | EmailFromName | EmailFromAddress | ServiceUserEmail
    | AuthIssuer | AuthRpName | WebhookSecretHeader | SigningCertificateText
    | AnalyticsDomain | CompanyName | CompanyNameNoComma

  /** How a key resolves when its own variable is undefined. */
  datatype Rule =
    | Literal(text: string)
      /** prefix + the resolved value of `dep` + suffix */
    | Interpolate(dep: ConfigKey, prefix: string, suffix: string)
      /** the flag is on exactly when the variable equals `truthy` */
    | ExactMatch(truthy: string)
      /** `Number(value) || fallback` */
    | NumberOr(fallback: real)

  datatype Value = Text(s: string) | Flag(b: bool) | Number(n: C.JsNumber)

  /** The environment variable that overrides a key. */
  function EnvVar(k: ConfigKey): string {
    match k
    case AppName => C.NEXT_PUBLIC_APP_NAME
    case AppShortName => C.NEXT_PUBLIC_APP_SHORT_NAME
    case WebappUrl => C.NEXT_PUBLIC_WEBAPP_URL
    case InternalWebappUrl => C.NEXT_PRIVATE_INTERNAL_WEBAPP_URL
    case BillingEnabled => C.NEXT_PUBLIC_FEATURE_BILLING_ENABLED
    case DocumentUploadSizeLimit => C.NEXT_PUBLIC_DOCUMENT_SIZE_UPLOAD_LIMIT
    case EmailFromName => C.NEXT_PRIVATE_SMTP_FROM_NAME
    case EmailFromAddress => C.NEXT_PRIVATE_SMTP_FROM_ADDRESS
    case ServiceUserEmail => C.NEXT_PRIVATE_SERVICE_USER_EMAIL
    case AuthIssuer => C.NEXT_PRIVATE_AUTH_ISSUER
    case AuthRpName => C.NEXT_PRIVATE_AUTH_RP_NAME
    case WebhookSecretHeader => C.NEXT_PRIVATE_WEBHOOK_SECRET_HEADER
    case SigningCertificateText => C.NEXT_PRIVATE_SIGNING_CERTIFICATE_TEXT
    case AnalyticsDomain => C.NEXT_PRIVATE_ANALYTICS_DOMAIN
    case CompanyName => C.NEXT_PUBLIC_COMPANY_NAME
    case CompanyNameNoComma => C.NEXT_PUBLIC_COMPANY_NAME_NO_COMMA
  }

  /** Keys whose value is a string. */
  predicate IsText(k: ConfigKey) {
    k != BillingEnabled && k != DocumentUploadSizeLimit
  }

  /**
   * Height of a key in the dependency graph: keys with a literal, flag or
   * number rule have rank 0, keys whose fallback uses another key rank 1.
   */
  function Rank(k: ConfigKey): nat {
    match k
    case AppName | AppShortName | WebappUrl | BillingEnabled | DocumentUploadSizeLimit
       | EmailFromAddress | ServiceUserEmail | AnalyticsDomain => 0
    case _ => 1
  }

  /** The fallback rule of every key, as app.ts writes it. */
  function RuleOf(k: ConfigKey): (r: Rule)
    ensures IsText(k) <==> r.Literal? || r.Interpolate?
    ensures r.Interpolate? <==> Rank(k) > 0
    ensures r.Interpolate? ==> IsText(r.dep) && Rank(r.dep) < Rank(k)
  {
    match k
    case AppName => Literal(C.DEFAULT_APP_NAME)
    case AppShortName => Literal(C.DEFAULT_APP_NAME)
    case WebappUrl => Literal(C.DEFAULT_WEBAPP_URL)
    case InternalWebappUrl => Interpolate(WebappUrl, "", "")
    case BillingEnabled => ExactMatch(C.BILLING_ENABLED_VALUE)
    case DocumentUploadSizeLimit => NumberOr(C.DEFAULT_UPLOAD_SIZE_LIMIT)
    case EmailFromName => Interpolate(AppName, "", "")
    case EmailFromAddress => Literal(C.DEFAULT_EMAIL_FROM_ADDRESS)
    case ServiceUserEmail => Literal(C.DEFAULT_SERVICE_USER_EMAIL)
    case AuthIssuer => Interpolate(AppName, "", "")
    case AuthRpName => Interpolate(AppName, "", "")
    case WebhookSecretHeader => Interpolate(AppName, "X-", "-Secret")
    case SigningCertificateText => Interpolate(AppName, "Signed by ", "")
    case AnalyticsDomain => Literal(C.DEFAULT_ANALYTICS_DOMAIN)
    case CompanyName => Interpolate(AppName, "", ", Inc.")
    case CompanyNameNoComma => Interpolate(AppName, "", " Inc.")
  }

  /**
   * The generic reading of the rule table: the key's own variable wins when
   * it is defined (even when empty), otherwise its rule is applied, resolving
   * the dependency first.
   */
  function Interpret(env: C.Env, toNumber: string -> C.JsNumber, k: ConfigKey): (v: Value)
    ensures IsText(k) <==> v.Text?
    ensures k == BillingEnabled <==> v.Flag?
    ensures IsText(k) && EnvVar(k) in env ==> v == Text(env[EnvVar(k)])
    decreases Rank(k)
  {
    var own := C.Lookup(env, EnvVar(k));
    match RuleOf(k)
    case Literal(t) => Text(own.GetOr(t))
    case Interpolate(dep, prefix, suffix) =>
      (match own
       case Some(s) => Text(s)
       case None => Text(prefix + Interpret(env, toNumber, dep).s + suffix))
    case ExactMatch(truthy) => Flag(own == Some(truthy))
    case NumberOr(fallback) =>
      var n := C.Number(own, toNumber);
      Number(if C.Truthy(n) then n else C.Finite(fallback))
  }

  /** The exported resolvers of app.ts, selected by key. */
  function Resolve(env: C.Env, toNumber: string -> C.JsNumber, k: ConfigKey): Value {
    match k
    case AppName => Text(C.AppName(env))
    case AppShortName => Text(C.AppShortName(env))
    case WebappUrl => Text(C.WebappUrl(env))
    case InternalWebappUrl => Text(C.InternalWebappUrl(env))
    case BillingEnabled => Flag(C.IsBillingEnabled(env))
    case DocumentUploadSizeLimit => Number(C.DocumentUploadSizeLimit(env, toNumber))
    case EmailFromName => Text(C.EmailFromName(env))
    case EmailFromAddress => Text(C.EmailFromAddress(env))
    case ServiceUserEmail => Text(C.ServiceUserEmail(env))
    case AuthIssuer => Text(C.AuthIssuer(env))
    case AuthRpName => Text(C.AuthRpName(env))
    case WebhookSecretHeader => Text(C.WebhookSecretHeader(env))
    case SigningCertificateText => Text(C.SigningCertificateText(env))
    case AnalyticsDomain => Text(C.AnalyticsDomain(env))
    case CompanyName => Text(C.CompanyName(env))
    case CompanyNameNoComma => Text(C.CompanyNameNoComma(env))
  }

  /** Every export of app.ts agrees with its row of the rule table. */
  lemma ResolveFollowsRules(env: C.Env, toNumber: string -> C.JsNumber, k: ConfigKey)
    ensures Resolve(env, toNumber, k) == Interpret(env, toNumber, k)
  {
    match RuleOf(k)
    case Literal(_) => LiteralRowsFollowRules(env, toNumber, k);
    case Interpolate(_, _, _) =>
      if k == InternalWebappUrl || k == EmailFromName || k == AuthIssuer || k == AuthRpName {
        BareFallbackRowsFollowRules(env, toNumber, k);
      } else if k == WebhookSecretHeader || k == SigningCertificateText {
        PrefixedNameRowsFollowRules(env, toNumber, k);
      } else {
        CompanyNameRowsFollowRules(env, toNumber, k);
      }
    case _ =>
  }

  lemma LiteralRowsFollowRules(env: C.Env, toNumber: string -> C.JsNumber, k: ConfigKey)
    requires RuleOf(k).Literal?
    ensures Resolve(env, toNumber, k) == Interpret(env, toNumber, k)
  {
    match k
    case AppName =>
    case AppShortName =>
    case WebappUrl =>
    case EmailFromAddress =>
    case ServiceUserEmail =>
    case AnalyticsDomain =>
  }

  /** Rows whose fallback is another resolver's value, with no text around it. */
  lemma BareFallbackRowsFollowRules(env: C.Env, toNumber: string -> C.JsNumber, k: ConfigKey)
    requires k == InternalWebappUrl || k == EmailFromName || k == AuthIssuer || k == AuthRpName
    ensures Resolve(env, toNumber, k) == Interpret(env, toNumber, k)
  {
    assert "" + C.AppName(env) + "" == C.AppName(env);
    assert "" + C.WebappUrl(env) + "" == C.WebappUrl(env);
    match k
    case InternalWebappUrl =>
    case EmailFromName =>
    case AuthIssuer =>
    case AuthRpName =>
  }

  /** Rows whose fallback puts text before the application name, and possibly after it. */
  lemma PrefixedNameRowsFollowRules(env: C.Env, toNumber: string -> C.JsNumber, k: ConfigKey)
    requires k == WebhookSecretHeader || k == SigningCertificateText
    ensures Resolve(env, toNumber, k) == Interpret(env, toNumber, k)
  {
    assert "Signed by " + C.AppName(env) + "" == "Signed by " + C.AppName(env);
    match k
    case WebhookSecretHeader =>
    case SigningCertificateText =>
  }

  /** Rows whose fallback puts a company suffix after the application name. */
  lemma CompanyNameRowsFollowRules(env: C.Env, toNumber: string -> C.JsNumber, k: ConfigKey)
    requires k == CompanyName || k == CompanyNameNoComma
    ensures Resolve(env, toNumber, k) == Interpret(env, toNumber, k)
  {
    assert "" + C.AppName(env) + ", Inc." == C.AppName(env) + ", Inc.";
    assert "" + C.AppName(env) + " Inc." == C.AppName(env) + " Inc.";
    match k
    case CompanyName =>
    case CompanyNameNoComma =>
  }

  /** Every derived default depends on a literal-default key: depth at most one. */
  lemma DependencyDepthAtMostOne(k: ConfigKey)
    ensures RuleOf(k).Interpolate? ==>
              (RuleOf(k).dep == AppName || RuleOf(k).dep == WebappUrl)
              && RuleOf(RuleOf(k).dep).Literal?
    ensures Rank(k) <= 1
  {
  }

  /** The variables a key's resolution may read: its own and its dependency's. */
  function Reads(k: ConfigKey): (vars: set<string>)
    ensures EnvVar(k) in vars
    ensures RuleOf(k).Interpolate? ==> Reads(RuleOf(k).dep) <= vars
    decreases Rank(k)
  {
    match RuleOf(k)
    case Interpolate(dep, _, _) => {EnvVar(k)} + Reads(dep)
    case _ => {EnvVar(k)}
  }

  /** Two environments that agree on `Reads(k)` resolve `k` to the same value. */
  lemma {:induction false} Locality(env1: C.Env, env2: C.Env, toNumber: string -> C.JsNumber, k: ConfigKey)
    requires forall v :: v in Reads(k) ==> C.Lookup(env1, v) == C.Lookup(env2, v)
    ensures Interpret(env1, toNumber, k) == Interpret(env2, toNumber, k)
    decreases Rank(k)
  {
    assert C.Lookup(env1, EnvVar(k)) == C.Lookup(env2, EnvVar(k));
    match RuleOf(k)
    case Interpolate(dep, _, _) =>
      Locality(env1, env2, toNumber, dep);
    case _ =>
  }

  /** A variable that is defined but empty is returned as the empty string. */
  lemma EmptyValueWins(env: C.Env, toNumber: string -> C.JsNumber, k: ConfigKey)
    requires IsText(k)
    ensures Resolve(env[EnvVar(k) := ""], toNumber, k) == Text("")
  {
    ResolveFollowsRules(env[EnvVar(k) := ""], toNumber, k);
  }

  lemma ConcatCancel(prefix: string, a: string, b: string, suffix: string)
    ensures prefix + a + suffix == prefix + b + suffix <==> a == b
  {
    if prefix + a + suffix == prefix + b + suffix {
      assert a == (prefix + a + suffix)[|prefix|..|prefix| + |a|];
      assert b == (prefix + b + suffix)[|prefix|..|prefix| + |b|];
    }
  }

  /** Keys whose fallback embeds the application name. */
  predicate DerivedFromAppName(k: ConfigKey) {
    RuleOf(k).Interpolate? && RuleOf(k).dep == AppName
  }

  /**
   * Overriding NEXT_PUBLIC_APP_NAME reaches every key derived from the
   * application name whose own variable is undefined, with the new name in
   * place of the old.
   */
  lemma AppNameOverrideReaches(env: C.Env, toNumber: string -> C.JsNumber, name: string, k: ConfigKey)
    requires DerivedFromAppName(k) && EnvVar(k) !in env
    ensures Resolve(env[C.NEXT_PUBLIC_APP_NAME := name], toNumber, k)
            == Text(RuleOf(k).prefix + name + RuleOf(k).suffix)
  {
    ResolveFollowsRules(env[C.NEXT_PUBLIC_APP_NAME := name], toNumber, k);
  }

  /**
   * Overriding NEXT_PUBLIC_APP_NAME changes the value of a key exactly when
   * the name really changes and the key is the application name itself or a
   * key derived from it whose own variable is undefined.
   */
  lemma AppNameOverrideChangesExactly(env: C.Env, toNumber: string -> C.JsNumber, name: string, k: ConfigKey)
    ensures var env' := env[C.NEXT_PUBLIC_APP_NAME := name];
            Resolve(env', toNumber, k) != Resolve(env, toNumber, k)
            <==> name != C.AppName(env)
                 && (k == AppName || (DerivedFromAppName(k) && EnvVar(k) !in env))
  {
    var env' := env[C.NEXT_PUBLIC_APP_NAME := name];
    ResolveFollowsRules(env, toNumber, k);
    ResolveFollowsRules(env', toNumber, k);
    ResolveFollowsRules(env, toNumber, AppName);
    if k == AppName {
    } else if DerivedFromAppName(k) {
      assert EnvVar(k) != C.NEXT_PUBLIC_APP_NAME;
      if EnvVar(k) !in env {
        ConcatCancel(RuleOf(k).prefix, name, C.AppName(env), RuleOf(k).suffix);
      }
    } else {
      assert C.NEXT_PUBLIC_APP_NAME !in Reads(k);
      Locality(env, env', toNumber, k);
    }
  }
}
