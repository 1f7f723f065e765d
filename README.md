# Branding and configuration resolution of Documenso, in Dafny

This project models how Documenso decides its branding and identity values and where those values go:

- **Configuration resolvers** (`packages/lib/constants/app.ts`). Each resolver has one environment variable of its own and reads it first. Every string resolver falls back with `??`. The fallback is one of three kinds:
  - a literal (`'Documenso'`, `'http://localhost:3000'`, …);
  - `NEXT_PUBLIC_WEBAPP_URL()`, for the internal URL;
  - a string built from `APP_NAME()` (`X-…-Secret`, `Signed by …`, `…, Inc.`, `… Inc.`).

  A derived resolver therefore also reads `NEXT_PUBLIC_APP_NAME` or `NEXT_PUBLIC_WEBAPP_URL` when its own variable is undefined. There is one boolean flag, compared exactly with `"true"` and with no fallback, and one numeric limit, `Number(…) || 50`. Module `AppConstants` has one function per export. Module `ConfigRules` restates the same resolvers as a table: one key, one variable and one fallback rule each. A generic interpreter of that table is the reference every export is proved against. The interpreter terminates on a rank that every dependency lowers, so the dependency graph is acyclic by construction.
- **Relying-party options** (`packages/lib/utils/authenticator.ts`, module `Authenticator`). The WebAuthn relying-party record is built from `AUTH_RP_NAME()`, `NEXT_PUBLIC_WEBAPP_URL()` and that URL's hostname. If the URL does not parse, the call fails.
- **Branding script** (`scripts/process-branding.js`, modules `TextReplace` and `Branding`). The script resolves two names with `||`. It then visits two web-manifest files in order, replaces every `{{APP_NAME}}` and then every `{{APP_SHORT_NAME}}`, and writes each file back. Errors are caught per file. The file system is the class `Branding.FileSystem`, which holds:
  - a map from path to content;
  - the set of paths whose read throws;
  - the set of paths whose write throws.
  
  The script's steps are methods, each proved against a specification function of the file-system state. `ProcessFile` is proved against `ProcessFileOutcome` and `ProcessFileEffect`. `VisitFile`, the body of the `forEach`, is proved against `VisitOutcome` and `Visit`. `ProcessAll` and `ProcessBranding` are proved against `Run` and `Report`. The lemmas are stated about those functions.

Modelling assumptions:

- The environment is a `map<string, string>`, and an unset variable is absent from it. `env()` is assumed to return `""` as `""`.
- JavaScript's `Number()` is the parameter `toNumber`, returning a `JsNumber` (NaN, finite or infinite). `Number(undefined)` is NaN directly.
- `new URL(u).hostname` is the parameter `hostname`, which returns `None` where the constructor throws.
- `PASSKEY_TIMEOUT` is the parameter `passkeyTimeout`.

Behaviour of the source worth knowing:

- **Empty values.** In `app.ts`, `??` falls back only on `undefined`, so a variable set to `""` is returned as `""` (`ConfigRules.EmptyValueWins`). The branding script's `||` treats `""` as unset. The script and the runtime therefore disagree on the application name exactly when the variable is the empty string (`Branding.ScriptNameAgreesWithResolver`).
- **Upload limit.** `Number(…) || 50` falls back to 50 when the value is unset or parses to NaN, and also when it parses to 0 (`AppConstants.UploadLimitCases`).
- **Idempotence.** The templating pass is idempotent only when the first pass leaves no placeholder behind (`Branding.SubstituteIdempotentWhenClean`). With `APP_NAME` set to `"APP_NAME"`, the text `{{{{APP_NAME}}}}` becomes `{{APP_NAME}}`, and a second pass changes it again (`Branding.NotIdempotentInGeneral`).

## Model

| member | source | states |
|---|---|---|
| `AppConstants.DocumentUploadSizeLimit` | packages/lib/constants/app.ts:3-4 | The result is never NaN or zero. It is 50 when the variable is unset. Otherwise it is the parsed number when that is truthy, and 50 when it is NaN or 0. |
| `AppConstants.WebappUrl` | packages/lib/constants/app.ts:6-7 | The variable's value verbatim when defined, else `http://localhost:3000`. |
| `AppConstants.InternalWebappUrl` | packages/lib/constants/app.ts:9-10 | `NEXT_PRIVATE_INTERNAL_WEBAPP_URL` when defined, else the public web-app URL. |
| `AppConstants.IsBillingEnabled` | packages/lib/constants/app.ts:12 | True if and only if the variable is defined and equals exactly `"true"`. |
| `AppConstants.AppName` | packages/lib/constants/app.ts:19 | The variable's value verbatim when defined (even `""`), else `Documenso`. |
| `AppConstants.AppShortName` | packages/lib/constants/app.ts:20 | Its own variable when defined, else `Documenso`. It does not depend on the application name. |
| `AppConstants.EmailFromName` | packages/lib/constants/app.ts:23 | The SMTP from-name variable when defined, else the resolved application name. |
| `AppConstants.EmailFromAddress` | packages/lib/constants/app.ts:24 | The variable when defined, else `noreply@documenso.com`. |
| `AppConstants.ServiceUserEmail` | packages/lib/constants/app.ts:25 | The variable when defined, else `serviceaccount@documenso.com`. |
| `AppConstants.AuthIssuer` | packages/lib/constants/app.ts:28 | The issuer variable when defined, else the resolved application name. |
| `AppConstants.AuthRpName` | packages/lib/constants/app.ts:29 | The relying-party name variable when defined, else the resolved application name. |
| `AppConstants.WebhookSecretHeader` | packages/lib/constants/app.ts:32 | The variable when defined, else `"X-" + AppName + "-Secret"`. |
| `AppConstants.SigningCertificateText` | packages/lib/constants/app.ts:35 | The variable when defined, else `"Signed by " + AppName`. |
| `AppConstants.AnalyticsDomain` | packages/lib/constants/app.ts:38 | The variable when defined, else `documenso.com`. |
| `AppConstants.CompanyName` | packages/lib/constants/app.ts:41 | The variable when defined, else `AppName + ", Inc."`. |
| `AppConstants.CompanyNameNoComma` | packages/lib/constants/app.ts:42 | The variable when defined, else `AppName + " Inc."`. |
| `AppConstants.EmptyEnvironmentDefaults` | packages/lib/constants/app.ts:6-42 | With no variable set, every resolver gives its documented literal or interpolated default, and billing is off. |
| `AppConstants.BillingFlagCases` | packages/lib/constants/app.ts:12 | `"true"` enables billing. `"TRUE"`, `"1"`, `""` and unset do not. |
| `AppConstants.UploadLimitCases` | packages/lib/constants/app.ts:3-4 | `""`, `"0"`, `"abc"` and unset give 50, and `"75"` gives 75, under `Number()`'s values for those strings. |
| `ConfigRules.RuleOf` | packages/lib/constants/app.ts:6-42 | Exactly the string keys have a literal or interpolated rule. Every interpolated rule depends on a string key of lower rank. |
| `ConfigRules.Interpret` | packages/lib/constants/app.ts:6-42 | The generic resolver gives a string for string keys and a flag only for billing. A defined variable of a string key is returned verbatim. |
| `ConfigRules.ResolveFollowsRules` | packages/lib/constants/app.ts:3-42 | Every exported resolver equals the generic interpretation of its row in the rule table. |
| `ConfigRules.DependencyDepthAtMostOne` | packages/lib/constants/app.ts:6-42 | Every derived default depends on `APP_NAME` or `NEXT_PUBLIC_WEBAPP_URL`, both of which have literal rules, so the dependency depth is at most one. |
| `ConfigRules.Reads` | packages/lib/constants/app.ts:6-42 | The variables a key may read include its own variable and everything its dependency reads. |
| `ConfigRules.Locality` | packages/lib/constants/app.ts:6-42 | Two environments that agree on the variables a key reads resolve that key to the same value. |
| `ConfigRules.EmptyValueWins` | packages/lib/constants/app.ts:7-42 | A string key whose variable is set to `""` resolves to `""`. |
| `ConfigRules.AppNameOverrideReaches` | packages/lib/constants/app.ts:19-42 | After overriding `NEXT_PUBLIC_APP_NAME`, a key derived from the name whose own variable is unset becomes prefix + new name + suffix. |
| `ConfigRules.AppNameOverrideChangesExactly` | packages/lib/constants/app.ts:19-42 | Overriding the name changes a key if and only if the name really changes and the key is `APP_NAME` itself or a derived key whose own variable is unset. |
| `Authenticator.GetAuthenticatorOptions` | packages/lib/utils/authenticator.ts:7-17 | Fails, with the URL, exactly when `new URL` throws on it. A URL that parses with an empty hostname succeeds with `rpId == ""`. Otherwise `rpName` is `AUTH_RP_NAME()`, `rpId` is that URL's hostname, `origin` is the URL string and `timeout` is the passkey timeout. |
| `Authenticator.OptionsFromEnvironment` | packages/lib/utils/authenticator.ts:12-14 | `rpName` is the relying-party name variable or else the application name. `origin` is the web-app URL variable verbatim, or else `http://localhost:3000`. |
| `Authenticator.DefaultOptions` | packages/lib/utils/authenticator.ts:7-17 | With an empty environment, the result is `Documenso`, `localhost`, `http://localhost:3000` and the timeout. |
| `Authenticator.OptionsReadThreeVariables` | packages/lib/utils/authenticator.ts:8-15 | Two environments that agree on `NEXT_PUBLIC_WEBAPP_URL`, `NEXT_PRIVATE_AUTH_RP_NAME` and `NEXT_PUBLIC_APP_NAME` give the same result, failure included. No other variable affects the options. |
| `TextReplace.ReplaceAll` | scripts/process-branding.js:16-17 | Replacing the pattern by itself changes nothing. A replacement as long as the pattern keeps the text's length. |
| `TextReplace.ReplaceAllDistributes` | scripts/process-branding.js:16-17 | Global replacement of `x + y` is the replacement of `x` followed by that of `y`, when no occurrence spans the seam. |
| `TextReplace.SplitJoinRoundTrip` | scripts/process-branding.js:16-17 | Cutting text at every occurrence of the placeholder and joining the pieces with the placeholder gives back the text. |
| `TextReplace.SplitPiecesFree` | scripts/process-branding.js:16-17 | No piece contains the placeholder, so every occurrence is cut out. |
| `TextReplace.ReplaceAllIsJoinOfSplit` | scripts/process-branding.js:16-17 | Global replacement equals joining those pieces with the replacement. Every occurrence is replaced and all other text is kept. |
| `TextReplace.ReplaceAllWithoutOccurrence` | scripts/process-branding.js:16-17 | Text without the placeholder is returned unchanged. |
| `TextReplace.ReplaceAllAtFirstOccurrence` | scripts/process-branding.js:16-17 | The leftmost occurrence is replaced and the text before it is kept. Scanning resumes after it, so occurrences do not overlap. |
| `Branding.NameOr` | scripts/process-branding.js:7-8 | The variable when it is set and non-empty, else `Documenso`. The result is never empty. |
| `Branding.ResolveNames` | scripts/process-branding.js:7-8 | Both names are resolved with `||` and are non-empty. |
| `Branding.ScriptNameAgreesWithResolver` | scripts/process-branding.js:7-8 | The script's names equal the runtime resolvers' names if and only if the variable is not set to `""`. |
| `Branding.Substitute` | scripts/process-branding.js:16-17 | The result is the split/join form of both replacements, the application name first and the short name second. Substituting each placeholder by itself changes nothing. |
| `Branding.SubstituteUntouched` | scripts/process-branding.js:16-17 | Content with neither placeholder is written back unchanged. |
| `Branding.OtherPlaceholderUntouched` | scripts/process-branding.js:16-17 | Wherever `{{OTHER}}` stands in the content, placeholders included, it is kept, and the text on each side is substituted as if on its own: `Substitute(a + "{{OTHER}}" + b) == Substitute(a) + "{{OTHER}}" + Substitute(b)`. |
| `Branding.ReplaceAroundOther` | scripts/process-branding.js:16-17 | The same for one replacement pass with either placeholder. |
| `Branding.SubstituteIdempotentWhenClean` | scripts/process-branding.js:16-19 | If the first pass leaves no placeholder behind, a second pass changes nothing. |
| `Branding.NestedPlaceholderReforms` | scripts/process-branding.js:16 | Replacing `{{APP_NAME}}` by `APP_NAME` in `{{{{APP_NAME}}}}` forms `{{APP_NAME}}`. |
| `Branding.NotIdempotentInGeneral` | scripts/process-branding.js:16-19 | With that name, a second pass changes the output of the first, so idempotence is only conditional. |
| `Branding.AppNameSubstitutedFirst` | scripts/process-branding.js:16-17 | A short-name placeholder that the application name brings in is substituted as well, because `APP_NAME` is replaced first. |
| `Branding.FileSystem.ExistsSync` | scripts/process-branding.js:38 | True exactly for paths that exist. |
| `Branding.FileSystem.ReadFileSync` | scripts/process-branding.js:13 | Returns the content of an existing, readable file. Otherwise it fails with a read error. |
| `Branding.FileSystem.WriteFileSync` | scripts/process-branding.js:19 | Overwrites the file unless its write throws. A failed write leaves the file as it was. |
| `Branding.ProcessFile` | scripts/process-branding.js:11-24 | The outcome and the new state equal `ProcessFileOutcome` and `ProcessFileEffect` of the old state. |
| `Branding.ProcessFileOutcome` | scripts/process-branding.js:11-24 | The outcome names the path and is never "not found". It is processed if and only if the file exists, its read does not throw and its write does not throw. It is a read error if and only if the file is missing or its read throws. A write error implies that the read succeeded. |
| `Branding.ProcessFileEffect` | scripts/process-branding.js:11-24 | No file is created or deleted, and the failure sets are kept. Every other file is unchanged. The file itself holds the substituted content exactly when the outcome is processed, and keeps its content otherwise. |
| `Branding.VisitOutcome` | scripts/process-branding.js:37-42 | The outcome names the path. It is "not found" if and only if the file does not exist. |
| `Branding.Visit` | scripts/process-branding.js:37-42 | A missing file leaves the whole state as it was. An existing one goes through `processFile`, giving `ProcessFileEffect`. No file is created or deleted, the failure sets are kept, and every other file is unchanged. |
| `Branding.VisitFile` | scripts/process-branding.js:37-42 | The outcome and the new state equal `VisitOutcome` and `Visit` of the old state. |
| `Branding.ProcessAll` | scripts/process-branding.js:36-43 | The loop leaves the file system equal to `Run` and returns `Report`, both of the initial state. |
| `Branding.ProcessBranding` | scripts/process-branding.js:27-43 | The script processes exactly the two manifest paths, in list order, with the names resolved from the environment. |
| `Branding.Run` | scripts/process-branding.js:36-43 | Processing never creates or deletes a file and never changes which paths fail. |
| `Branding.Report` | scripts/process-branding.js:36-43 | The report has one outcome per visited path. |
| `Branding.RunFrame` | scripts/process-branding.js:36-43 | A file that is not in the list is left as it was. |
| `Branding.ReportFollowsList` | scripts/process-branding.js:36-43 | The i-th report entry is about the i-th path, so paths are reported in list order. |
| `Branding.ReportIsolatesFiles` | scripts/process-branding.js:11-43 | With distinct paths, each outcome is computed from that file's initial state alone. A missing or failing file does not affect the others. |
| `Branding.RunIsolatesFiles` | scripts/process-branding.js:11-43 | With distinct paths, each listed file ends substituted if it could be read and written. Otherwise it keeps its content, whatever happened to the other files. |
| `Branding.RunUnchangedWhenClean` | scripts/process-branding.js:16-19 | A run over files without placeholders changes nothing. |
| `Branding.SecondRunIsNoOp` | scripts/process-branding.js:16-19 | If the first run leaves no placeholder in the listed files, a second run leaves the file system as it is. |
| `Branding.WriteFailureDoesNotStopBatch` | scripts/process-branding.js:19-23 | When the first manifest's write throws, it is reported as failed and keeps its content, and the second manifest is still processed. |
| `Branding.ScriptTouchesOnlyManifests` | scripts/process-branding.js:27-43 | The script changes at most its two manifests, each from its own initial content, and reports on both in order. |

## Left out

- `env()` (in `@documenso/lib/utils/env`) is not part of this model. It is a map lookup where absence means undefined, and it is assumed to pass `""` through.
- `Number()`'s string-to-number conversion is the parameter `toNumber`. Only `Number(undefined)` being NaN and the `|| 50` fallback are modelled. Negative zero is folded into zero, which is falsy like it.
- URL parsing (host parsing, section 3.5 of the WHATWG URL Standard) is the parameter `hostname`.
- `PASSKEY_TIMEOUT` lives in `constants/auth`, which is not part of this model. It is the parameter `passkeyTimeout`.
- `SUPPORT_EMAIL` and `API_V2_BETA_URL` are constants with no logic.
- `APP_DOCUMENT_UPLOAD_SIZE_LIMIT` and `NEXT_PRIVATE_INTERNAL_WEBAPP_URL` are evaluated once at module load in the source. Here they are functions of the environment at that moment; the process lifecycle is not modelled.
- `String.prototype.replace` replacement patterns (`$&`, `$$`, …) are not modelled. Replacement is literal, which matches the source only for names that contain no `$`.
- The per-file console lines are represented by the `FileOutcome` report, and the error message (`error.message`) is reduced to which call threw. The banner lines (scripts/process-branding.js lines 32-34 and 45) are not modelled.
- Path construction with `path.join(process.cwd(), …)` is not modelled. Paths are the list's relative entries.
- UTF-8 decoding is not modelled: file contents are `seq<char>`.
- A write that throws after partly truncating a file is not modelled: a failed write leaves the file unchanged.
- The script's exit status and any failure outside the per-file `try` are not modelled.
- `Branding.RunIsolatesFiles`, `Branding.ReportIsolatesFiles`: stated for lists without repeated paths. The script's own list has two distinct paths, and a repeated path would be processed twice.
- `apps/remix/app/components/general/branding-logo.tsx` is UI code that chooses an image on a colour-scheme event. It is not part of this model.
