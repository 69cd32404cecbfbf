# Project Forge core logic in Dafny

A model of the decision and validation logic of Project Forge, a Next.js and Supabase starter. The logic sits in
seven files: the schema-management rules (`src/lib/migrations.ts`), the Zod input schemas of the auth forms
(`src/lib/schemas/auth.ts`), the environment schema and active-schema selection (`src/lib/env.ts`), the two
schema CLI scripts (`scripts/schema-create.ts`, `scripts/schema-drop.ts`), the TanStack Query retry policy and
client singleton (`src/components/providers/query-provider.tsx`), and the API result helpers (`src/lib/api.ts`).

Modules:

- `Wrappers`: the `Option` and `Result` datatypes.
- `Text`: JavaScript's `trim()` and `\s` (the WhiteSpace and LineTerminator set), ASCII `toLowerCase()`,
  and `length` in UTF-16 code units.
- `StringSort`: `Array.prototype.sort()` on strings and `[...new Set(xs)]`.
- `ZodIssues`: Zod's string checks as lists of issues, and `flatten().fieldErrors`.
- `AuthSchemas`: every form schema as an accepting predicate plus the issues it reports, with
  `safeParseSchema` and `validateField`.
- `Env`: the server and client environment schemas, `getCurrentSchema`, and `getCurrentSchemaClient`.
- `Migrations`: the Supabase probes are an oracle value `Backend` (what a probe of a relation returns, and what
  the `pg_tables` query returns). The check chains, `schemaExists` and the list functions are methods over it.
  Whether the admin client can be made is `AdminClientAvailable`: the service-role key is set and non-empty,
  because `createAdminClient` throws otherwise (`src/lib/server.ts:119-124`).
- `CliArgs`, `SchemaCreate`, `SchemaDrop`: the scripts' argument handling and their step-by-step gate chains.
  `process.exit` is the returned exit code, what is printed is summarised by a returned outcome, and the reply
  typed at the confirmation prompt is a parameter.
- `QueryProvider`: the retry callbacks, the default options, and `getQueryClient` over a class holding the
  module-level `browserQueryClient`. Whether the code runs on the server is a parameter.
- `Api`: `handleError`, `success`, `error`, and `ERROR_MESSAGES`. `serverApi.handleError`, `serverApi.success`
  and `serverApi.error` are the same function objects as `api`'s (`src/lib/api.ts:72-82`). They are therefore
  defined once, and everything proved about `Api.HandleError`, `Api.Success` and `Api.Error` holds for both.

Zod's `.email()` and `.url()` are not visible code. They are the oracle predicates `FormatChecks.isEmail` and
`isUrl`.

The password pattern `^(?=.*[a-z])(?=.*[A-Z])(?=.*\d)` is modelled as written. `.` does not match a line
terminator, so each lookahead only looks before the first line break. `AuthSchemas.StrongPasswordOneLine` shows
that on one line it means "contains a lowercase letter, an uppercase letter and a digit".
`AuthSchemas.LineBreakHidesDigit` shows a password with its digit after a newline that is refused.

## Model

| member | source | states |
|---|---|---|
| Migrations.IsProtectedSchema | src/lib/migrations.ts:12 | true exactly for "public", "auth" and "storage" |
| Migrations.ProtectedIsCaseSensitive | src/lib/migrations.ts:294-296 | the comparison is exact: "Public", "PUBLIC" and " auth" are not protected |
| Migrations.Fail | src/lib/migrations.ts:299-301 | success is false, the message is kept, and an error field is present iff a non-empty error string was passed |
| Migrations.SchemaExists | src/lib/migrations.ts:113-141 | true iff probing `users`, then `profiles`, gives no error or PGRST116; probing stops at the first hit and covers both relations when there is none; without an admin client the answer is false |
| Migrations.CreateSchema | src/lib/migrations.ts:24-70 | succeeds with the "already exists" result iff the schema exists; otherwise fails with 'Manual schema creation required' |
| Migrations.DropSchema | src/lib/migrations.ts:75-108 | a protected name fails with 'Protected schema' before any probe; otherwise succeeds iff the schema does not exist, else fails with 'Manual schema deletion required' |
| Migrations.CreateCustomSchema | src/lib/migrations.ts:264-275 | never succeeds; checks the empty name, then the protected name, then existence, and otherwise defers to createSchema |
| Migrations.DropCustomSchema | src/lib/migrations.ts:279-290 | never succeeds; checks the empty name, then the protected name, then non-existence, and otherwise defers to dropSchema |
| Migrations.InitializeCurrentSchema | src/lib/migrations.ts:229-249 | succeeds iff the configured schema is protected or exists; otherwise the createSchema failure |
| Migrations.ListCustomSchemas | src/lib/migrations.ts:146-175 | strictly sorted (so duplicate-free), and contains a name iff it is one of the candidates (configured schema trimmed and lowercased, portfolio, main, development, staging, production), is not protected, and the oracle says it exists |
| Migrations.TablesFound | src/lib/migrations.ts:199-217 | exactly the probed tables whose probe returns no error at all (PGRST116 does not count) |
| Migrations.TablesFoundAppend | src/lib/migrations.ts:202-213 | the list keeps probe order: the tables found in a + b are those found in a followed by those found in b |
| Migrations.TablesFoundSingle | src/lib/migrations.ts:211-213 | one probed table is kept iff its probe returns no error |
| Migrations.FallbackOrder | src/lib/migrations.ts:199-219 | the fallback list is users, profiles, posts, comments, settings in that order, each present iff its probe returns no error |
| Migrations.ListTablesInSchema | src/lib/migrations.ts:180-224 | the pg_tables rows when that query succeeds; otherwise the fallback probe list; [users, profiles] when no admin client can be made |
| StringSort.SortedUnique | src/lib/migrations.ts:170 | `[...new Set(xs)].sort()` is strictly sorted and has the same members as `xs` |
| StringSort.Sort | src/lib/migrations.ts:170 | sorted and a permutation of the input |
| StringSort.Dedup | src/lib/migrations.ts:170 | no duplicates, same members |
| StringSort.LexLeTransitive | src/lib/migrations.ts:170 | the string order used for sorting is transitive |
| StringSort.LexLeAntisymmetric | src/lib/migrations.ts:170 | the string order is antisymmetric |
| StringSort.LexLeTotal | src/lib/migrations.ts:170 | the string order is total |
| StringSort.LexLeRefl | src/lib/migrations.ts:170 | the string order is reflexive, so with transitivity, antisymmetry and totality it is a total order |
| StringSort.SortDistinct | src/lib/migrations.ts:170 | sorting a duplicate-free list gives a strictly sorted one |
| Text.Trim | scripts/schema-create.ts:52 | the result neither starts nor ends with whitespace, is the slice after the leading whitespace, and only whitespace follows it |
| Text.TrimIdempotent | scripts/schema-create.ts:52 | trimming twice is trimming once |
| Text.TrimSurrounded | scripts/schema-drop.ts:51 | trimming removes exactly the whitespace framing a text |
| Text.TrimAllWhitespace | scripts/schema-drop.ts:51 | a blank string trims to "" |
| Text.ToLowerAscii | scripts/schema-create.ts:52 | same length, each character lowercased |
| Text.JsLength | src/lib/schemas/auth.ts:14-31 | the UTF-16 length lies between the character count and twice it, and equals the count iff no character is outside the BMP |
| ZodIssues.MinLength | src/lib/schemas/auth.ts:20 | no issue iff the string has at least n code units |
| ZodIssues.MaxLength | src/lib/schemas/auth.ts:21 | no issue iff the string has at most n code units |
| ZodIssues.ExactLength | src/lib/schemas/auth.ts:114 | no issue iff the string has exactly n code units |
| ZodIssues.FieldErrorsSpec | src/lib/schemas/auth.ts:157 | `flatten().fieldErrors` has a key for exactly the fields with an issue, each mapped to that field's messages in order, never empty |
| AuthSchemas.EmailIssues | src/lib/schemas/auth.ts:12-16 | no issue iff non-empty, a valid address and at most 255 code units; every issue is on the field |
| AuthSchemas.PasswordIssues | src/lib/schemas/auth.ts:18-25 | no issue iff 8 to 128 code units and the lookahead pattern matches |
| AuthSchemas.StrongPasswordContents | src/lib/schemas/auth.ts:18-25 | an accepted password has 8 to 128 code units and contains a–z, A–Z and 0–9 characters |
| AuthSchemas.StrongPasswordOneLine | src/lib/schemas/auth.ts:22-23 | on one line the rule is exactly: length 8 to 128 and each of the three classes occurs |
| AuthSchemas.LookaheadOneLine | src/lib/schemas/auth.ts:23 | on one line a lookahead `(?=.*[…])` succeeds iff its class occurs |
| AuthSchemas.LookaheadFound | src/lib/schemas/auth.ts:23 | a successful lookahead has found a character of its class |
| AuthSchemas.LineBreakHidesDigit | src/lib/schemas/auth.ts:23 | "Abcdefg\n1" is refused although it contains all three classes |
| AuthSchemas.NameIssues | src/lib/schemas/auth.ts:27-31 | no issue iff 2 to 50 code units, non-empty and every character a Hangul syllable, an ASCII letter or whitespace |
| AuthSchemas.RequiredIssues | src/lib/schemas/auth.ts:36 | `min(1)`: the empty string is the only one refused |
| AuthSchemas.TotpIssues | src/lib/schemas/auth.ts:114 | no issue iff exactly six characters, all ASCII digits |
| AuthSchemas.Verify2FAIssues | src/lib/schemas/auth.ts:120-122 | accepted iff the code is six ASCII digits |
| AuthSchemas.SignInIssues | src/lib/schemas/auth.ts:34-38 | accepted iff a valid email and a non-empty password |
| AuthSchemas.SignUpIssues | src/lib/schemas/auth.ts:43-55 | accepted iff every field rule holds, terms are accepted and the passwords agree; unaccepted terms give the terms issue; a mismatch is the last issue, at confirmPassword |
| AuthSchemas.SignUpCredentialsSignIn | src/lib/schemas/auth.ts:34-55 | an accepted sign-up's email and password pass sign-in |
| AuthSchemas.ResetPasswordRequestIssues | src/lib/schemas/auth.ts:60-62 | accepted iff the email is valid |
| AuthSchemas.ResetPasswordIssues | src/lib/schemas/auth.ts:67-73 | accepted iff a strong password that equals its confirmation; a mismatch is the last issue, at confirmPassword |
| AuthSchemas.UrlOrEmptyIssues | src/lib/schemas/auth.ts:80 | no issue iff absent, empty or a URL |
| AuthSchemas.UpdateProfileIssues | src/lib/schemas/auth.ts:78-84 | accepted iff each present field passes its rule |
| AuthSchemas.ProfileLengthBounds | src/lib/schemas/auth.ts:81-83 | an accepted profile has a bio of at most 500 and a location of at most 100 characters |
| AuthSchemas.ChangePasswordIssues | src/lib/schemas/auth.ts:89-99 | accepted iff current is non-empty, new is strong, new equals its confirmation and new differs from current; the mismatch issue is reported, and "must differ" is the last issue |
| AuthSchemas.ChangeEmailIssues | src/lib/schemas/auth.ts:104-107 | accepted iff a valid new email and a non-empty password |
| AuthSchemas.Setup2FAIssues | src/lib/schemas/auth.ts:112-115 | accepted iff a non-empty password and a six-digit code |
| AuthSchemas.UnlinkProviderIssues | src/lib/schemas/auth.ts:127-132 | accepted iff the provider is google, github, discord or apple and the password is non-empty |
| AuthSchemas.DeleteAccountIssues | src/lib/schemas/auth.ts:137-143 | accepted iff a non-empty password and a confirmation of exactly "DELETE"; otherwise the confirmation issue comes last |
| AuthSchemas.SafeParseSchema | src/lib/schemas/auth.ts:152-159 | success iff the schema reports no issue; then data is set and errors null, otherwise data null and errors the flattened field errors |
| AuthSchemas.SafeParseErrorsNonEmpty | src/lib/schemas/auth.ts:157 | on failure every field listed in errors has at least one message from the schema |
| AuthSchemas.ValidateField | src/lib/schemas/auth.ts:168-178 | success iff no issue, with a null error; otherwise the first issue's message, or "Validation failed" when that message is empty |
| Env.ParseNodeEnv | src/lib/env.ts:13 | absent means development; a given value parses iff it is development, production or test |
| Env.NonEmptyWithDefault | src/lib/env.ts:18-21 | a parsed value is never empty; a given value is kept iff non-empty; an absent value takes the default iff that default is non-empty |
| Env.UrlWithDefault | src/lib/env.ts:14-17 | a parsed value is a URL; a given value is kept iff a URL; an absent value takes the default iff that default is a URL |
| Env.ParseServerEnv | src/lib/env.ts:11-50 | the parse succeeds exactly when NODE_ENV is unset or one of development, production and test, the app URL (or its default) is a URL, the Supabase URL is set and a URL, the anon key is set and non-empty, and the schema and service-role key are either unset or non-empty; a failed parse names at least one variable; a missing or non-URL Supabase URL and a missing or empty anon key are named; a parsed record is valid and its two URLs pass the URL check |
| Env.ParseServerEnvOk | src/lib/env.ts:11-50 | a parsed environment has URLs that pass the check, the app URL as given or http://localhost:3000, the Supabase URL and anon key as given, a non-empty schema that is as given or public, NODE_ENV as given or development, and a service key that is absent or non-empty |
| Env.ParseServerEnvRejects | src/lib/env.ts:11-50 | an unknown NODE_ENV, an empty schema or an empty service key makes the parse fail |
| Env.OrElse | src/lib/env.ts:90 | the JavaScript or of an override and a base: the override when defined and non-empty, otherwise the base |
| Env.GetCurrentSchema | src/lib/env.ts:85-99 | development and test: the DEV override if non-empty, else the base; production: the PROD override if non-empty, else the base |
| Env.StagingIgnored | src/lib/env.ts:24-26 | changing the STAGING override never changes the active schema |
| Env.CurrentSchemaNonEmpty | src/lib/env.ts:21 | the active schema of a parsed environment is never empty |
| Env.ParseClientEnv | src/lib/env.ts:53-60 | the client parse succeeds exactly when the app URL and Supabase URL are set and pass the URL check and the anon key and schema are set and non-empty; an unset or empty schema is named in the failure; on success all four values are exactly as set |
| Env.GetCurrentSchemaClient | src/lib/env.ts:104-106 | the schema of the successfully parsed client record: exactly the variable as set, never empty |
| Env.ClientIgnoresOverrides | src/lib/env.ts:104-106 | changing NODE_ENV or the DEV, STAGING or PROD overrides never changes the client schema |
| CliArgs.FirstPositional | scripts/schema-create.ts:24 | none iff every argument starts with "--"; otherwise the first argument that does not |
| CliArgs.EmptyArgumentMissing | scripts/schema-drop.ts:59 | an empty first argument is found but counts as a missing name, as `!schema` is true for "" |
| CliArgs.NormaliseName | scripts/schema-create.ts:52 | no whitespace at either end and no uppercase ASCII letter |
| CliArgs.NormaliseIdempotent | scripts/schema-drop.ts:66-77 | normalising twice is normalising once |
| SchemaCreate.Run | scripts/schema-create.ts:42-147 | help only with --help; exit 1 with the missing-name outcome when there is no name or it is empty, on a name failing `^[a-z][a-z0-9_]*$` after trimming and lowercasing, or on an existing schema; otherwise the guide and exit 0 |
| SchemaCreate.ValidNameIsNormal | scripts/schema-create.ts:55 | a name the pattern accepts is unchanged by normalisation |
| SchemaCreate.MixedCaseAccepted | scripts/schema-create.ts:52-57 | "Client_Samsung" is accepted once lowercased |
| SchemaCreate.LeadingDigitRejected | scripts/schema-create.ts:55-58 | a name starting with a digit ("123abc") is refused |
| SchemaCreate.HyphenRejected | scripts/schema-create.ts:55-58 | "My-Project" is refused |
| SchemaDrop.Confirmed | scripts/schema-drop.ts:46-54 | the reply confirms iff, trimmed and lowercased, it is "y" or "yes" |
| SchemaDrop.BlankCancels | scripts/schema-drop.ts:51 | an empty or blank reply cancels |
| SchemaDrop.SurroundedYesConfirms | scripts/schema-drop.ts:51 | y or yes in any case, surrounded by any whitespace, confirms |
| SchemaDrop.DropStatements | scripts/schema-drop.ts:140-150 | one DROP TABLE per listed table in list order, then the DROP SCHEMA, which no DROP TABLE line equals |
| SchemaDrop.Guide | scripts/schema-drop.ts:90-150 | a missing schema gives NotFound with no prompt; an existing one is prompted for, shows the listed tables, and prints the DROP statements iff the reply confirms |
| SchemaDrop.Run | scripts/schema-drop.ts:56-150 | help only with --help; exit 1 with the missing-name outcome when there is no name or it is empty; exit 1 on a system schema, then on the configured schema (both normalised); a missing schema exits 0 without prompting; otherwise the listed tables are shown, the reply is read, and y/yes gives the DROP statements while anything else cancels, both with exit 0 |
| QueryProvider.QueryRetry | src/components/providers/query-provider.tsx:23-33 | never after an error with a status in 400..499; for any other error, including non-objects and objects without status, iff fewer than three failures |
| QueryProvider.RetriesFrom | src/components/providers/query-provider.tsx:23-33 | the retries a query makes are all allowed by the callback, the next failure is not retried, and there are at most three |
| QueryProvider.AtMostThreeRetries | src/components/providers/query-provider.tsx:32 | a query is retried at most three times, whatever it throws |
| QueryProvider.ClientErrorNotRetried | src/components/providers/query-provider.tsx:27-29 | a 4xx on the first failure means no retry |
| QueryProvider.ThreeRetriesWithoutClientError | src/components/providers/query-provider.tsx:32 | with at least three failures and no 4xx among the first three, all three retries happen |
| QueryProvider.MutationRetry | src/components/providers/query-provider.tsx:41 | mutations retry after the first failure only |
| QueryProvider.MakeQueryClient | src/components/providers/query-provider.tsx:14-47 | a new client with the default options |
| QueryProvider.ProviderModule.constructor | src/components/providers/query-provider.tsx:49 | the stored client starts out undefined |
| QueryProvider.ProviderModule.GetQueryClient | src/components/providers/query-provider.tsx:51-60 | on the server a fresh client each call with nothing stored; in the browser the stored client, created and stored on the first call |
| QueryProvider.TwoBrowserCalls | src/components/providers/query-provider.tsx:57-58 | two browser calls return the same, stored client |
| QueryProvider.TwoServerCalls | src/components/providers/query-provider.tsx:52-54 | two server calls return different clients and store neither |
| QueryProvider.GetServerQueryClient | src/components/providers/query-provider.tsx:90-92 | always a fresh client with the default options |
| Api.HandleError | src/lib/api.ts:30-41 | an Error keeps its message, anything else gets the fixed fallback; the code is always UNKNOWN_ERROR and no status is set |
| Api.HandleErrorKeepsMessage | src/lib/api.ts:31-36 | two Errors normalise alike iff their messages agree |
| Api.Success | src/lib/api.ts:46-48 | data is the argument, error is null |
| Api.Error | src/lib/api.ts:53-55 | data is null, error is the argument |
| Api.EnvelopesDisjoint | src/lib/api.ts:46-55 | a success envelope never equals an error envelope, and each gives back what it was made from |
| Api.ErrorMessagesKeys | src/lib/api.ts:88-95 | the table has entries for exactly 400, 401, 403, 404, 429 and 500, none empty |
| Api.ErrorMessage | src/lib/api.ts:88-95 | a status has a message iff it is one of the six; 401 and 404 map to their texts |

## Left out

- The Supabase client wrappers (`src/lib/client.ts`, `src/lib/server.ts`, `src/lib/middleware.ts`) are forwarders over the SDK with cookie I/O. Only the service-role check of `createAdminClient` is modelled, as `Migrations.AdminClientAvailable`.
- The Supabase database is not modelled. Probe and `pg_tables` results are oracle inputs, and the names of the relations probed are the strings the source builds (`schema + "." + table`).
- Zod's `.email()` and `.url()` are oracle predicates, and the library's internal order of issues is assumed as in Zod 3: string checks accumulate, and object refinements run after the field checks.
- Inputs of the wrong JavaScript type: a number where a string is expected, a missing required field, or a `status` that is not a number. Every input is modelled as well-typed.
- The module-load parse of `process.env` (`src/lib/env.ts:66-79`) becomes `Env.ParseServerEnv` and `Env.ParseClientEnv` applied to an input record. The model treats the two parses as independent functions. In the source both run when the module loads, so whenever NEXT_PUBLIC_SUPABASE_SCHEMA or NEXT_PUBLIC_APP_URL is unset the client parse throws, and code importing the module never sees the server defaults "public" and "http://localhost:3000". The optional keys of external services (Resend, Uploadthing, Stripe, Sentry and so on) are unconstrained strings and are not modelled.
- `validateFormData` (`src/lib/schemas/auth.ts:162-165`) is `safeParseSchema` after `Object.fromEntries(formData)`. The `FormData` conversion is I/O and is not modelled.
- Thrown exceptions other than Zod errors in `validateField`: the model covers the ZodError path only, so its failure is always a Zod failure.
- The `catch` blocks of the migration functions: `schemaExists` never throws, and the admin client's constructor is the only other thrower (covered by `AdminClientAvailable`), so those branches are unreachable in the model.
- Text.ToLowerAscii: `toLowerCase()` is modelled only for ASCII letters; other characters with a lowercase form (such as the Kelvin sign or accented capitals) are kept as they are.
- StringSort.LexLe: `sort()` compares UTF-16 code units, while the model compares characters; the two orders differ only for characters outside the Basic Multilingual Plane.
- Console text and colours, the SQL walkthrough printed by the create script, the help texts and `readline` are not modelled. The drop script's reply is a parameter, and the outcome datatypes summarise what each script prints.
- The drop script's DROP statements are modelled; its surrounding guide text is not.
- `process.exit` is the returned exit code. Statements after an exit are not reached, which the gate chains reproduce by returning.
- `QueryProvider` (the React component) and the devtools are UI. TanStack's own retry loop is represented by `QueryProvider.RetriesFrom`, which assumes the callback is consulted with failure counts 0, 1, 2 and so on.
- `serverApi.client` and `api.client` create Supabase clients and are not modelled.
- The React components, pages and hooks, `scripts/schema-info.ts`, `scripts/schema-list.ts`, `scripts/schema-init.ts`, `next.config.ts` and the middleware matcher are UI, printing or framework configuration.
