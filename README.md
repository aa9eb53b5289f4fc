# flexprice core, modelled in Dafny

This project models nine source files of the flexprice billing platform and proves
properties of each. The modules follow the files one to one.

- **`Currency`** (`internal/types/currency.go`). ISO 4217 currency codes:
  - normalisation (trim, upper case);
  - case-insensitive comparison;
  - precision and symbol lookup through the ISO parser, the local `CURRENCY_CONFIG` table and the default precision 2;
  - the database encoding (`Scan`/`Value`) and the JSON encoding (`MarshalJSON`/`UnmarshalJSON`).

  `Scan` and `UnmarshalJSON` assign through a `*Currency`, modelled by the class `CurrencyVar`.
- **`EntWalletCreate`** (`ent/wallet_create.go`). The generated builder that inserts a wallet row. Its model is the class `WalletCreate`, which holds the mutation (one optional value per column). It covers:
  - the setters, including the nil-tolerant ones;
  - `defaults`;
  - the fixed-order `check` cascade;
  - `createSpec`;
  - `Save`/`sqlSave`.
- **`Feature`** (`internal/types/feature.go`). Feature-type validation, the nil-safe getters of `FeatureFilter`, and `FeatureFilter.Validate`. `Validate` installs the default query filter in place and returns the first error of its checks.
- **`McpOpenApi`, `McpConverter`, `McpCaller`** (`internal/mcp/`). These cover:
  - walking an OpenAPI 3 document, with path-prefix normalisation and parameter merging;
  - turning each operation into an MCP tool definition: the derived tool name, the description, the input schema, and the path and query parameter names;
  - planning the HTTP call: path templating, the URL, the query string, the body, and the error classification.
- **`Typst`, with `GoFilepath`** (`internal/typst/typst.go`). These cover:
  - the `With*` option builders and their application in order;
  - the exact `typst compile` argument vector;
  - the output and template paths. These need the lexical part of Go's `path/filepath` (`Clean`, `Join`, `Base`), modelled in `GoFilepath`.
- **`SwaggerEnhance`** (`scripts/swagger_enhance_openapi.py`). Path slugs, generated `operationId`s, and the merged top-level tag list. It also proves that a second run changes nothing.
- **`SwaggerDescriptions`** (`scripts/swagger_ensure_descriptions.py`). Inserting a derived `// @Description` line into every `// @Summary` comment block that lacks one. The model proves three things:
  - every original line is kept, in order;
  - the count returned is the number of lines inserted;
  - a second run inserts nothing.

Shared modules:
- `Wrappers`: `Option` and `Result`.
- `Text`: Go and Python whitespace, ASCII case mapping, trimming and joining.
- `Json`: JSON values, with objects as maps.

The two post-processing scripts are the only Python code modelled. The rest is Go.

Code that changes state in the source is modelled imperatively:
- the builder and the `*Currency` targets are classes;
- `FeatureFilter.Validate` assigns the field in place;
- the source's loops are `while` loops with invariants. These are the parameter loops, `EachOperation`, the font-directory loop and the option loop, the `process_file` scan and the tag appending.

Each such method is proved equal to a reference function. The properties are stated about that function.

`ent/wallet_create.go` only builds and inserts wallet rows; no balance arithmetic is modelled.

## Model

| member | source | states |
|---|---|---|
| Currency.GetCurrencyConfig | internal/types/currency.go:79-84 | the `CURRENCY_CONFIG` entry of the lower-cased code; otherwise precision 2 with an empty symbol |
| Currency.GetCurrencyConfigIgnoresCase | internal/types/currency.go:79-84 | codes that match case-insensitively get the same configuration |
| Currency.TablePrecisions | internal/types/currency.go:18-54 | every table entry has precision 0 for jpy, vnd, krw and clp and 2 for all others |
| Currency.String | internal/types/currency.go:91-93 | the untrimmed code, upper-cased: same length, no lower-case ASCII letter, equal to the code ignoring case |
| Currency.Validate | internal/types/currency.go:96-116 | valid iff the trimmed code is non-blank and the ISO parser accepts its upper case; a blank code is the "empty" error, anything else the "invalid code" error carrying the trimmed code |
| Currency.Precision | internal/types/currency.go:125-143 | 2 for a blank code; the ISO minor-unit digits when the parser accepts the normalised code; otherwise the table precision of that code, else 2 |
| Currency.PrecisionFallback | internal/types/currency.go:125-143 | for a code the ISO parser rejects, precision is 0 for the table's zero-decimal currencies and 2 for every other code |
| Currency.Symbol | internal/types/currency.go:147-153 | the table symbol when the trimmed code matches a table key case-insensitively; otherwise the upper case of the raw, untrimmed code |
| Currency.Normalize | internal/types/currency.go:156-162 | the trimmed, upper-cased code; "" exactly when the code is all whitespace; the result is trimmed and has no lower-case ASCII letter |
| Currency.NormalizeIdempotent | internal/types/currency.go:156-162 | normalising twice is normalising once |
| Currency.NormalizeFixpoint | internal/types/currency.go:156-162 | a trimmed code without lower-case letters is its own normal form |
| Currency.EqualIsCaseInsensitiveEquivalence | internal/types/currency.go:165-167 | `Equal` agrees with `IsMatchingCurrency` and with equality of upper cases, and is reflexive, symmetric and transitive |
| Currency.EqualCodesNormalizeAlike | internal/types/currency.go:165-167 | codes that are `Equal` have the same normal form |
| Currency.NewCurrency | internal/types/currency.go:170-190 | the "empty" error for a blank code and the "invalid code" error (with the trimmed code) for one the ISO parser rejects; succeeds exactly on the others and returns the normal form |
| Currency.NewCurrencyAgreesWithValidate | internal/types/currency.go:170-190 | `NewCurrency` succeeds exactly when `IsValid` holds; its result is a normal form that `Validate` accepts and that equals the trimmed input ignoring case |
| Currency.Value | internal/types/currency.go:247-253 | the database value is the normalised code, "" for a blank one |
| Currency.MarshalJSON | internal/types/currency.go:257-263 | the JSON string emitted is the normalised code, "" for a blank one |
| Currency.Scanned | internal/types/currency.go:208-244 | nil gives ""; a string or byte slice gives its normal form even when the ISO parser rejects it; any other value is the "invalid type" error and the only error |
| Currency.CurrencyVar.Scan | internal/types/currency.go:208-244 | on success the target holds `Scanned`'s value; on error the target is unchanged and the error is returned |
| Currency.Unmarshalled | internal/types/currency.go:267-295 | a non-string is an error; null and blank strings give ""; otherwise the normal form when the ISO parser accepts it, else the "invalid code" error carrying the raw string |
| Currency.CurrencyVar.UnmarshalJSON | internal/types/currency.go:267-295 | on success the target holds `Unmarshalled`'s value; on error the target is unchanged |
| Currency.ValueScanRoundTrip | internal/types/currency.go:208-253 | what `Value` writes, `Scan` reads back as the same normal form (as a string or as bytes) |
| Currency.MarshalUnmarshalRoundTrip | internal/types/currency.go:257-295 | `UnmarshalJSON` reads back what `MarshalJSON` wrote for a valid or blank code and rejects it for any other code |
| Currency.ScanIsLenientUnmarshal | internal/types/currency.go:226-240 | on the same string `Scan` and `UnmarshalJSON` store the same code, except that only `UnmarshalJSON` fails, exactly on non-blank codes the ISO parser rejects |
| EntWalletCreate.WalletCreate.SetTenantID | ent/wallet_create.go:26-29 | the mutation's `tenantId` becomes the given value; nothing else changes |
| EntWalletCreate.WalletCreate.SetStatus | ent/wallet_create.go:32-35 | the mutation's `status` becomes the given value; nothing else changes |
| EntWalletCreate.WalletCreate.SetNillableStatus | ent/wallet_create.go:38-43 | nil leaves the mutation unchanged; a value acts exactly as `SetStatus` |
| EntWalletCreate.WalletCreate.SetCreatedAt | ent/wallet_create.go:46-49 | the mutation's `createdAt` becomes the given value; nothing else changes |
| EntWalletCreate.WalletCreate.SetNillableCreatedAt | ent/wallet_create.go:52-57 | nil leaves the mutation unchanged; a value acts exactly as `SetCreatedAt` |
| EntWalletCreate.WalletCreate.SetUpdatedAt | ent/wallet_create.go:60-63 | the mutation's `updatedAt` becomes the given value; nothing else changes |
| EntWalletCreate.WalletCreate.SetNillableUpdatedAt | ent/wallet_create.go:66-71 | nil leaves the mutation unchanged; a value acts exactly as `SetUpdatedAt` |
| EntWalletCreate.WalletCreate.SetCreatedBy | ent/wallet_create.go:74-77 | the mutation's `createdBy` becomes the given value; nothing else changes |
| EntWalletCreate.WalletCreate.SetNillableCreatedBy | ent/wallet_create.go:80-85 | nil leaves the mutation unchanged; a value acts exactly as `SetCreatedBy` |
| EntWalletCreate.WalletCreate.SetUpdatedBy | ent/wallet_create.go:88-91 | the mutation's `updatedBy` becomes the given value; nothing else changes |
| EntWalletCreate.WalletCreate.SetNillableUpdatedBy | ent/wallet_create.go:94-99 | nil leaves the mutation unchanged; a value acts exactly as `SetUpdatedBy` |
| EntWalletCreate.WalletCreate.SetEnvironmentID | ent/wallet_create.go:102-105 | the mutation's `environmentId` becomes the given value; nothing else changes |
| EntWalletCreate.WalletCreate.SetNillableEnvironmentID | ent/wallet_create.go:108-113 | nil leaves the mutation unchanged; a value acts exactly as `SetEnvironmentID` |
| EntWalletCreate.WalletCreate.SetName | ent/wallet_create.go:116-119 | the mutation's `name` becomes the given value; nothing else changes |
| EntWalletCreate.WalletCreate.SetNillableName | ent/wallet_create.go:122-127 | nil leaves the mutation unchanged; a value acts exactly as `SetName` |
| EntWalletCreate.WalletCreate.SetCustomerID | ent/wallet_create.go:130-133 | the mutation's `customerId` becomes the given value; nothing else changes |
| EntWalletCreate.WalletCreate.SetCurrency | ent/wallet_create.go:136-139 | the mutation's `currency` becomes the given value; nothing else changes |
| EntWalletCreate.WalletCreate.SetDescription | ent/wallet_create.go:142-145 | the mutation's `description` becomes the given value; nothing else changes |
| EntWalletCreate.WalletCreate.SetNillableDescription | ent/wallet_create.go:148-153 | nil leaves the mutation unchanged; a value acts exactly as `SetDescription` |
| EntWalletCreate.WalletCreate.SetMetadata | ent/wallet_create.go:156-159 | the mutation's `metadata` becomes the given value; nothing else changes |
| EntWalletCreate.WalletCreate.SetBalance | ent/wallet_create.go:162-165 | the mutation's `balance` becomes the given value; nothing else changes |
| EntWalletCreate.WalletCreate.SetNillableBalance | ent/wallet_create.go:168-173 | nil leaves the mutation unchanged; a value acts exactly as `SetBalance` |
| EntWalletCreate.WalletCreate.SetCreditBalance | ent/wallet_create.go:176-179 | the mutation's `creditBalance` becomes the given value; nothing else changes |
| EntWalletCreate.WalletCreate.SetWalletStatus | ent/wallet_create.go:182-185 | the mutation's `walletStatus` becomes the given value; nothing else changes |
| EntWalletCreate.WalletCreate.SetNillableWalletStatus | ent/wallet_create.go:188-193 | nil leaves the mutation unchanged; a value acts exactly as `SetWalletStatus` |
| EntWalletCreate.WalletCreate.SetAutoTopupTrigger | ent/wallet_create.go:196-199 | the mutation's `autoTopupTrigger` becomes the given value; nothing else changes |
| EntWalletCreate.WalletCreate.SetNillableAutoTopupTrigger | ent/wallet_create.go:202-207 | nil leaves the mutation unchanged; a value acts exactly as `SetAutoTopupTrigger` |
| EntWalletCreate.WalletCreate.SetAutoTopupMinBalance | ent/wallet_create.go:210-213 | the mutation's `autoTopupMinBalance` becomes the given value; nothing else changes |
| EntWalletCreate.WalletCreate.SetNillableAutoTopupMinBalance | ent/wallet_create.go:216-221 | nil leaves the mutation unchanged; a value acts exactly as `SetAutoTopupMinBalance` |
| EntWalletCreate.WalletCreate.SetAutoTopupAmount | ent/wallet_create.go:224-227 | the mutation's `autoTopupAmount` becomes the given value; nothing else changes |
| EntWalletCreate.WalletCreate.SetNillableAutoTopupAmount | ent/wallet_create.go:230-235 | nil leaves the mutation unchanged; a value acts exactly as `SetAutoTopupAmount` |
| EntWalletCreate.WalletCreate.SetWalletType | ent/wallet_create.go:238-241 | the mutation's `walletType` becomes the given value; nothing else changes |
| EntWalletCreate.WalletCreate.SetNillableWalletType | ent/wallet_create.go:244-249 | nil leaves the mutation unchanged; a value acts exactly as `SetWalletType` |
| EntWalletCreate.WalletCreate.SetConversionRate | ent/wallet_create.go:252-255 | the mutation's `conversionRate` becomes the given value; nothing else changes |
| EntWalletCreate.WalletCreate.SetConfig | ent/wallet_create.go:258-261 | the mutation's `config` becomes the given value; nothing else changes |
| EntWalletCreate.WalletCreate.SetNillableConfig | ent/wallet_create.go:264-269 | nil leaves the mutation unchanged; a value acts exactly as `SetConfig` |
| EntWalletCreate.WalletCreate.SetID | ent/wallet_create.go:272-275 | the mutation's id becomes the given value; nothing else changes |
| EntWalletCreate.WalletCreate.Defaults | ent/wallet_create.go:311-344 | the new mutation is the old one with each unset defaulted column filled (schema defaults, clock readings for the timestamps) |
| EntWalletCreate.DefaultsKeepSetColumns | ent/wallet_create.go:311-344 | `defaults` never overwrites a set column, leaves every other column, the id and the done flag alone, and afterwards every defaulted column is set |
| EntWalletCreate.DefaultsIdempotent | ent/wallet_create.go:311-344 | applying the defaults a second time changes nothing |
| EntWalletCreate.MissingRequiredColumnFailsCheck | ent/wallet_create.go:311-395 | if tenant_id, customer_id, currency, credit_balance or conversion_rate was never set, `check` fails after `defaults` |
| EntWalletCreate.DefaultedColumnsNeverMissing | ent/wallet_create.go:311-395 | after `defaults`, a "missing required field" from `check` can only name one of those five columns |
| EntWalletCreate.WalletCreate.Check | ent/wallet_create.go:347-401 | `check` reports the first failing column in the order tenant_id, status, created_at, updated_at, customer_id, currency, balance, credit_balance, wallet_status, wallet_type, conversion_rate, config; nil when none fails |
| EntWalletCreate.CheckIsFirstFailure | ent/wallet_create.go:347-401 | the generated if-cascade equals the first failure over that column order |
| EntWalletCreate.FirstFailureSpec | ent/wallet_create.go:347-401 | the first-failure report is nil exactly when no column fails, and otherwise names a failing column, with its reason, before which no column fails |
| EntWalletCreate.AbsentConfigIsNeverRejected | ent/wallet_create.go:396-400 | an absent config never makes `check` fail: the outcome is the one for an accepted config |
| EntWalletCreate.WalletCreate.AddColumn | ent/wallet_create.go:436-519 | one `createSpec` block: the column is handed to the spec exactly when it is set, with the mutation's value |
| EntWalletCreate.WalletCreate.BuildCreateSpec | ent/wallet_create.go:427-521 | `createSpec` yields the entity built from the mutation and a spec holding the id and the set columns, in column order |
| EntWalletCreate.SpecFieldsExactlySetColumns | ent/wallet_create.go:427-521 | every spec field carries a set column with the mutation's value, and every set column is in the spec; the auto-top-up fields among them appear only when set |
| EntWalletCreate.WalletCreate.Save | ent/wallet_create.go:283-286 | `Save` runs `defaults` and then `sqlSave`: result, written spec and new mutation are `SqlSaveOutcome` of the defaulted mutation |
| EntWalletCreate.SqlSaveSpec | ent/wallet_create.go:404-424 | no spec is handed to the driver when `check` fails, otherwise the id and set columns; on any error the mutation is unchanged |
| EntWalletCreate.SaveWritesOnlyCheckedMutations | ent/wallet_create.go:404-424 | a write happens iff `check` passes, and it carries exactly the set columns; a failed save leaves the mutation as it was |
| EntWalletCreate.SavedWalletReflectsMutation | ent/wallet_create.go:404-424 | a successful save carries every set column, keeps a chosen id, and marks the mutation done with the saved id |
| Feature.FeatureTypeString | internal/types/feature.go:16-18 | the underlying string, character for character |
| Feature.ValidateFeatureType | internal/types/feature.go:20-43 | valid iff the type is empty or one of metered, boolean, static; otherwise the validation error names the type and the three allowed ones |
| Feature.FeatureExpandConfig | internal/types/feature.go:167-173 | only the meters field may be expanded, with no nested expansions |
| Feature.FeatureFilter.constructor | internal/types/feature.go:61-71 | a new filter holds only the given (default or no-limit) query filter |
| Feature.FeatureFilter.GetLimit | internal/types/feature.go:117-122 | the default filter's limit when the filter or its query filter is nil, otherwise the query filter's |
| Feature.FeatureFilter.GetOffset | internal/types/feature.go:124-129 | the same, for the offset |
| Feature.FeatureFilter.GetSort | internal/types/feature.go:131-136 | the same, for the sort field |
| Feature.FeatureFilter.GetStatus | internal/types/feature.go:138-143 | the same, for the status |
| Feature.FeatureFilter.GetOrder | internal/types/feature.go:145-150 | the same, for the order |
| Feature.FeatureFilter.GetExpand | internal/types/feature.go:152-158 | the same, for the expand |
| Feature.FeatureFilter.IsUnlimited | internal/types/feature.go:160-165 | the same, for the unlimited flag |
| Feature.FeatureFilter.Validate | internal/types/feature.go:73-115 | a nil filter is valid; otherwise a nil query filter is replaced in place by the default, no other field and no getter answer changes, and the result is the first error of the checks in order |
| Feature.FilterResults | internal/types/feature.go:98-104 | one result per filter entry, in order: that entry's own validation |
| Feature.SortResults | internal/types/feature.go:106-112 | one result per sort entry, in order: that entry's own validation |
| Feature.RunChecks | internal/types/feature.go:82-114 | the error returned is the first error of: query filter, time range if present, expand if non-empty, each filter entry, each sort entry |
| Feature.HeadError | internal/types/feature.go:82-96 | the first error of the query-filter, time-range and expand checks |
| Feature.FirstFilterError | internal/types/feature.go:98-104 | the loop over the filter entries returns the first entry's error, nil when all pass |
| Feature.FirstSortError | internal/types/feature.go:106-112 | the loop over the sort entries returns the first entry's error, nil when all pass |
| Feature.FirstErrorSpec | internal/types/feature.go:82-114 | the first error is nil exactly when every check passed, and otherwise the error of a failing check before which every check passed |
| Feature.FirstErrorAppend | internal/types/feature.go:82-114 | running two groups of checks in sequence reports the first group's error if any, else the second's |
| Feature.FirstErrorAt | internal/types/feature.go:82-114 | the first error is that of the first failing check |
| McpOpenApi.PathPrefix | internal/mcp/openapi.go:46-49 | an empty base path stays empty; a non-empty one starts with "/", which is prepended only when missing |
| McpOpenApi.MergedParameters | internal/mcp/openapi.go:59-65 | the path-level parameters followed by the operation-level ones (the path-level list alone when the operation has none) |
| McpOpenApi.VisitPathItem | internal/mcp/openapi.go:55-75 | one callback per non-nil operation of the item, none for nil ones, no method twice, each on the prefixed path |
| McpOpenApi.EachOperation | internal/mcp/openapi.go:42-77 | no callback for a nil document or nil paths; otherwise exactly one callback per non-nil operation of a non-nil path item, each with the path prefix + spec path (also the `Op`'s path), the method, the merged parameters and the operation's fields copied unchanged |
| McpOpenApi.SkipNilItem | internal/mcp/openapi.go:51-53 | a nil path item adds no callback and keeps the loop invariant |
| McpOpenApi.AppendVisited | internal/mcp/openapi.go:50-76 | the callbacks of one path item extend the loop invariant to that path |
| McpConverter.PlaceholderAt | internal/mcp/converter.go:28 | a placeholder match at the start is "{", a non-empty name without "}", and "}"; when none matches after a "{", no "}" can close a non-empty name |
| McpConverter.ReplaceWithoutBraces | internal/mcp/converter.go:28 | a string without "{" has no placeholder and is unchanged by the substitution |
| McpConverter.ReplaceVerbatim | internal/mcp/converter.go:28 | a replacement that writes each placeholder back verbatim changes nothing |
| McpConverter.ReplaceFirst | internal/mcp/converter.go:28 | the first placeholder is replaced and the scan resumes after it |
| McpConverter.ReplaceAtStart | internal/mcp/converter.go:28 | a leading placeholder is replaced and the scan resumes after it |
| McpConverter.SlugSplit | internal/mcp/converter.go:29 | the split on runs of non-alphanumerics yields at least one piece, every piece alphanumeric |
| McpConverter.SlugSplitKeepsAlnum | internal/mcp/converter.go:29 | the pieces put back together are exactly the letters and digits of the input: only separators are lost |
| McpConverter.SlugSplitStep | internal/mcp/converter.go:29 | a word followed by separators splits off as one piece |
| McpConverter.DeriveToolName | internal/mcp/converter.go:61-80 | `deriveToolName`: the lower-cased method, then "_" and the "_"-joined tokens when any remain |
| McpConverter.CollectTokens | internal/mcp/converter.go:68-75 | the loop keeps the trimmed non-empty parts, in order |
| McpConverter.DerivedNameShape | internal/mcp/converter.go:61-80 | a derived name is the lower-cased method alone or followed by "_"-separated tokens, each a non-empty run of ASCII letters and digits; together the tokens are the letters and digits of the rewritten path |
| McpConverter.DerivedNameOfNestedResource | internal/mcp/converter.go:61-80 | `/v1/a/{b}/c` with alphanumeric segments derives `method_a_b_c` |
| McpConverter.NestedRewrite | internal/mcp/converter.go:64-66 | stripping "/" and "v1/" and rewriting `{b}` to `_b` turns `/v1/a/{b}/c` into `a/_b/c` |
| McpConverter.TokensOfAlnumParts | internal/mcp/converter.go:68-75 | on alphanumeric parts the tokens are the non-empty parts, and nothing else is lost |
| McpConverter.ParamNamesByIn | internal/mcp/converter.go:82-96 | the "path" and the "query" names of the non-nil parameters, in source order |
| McpConverter.NamesInMembers | internal/mcp/converter.go:82-96 | a name is listed for a location iff a non-nil parameter at that location carries it |
| McpConverter.NamesInAppend | internal/mcp/converter.go:82-96 | the name lists keep source order: appending parameters appends their names |
| McpConverter.ParamSchema | internal/mcp/converter.go:139-155 | the parameter's converted schema, or `{"type": "string"}` when it has none usable; a non-empty description is set on top and is the only key added |
| McpConverter.CollectParameters | internal/mcp/converter.go:102-112 | the loop yields one property per non-nil parameter (a later one overwrites an earlier one of the same name) and the required names in order |
| McpConverter.PropertiesKeys | internal/mcp/converter.go:102-112 | the properties are keyed by exactly the names of the non-nil parameters |
| McpConverter.RequestBodySchema | internal/mcp/converter.go:114-127 | the JSON schema of the body's "application/json" media type, when there is one and it converts |
| McpConverter.BuildInputSchema | internal/mcp/converter.go:98-137 | `buildInputSchema` returns the reference input schema |
| McpConverter.InputSchemaShape | internal/mcp/converter.go:98-137 | an object schema whose properties are the non-nil parameters (and "body" for a convertible JSON body); "required" lists the required parameter names, then "body" for a required body whose schema converts, and is present exactly when that list is non-empty |
| McpConverter.JoinDescription | internal/mcp/converter.go:38-45 | summary + ". " + description when both are non-empty, otherwise whichever is non-empty |
| McpConverter.ToToolDef | internal/mcp/converter.go:33-59 | the name is the operationId when non-empty, else the derived name; the description is joined; the method is upper-cased; the path template is the path; the parameter names are split by location; a body is flagged iff the request body and its value are non-nil |
| McpCaller.InterpolateWithoutArgs | internal/mcp/caller.go:68-76 | when every argument is JSON null the template comes back unchanged |
| McpCaller.InterpolateFirst | internal/mcp/caller.go:68-76 | the first placeholder is replaced by its non-nil argument's string form, or kept verbatim, and the rest is interpolated likewise |
| McpCaller.QueryValuesSpec | internal/mcp/caller.go:23-29 | the query holds exactly the declared names whose arguments are present and non-nil, each with its argument's string form |
| McpCaller.CollectQuery | internal/mcp/caller.go:24-29 | the loop over the declared query names yields those values |
| McpCaller.BuildUrl | internal/mcp/caller.go:21-33 | the base URL less one trailing "/", the interpolated path, and "?" + the encoded query only when names are declared and the encoding is non-empty |
| McpCaller.BuildBody | internal/mcp/caller.go:35-43 | a body is marshalled only for a tool with a body, a POST, PUT or PATCH method and a non-nil "body" argument; a marshalling failure is an error |
| McpCaller.PlannedRequestShape | internal/mcp/caller.go:20-52 | planning fails exactly when a body is due and does not marshal; every planned request uses the tool's method, the JSON content type, the API key and the 30 s timeout, its URL starts with the base URL (less one trailing "/") and the interpolated path, and it carries a body only when the tool has one, the method is POST, PUT or PATCH and a non-null "body" argument is given |
| McpCaller.CallAPI | internal/mcp/caller.go:20-66 | errors are flagged with no body; otherwise the response body and status are returned and `isErr` holds iff the status is at least 400; each failure point reports its error |
| Typst.Apply | internal/typst/typst.go:52-74 | each `With*` builder replaces its own field of the options and leaves the other three as they were |
| Typst.LastOptionWins | internal/typst/typst.go:209-211 | after running a list of builders, each field holds the value of the last builder of its kind, or its starting value when there is none |
| Typst.ApplyAllAppend | internal/typst/typst.go:209-211 | running two lists of builders one after the other is running their concatenation |
| Typst.RunOptions | internal/typst/typst.go:209-211 | the loop over the builders yields the options they produce in order |
| Typst.DefaultCompiler | internal/typst/typst.go:88-96 | binary "typst", font directory "assets/fonts", template directory "assets/typst-templates", output directory the given temporary directory |
| Typst.FontArgs | internal/typst/typst.go:124-127 | twice as many arguments as directories: "--font-path" followed by each directory in order |
| Typst.AppendFontArgs | internal/typst/typst.go:124-127 | the loop appends exactly those arguments to the vector built so far |
| Typst.ArgvShape | internal/typst/typst.go:114-133 | the argument vector is "compile", "--root", "/", a "--font-path" pair per font directory (the compiler's first, when set, then the options'), the extra arguments, the input file and the output file, and nothing else |
| Typst.CompilerFontDirFirst | internal/typst/typst.go:115-119 | a compiler with a font directory passes it as the first font path |
| Typst.BuildArgs | internal/typst/typst.go:114-133 | the vector built step by step is that argument vector |
| Typst.Compile | internal/typst/typst.go:99-154 | when no output file is named and the temporary file cannot be created, the temporary-file error and no command; otherwise the command is run on that vector with the output path (the output directory joined with the named file, or with `typst-<millis>.pdf`), which is returned on success, and the compilation error on failure |
| Typst.CompileTemplate | internal/typst/typst.go:171-214 | a missing template (only a `Stat` not-exist answer) is reported with its path; a data file that cannot be created or written is reported; otherwise the options handed on to `CompileToBytes` are the template as input and `--input path=<output dir>/typst-<millis>.json`, then the caller's builders in order |
| Typst.TemplateDataInput | internal/typst/typst.go:202-211 | with no `WithExtraArgs` builder the data file reaches Typst as the `path` input; the last `WithExtraArgs` replaces that argument entirely |
| Typst.TemplatePathInsideDir | internal/typst/typst.go:176-177 | a template name with directories in front of a plain file name is looked up as that file name directly inside the cleaned template directory |
| Typst.TemplatePathDotDot | internal/typst/typst.go:176-177 | the template name ".." (alone or after directories) keeps its base name ".." and so resolves to the parent of the template directory |
| Typst.SafeTemplatePath | internal/typst/typst.go:176-177 | the lookup the traversal guard intends: a name is refused exactly when its base name is ".", ".." or "/", and otherwise lands as its base name directly inside the cleaned template directory |
| GoFilepath.Clean | internal/typst/typst.go:101 | the lexically cleaned path is never empty |
| GoFilepath.Base | internal/typst/typst.go:177 | the base name is never empty and is "/" or contains no "/" |
| GoFilepath.BaseOfPlainTail | internal/typst/typst.go:177 | the base name of a path ending in a plain name is that name |
| GoFilepath.ResolvedOfJoin | internal/typst/typst.go:177 | joining a name onto a directory adds that one element to the directory's cleaned elements ("" and "." add nothing, ".." removes one) |
| GoFilepath.JoinPlainName | internal/typst/typst.go:177 | joining a plain name onto a directory is the cleaned directory followed by "/" and the name ("." and "/" handled as Go does) |
| GoFilepath.JoinDotDot | internal/typst/typst.go:177 | joining ".." onto a directory drops the directory's last cleaned element |
| SwaggerEnhance.Sanitize | scripts/swagger_enhance_openapi.py:28-30 | the substitution leaves only ASCII letters, digits and "_", and keeps a non-empty string non-empty |
| SwaggerEnhance.SanitizeWord | scripts/swagger_enhance_openapi.py:28-30 | a string of letters, digits and "_" comes through unchanged |
| SwaggerEnhance.NonEmpty | scripts/swagger_enhance_openapi.py:23 | the kept parts are non-empty parts of the input |
| SwaggerEnhance.ConvertParts | scripts/swagger_enhance_openapi.py:24-30 | one converted part per path part, in order |
| SwaggerEnhance.ConvertPartChars | scripts/swagger_enhance_openapi.py:25-30 | a converted part holds only lower-case ASCII letters, digits and "_" |
| SwaggerEnhance.SlugChars | scripts/swagger_enhance_openapi.py:21-31 | a slug is never empty ("root" when no part survives) and holds only lower-case letters, digits and "_" |
| SwaggerEnhance.PlainPartSlug | scripts/swagger_enhance_openapi.py:29-30 | a plain part converts to its sanitized lower-cased self |
| SwaggerEnhance.PlaceholderSlug | scripts/swagger_enhance_openapi.py:26-28 | a `{key}` part converts to "by_" and the stripped, sanitized, lower-cased key |
| SwaggerEnhance.SlugOfNestedResource | scripts/swagger_enhance_openapi.py:21-31 | `/a/{b}/c` with lower-case word segments slugs to `a_by_b_c`, as in `/customers/{id}/wallets` to `customers_by_id_wallets` |
| SwaggerEnhance.SortedSpec | scripts/swagger_enhance_openapi.py:83 | `sorted` of a set lists each member exactly once, in strictly increasing code-point order |
| SwaggerEnhance.GeneratedIdShape | scripts/swagger_enhance_openapi.py:64-66 | a generated id is the lower-cased method, "_" and a non-empty slug of lower-case letters, digits and "_" |
| SwaggerEnhance.TagOf | scripts/swagger_enhance_openapi.py:70-72 | a list entry yields a tag exactly when it is a string that is not blank once stripped, and the tag is non-empty and already stripped |
| SwaggerEnhance.StrippedTagsStripped | scripts/swagger_enhance_openapi.py:68-72 | every discovered tag is non-empty and already stripped |
| SwaggerEnhance.EnhanceMember | scripts/swagger_enhance_openapi.py:58-72 | one path-item member: its processed value, whether it counts as an operation, whether it was given an id, and the tags it contributes |
| SwaggerEnhance.EnhancePathItem | scripts/swagger_enhance_openapi.py:58-72 | the loop over a path item's members processes every member, counts its operations and generated ids, and collects their tags |
| SwaggerEnhance.CollectTags | scripts/swagger_enhance_openapi.py:68-72 | the loop over an operation's tag list adds exactly its stripped non-blank string tags |
| SwaggerEnhance.EnhanceAllPaths | scripts/swagger_enhance_openapi.py:51-72 | the loop over `paths` yields the processed paths, the number of operations, the number of generated ids and the discovered tags |
| SwaggerEnhance.ExistingTagNames | scripts/swagger_enhance_openapi.py:74-79 | the stripped names of the existing entries that are objects with a string name |
| SwaggerEnhance.Missing | scripts/swagger_enhance_openapi.py:83-85 | the sorted tags that have no entry yet, and no others |
| SwaggerEnhance.AppendMissing | scripts/swagger_enhance_openapi.py:83-85 | the existing entries followed by a `{"name": tag}` entry for each missing discovered tag in sorted order |
| SwaggerEnhance.TagEntriesKeep | scripts/swagger_enhance_openapi.py:74-87 | the tag list written back starts with the existing entries unchanged and continues with one name entry per missing tag |
| SwaggerEnhance.MissingOfSorted | scripts/swagger_enhance_openapi.py:83-85 | the added tags are exactly the discovered ones without an entry, in strictly increasing order |
| SwaggerEnhance.TagEntriesNames | scripts/swagger_enhance_openapi.py:74-87 | afterwards the named tags are the existing names plus every discovered tag |
| SwaggerEnhance.ExitCode | scripts/swagger_enhance_openapi.py:34-99 | exit status 0 exactly when the document was enhanced; 2 exactly for a usage error, a missing file or an invalid `paths` section |
| SwaggerEnhance.Enhance | scripts/swagger_enhance_openapi.py:34-99 | `main` ends as the reference outcome: usage error, missing file, invalid `paths`, or the enhanced document with the three counts |
| SwaggerEnhance.EnhancedMemberSpec | scripts/swagger_enhance_openapi.py:58-66 | an operation comes out with a usable id (its truthy one, or the generated one) and nothing else in it changes; other members are kept as they are |
| SwaggerEnhance.OpTagsWithId | scripts/swagger_enhance_openapi.py:64-72 | adding an id does not change an operation's tags |
| SwaggerEnhance.EnhancedItemIdempotent | scripts/swagger_enhance_openapi.py:55-66 | processing a processed path item changes nothing |
| SwaggerEnhance.EnhancedPathsIdempotent | scripts/swagger_enhance_openapi.py:55-66 | processing processed `paths` changes nothing |
| SwaggerEnhance.EnhancedPathsOperations | scripts/swagger_enhance_openapi.py:55-62 | processing keeps the set of operations |
| SwaggerEnhance.EnhancedPathsNeedNoIds | scripts/swagger_enhance_openapi.py:64-66 | after processing no operation needs an id |
| SwaggerEnhance.EnhancedPathsTags | scripts/swagger_enhance_openapi.py:68-72 | processing keeps the discovered tags |
| SwaggerEnhance.DiscoveredTagsStripped | scripts/swagger_enhance_openapi.py:68-72 | every tag discovered in `paths` is non-empty and stripped |
| SwaggerEnhance.MissingNone | scripts/swagger_enhance_openapi.py:83-85 | when every tag already has an entry, nothing is appended |
| SwaggerEnhance.EnhancedDocumentStable | scripts/swagger_enhance_openapi.py:44-92 | on the document written back, a further run finds the same operations and tags, generates no id, appends no tag and writes the same document |
| SwaggerEnhance.EnhanceIdempotent | scripts/swagger_enhance_openapi.py:34-99 | running the script on its own output succeeds, reports the same operation and tag counts with no generated id, and leaves the document unchanged |
| SwaggerDescriptions.MatchSummaryShape | scripts/swagger_ensure_descriptions.py:16 | a summary match splits the line into a head and a non-empty summary, and the line is whitespace followed by "//" |
| SwaggerDescriptions.SummaryIndent | scripts/swagger_ensure_descriptions.py:55 | the indent taken before "//" is a prefix of the line made only of whitespace |
| SwaggerDescriptions.DescriptionFor | scripts/swagger_ensure_descriptions.py:20-35 | the description is one of the seven fixed texts, chosen by the first matching prefix rule |
| SwaggerDescriptions.DefaultDescriptionCaseInsensitive | scripts/swagger_ensure_descriptions.py:20-22 | summaries that agree up to surrounding whitespace and letter case get the same description |
| SwaggerDescriptions.DescriptionLineShape | scripts/swagger_ensure_descriptions.py:50-57 | the inserted line continues the comment block and matches the description pattern, so a later run sees it |
| SwaggerDescriptions.CommentRun | scripts/swagger_ensure_descriptions.py:50-51 | the run of comment lines is maximal: all counted lines are comment lines and the next one is not |
| SwaggerDescriptions.StepSize | scripts/swagger_ensure_descriptions.py:42-61 | each step of the scan consumes at least one line and no more than remain |
| SwaggerDescriptions.FindBlockEnd | scripts/swagger_ensure_descriptions.py:48-51 | the inner loop stops at the first line after the summary that is not a comment line, or at the end |
| SwaggerDescriptions.ScanStep | scripts/swagger_ensure_descriptions.py:43-61 | one pass of the outer loop writes the reference output of that step and resumes right after the handled input lines |
| SwaggerDescriptions.LoopStep | scripts/swagger_ensure_descriptions.py:42-61 | the outer loop invariant: the lines before the cursor followed by the reference output of the rest is the reference output of the whole input |
| SwaggerDescriptions.ProcessFile | scripts/swagger_ensure_descriptions.py:38-65 | the count returned is the number of inserted lines, and the file is written, with the reference output, exactly when that count is positive |
| SwaggerDescriptions.StepKeepsLines | scripts/swagger_ensure_descriptions.py:53-61 | one step writes its input lines unchanged and in order, plus at most one inserted line, right after the summary, which is that summary's description line |
| SwaggerDescriptions.PassKeepsLines | scripts/swagger_ensure_descriptions.py:38-65 | the output without its inserted lines is exactly the input; there are as many inserted lines as the count, each right after a summary line and equal to that summary's description line |
| SwaggerDescriptions.NothingInsertedUnchanged | scripts/swagger_ensure_descriptions.py:63-65 | the output equals the input exactly when nothing is inserted |
| SwaggerDescriptions.StepOutShape | scripts/swagger_ensure_descriptions.py:48-59 | after a step at a summary line the block is summary plus comment lines and holds a description line |
| SwaggerDescriptions.StepStable | scripts/swagger_ensure_descriptions.py:42-61 | scanning a step's own output consumes the same block and inserts nothing |
| SwaggerDescriptions.PassIdempotent | scripts/swagger_ensure_descriptions.py:5-7 | processing the output again gives the same lines |
| SwaggerDescriptions.SecondRunInsertsNothing | scripts/swagger_ensure_descriptions.py:5-7 | a second run on the output inserts no line, so it leaves the file unwritten |

## Left out
- Case mapping is ASCII only. Go's `strings.ToUpper`, `ToLower` and `EqualFold` and Python's `str.lower` also map non-ASCII letters; the model leaves those unchanged. Whitespace follows Go's `unicode.IsSpace` and Python's `str.isspace` exactly; regex word characters do not (see `SwaggerDescriptions.IsDescriptionLine` below).
- File, process, network and clock access are not modelled; their outcomes are parameters. This covers `os.Create`, `os.Stat`, writing the JSON data file, `exec.Command(...).Run`, the HTTP client, reading and writing the OpenAPI JSON file, `path.write_text`, and `time.Now().UnixMilli()` (a signed `nowMillis` parameter, written with `%d`).
- Foreign libraries are parameters: the ISO 4217 parser (`currency.ParseISO`, a registry map), ent's field validators and default functions, `fmt.Sprint`, `url.Values.Encode`, `json.Marshal` and the JSON round trip inside `schemaRefToMap`.
- The QueryFilter, TimeRangeFilter, Expand, FilterCondition and SortCondition validators of `FeatureFilter.Validate` are parameters. They live in other files.
- `NewDefaultQueryFilter()` is not part of this model: the nil-safe getters and `Validate` take the default query filter as a parameter.
- `GetCurrencySymbol`, `GetCurrencyPrecision`, `ParseCurrency` and `ValidateCurrencyCode` are one-line delegations to `Symbol`, `Precision`, `NewCurrency` and `Validate`, which are modelled. The `int32` conversion cannot overflow, because precisions are at most 4.
- `MustCurrency` is left out: its only difference from `NewCurrency` is a panic.
- `NewCompiler` is left out: it only builds the struct that the `Compiler` datatype stands for.
- `CompileToBytes`, `CleanupGeneratedFiles`, `CopyDir` and `CopyFile` are left out: they only read, remove and copy files.
- `LoadSpec` is left out: it loads and validates a file through kin-openapi.
- The wallet builder's `SaveX`, `Exec`, `ExecX` and `Mutation()`, and `WalletCreateBulk`, are left out: they are panicking or batching wrappers around `Save` and the driver call.
- `Save` models `withHooks` with no hooks registered.
- Decimal, time and JSON-map column values are opaque. The model never computes with them.
- Errors are constructors that carry the values they mention; message texts, hints, error marks and reportable details are not modelled.
- Logger calls and the scripts' printed messages are not modelled. The printed counts of `swagger_enhance_openapi.py` are the fields of its `Enhanced` outcome.
- JSON key order and formatting (`indent=2`, `ensure_ascii=False`, the trailing newline) are not modelled; documents are maps.
- Go map iteration order is not modelled. `EachOperation` is specified by the set of callbacks it makes; within one path item no method is visited twice. Python dict order does not change the outcome of `swagger_enhance_openapi.py`, whose loops are modelled over sets of keys.
- The directory walk in `main` of `swagger_ensure_descriptions.py` is left out, together with its totals; `process_file` is modelled on the file's lines.
- McpConverter.DeriveToolName: its contract ties the name to the reference `DerivedName`. The lemmas give the shape of every derived name and the result for `/v1/a/{b}/c`. There is no general law for how the `{p}` → `_p` rewrite changes the tokens, because it can merge a placeholder with the letters around it.
- McpCaller.PlannedRequestShape: it states that the URL starts with the base URL and the interpolated path; the exact query string is stated by `BuildUrl`.
- McpCaller.CallAPI: the HTTP round trip is the `transport` parameter, so the contract relates the outcome to what that parameter reports.
- McpOpenApi.EachOperation: the contract fixes the set of callbacks and that none repeats, but not their order, because Go map iteration is unordered.
- SwaggerDescriptions.IsDescriptionLine: the `\b` after `@Description` is decided with ASCII word characters (letters, digits, `_`). Python's `\w` on a `str` also counts non-ASCII letters and digits, so for `// @Descriptionä` Python sees no description line and the model sees one.
- SwaggerDescriptions.ProcessFile: inherits that gap. For a block whose only description-like line is `// @Description` followed directly by a non-ASCII letter or digit, Python inserts a description and the model inserts none. The ASCII case mapping above also reaches the inserted text: a summary whose prefix only matches after a non-ASCII lowering (`health chec` followed by the Kelvin sign U+212A, which Python lowers to `k`) gets the generic description in the model.
- GoFilepath.Clean: only the Unix form of `path/filepath` is modelled, with "/" as the only separator.

## Findings
| source | as written | input that shows it | evidently intended | confidence | as-written member | corrected member |
|---|---|---|---|---|---|---|
| internal/typst/typst.go:176-177 | the template name is reduced with `filepath.Base` "to prevent path traversal", but `Base` keeps the name `..` | the template name `x/..` (or `..`) resolves to the parent of the template directory | the template path stays directly inside the template directory; base names `.`, `..` and `/` are refused | not executed | Typst.TemplatePathDotDot | Typst.SafeTemplatePath |

`Compile` and `CompileTemplate` keep the lookup as written (`TemplatePath`), so the model of the compiler stays faithful to the code; `SafeTemplatePath` states the guarded lookup and its property.
