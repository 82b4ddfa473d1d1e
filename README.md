# authentik: consent stage and RADIUS provider form, modelled in Dafny

This project models two pieces of decision logic from authentik's web UI as
pure Dafny functions over abstract view values (no HTML):

- **Consent stage** (`ak-stage-consent`, `consent_stage.dfy`). Permissions are
  filtered before they are shown: an entry without a name, or the `openid`
  scope, yields nothing; every other entry yields one list item with its id and
  name, in input order. The page is `Loading` until a challenge is bound.
  Once one is, the page uses the "additional permissions" layout when
  `additionalPermissions` is non-empty and the "no previous consent" layout
  otherwise. Each list section appears only when its list is non-empty. The
  form submits exactly `{token: challenge.token}`.
- **RADIUS provider form** (`ak-provider-radius-form`, `radius_provider_form.dfy`).
  The property-mapping picker's provider sends the query ordered by `name`,
  20 to a page, with the page it is given and the search term trimmed. It
  turns each result into a `(pk, name, name, mapping)` entry and passes the
  pagination through. The selector is built once from the set of the
  instance's mapping keys. `send` issues an update by `instance.pk` or a create.
  `renderForm` seeds the fields with "first defined" defaults: MFA support on
  and client networks `0.0.0.0/0, ::/0`. It hands the invalidation flow search
  the instance's flow together with the attribute `defaultFlowSlug =
  "default-provider-invalidation-flow"`; how that search component combines the
  two is not modelled. It stores the chosen *authentication* flow under the
  field name `authorizationFlow`.
- `js_string.dfy` models JavaScript's `String.prototype.trim` (ECMAScript
  WhiteSpace and LineTerminator code points). `wrappers.dfy` holds `Option`,
  which stands for TypeScript's `undefined`.

API calls are modelled as the request values they carry (`ProvidersCall`,
`ListQuery`). The list call is a function parameter of `MappingsProvider`. The
random shared secret and `brand?.flowAuthentication` are parameters of
`RenderForm`.

The selector returns a boolean when the instance has a mapping list, even an
empty one, because an empty array is truthy. Without a list it returns an
empty array (`List([])`). The predicate `Truthy` encodes JavaScript's rule
that every array, the empty one included, is truthy; `SelectorWithoutMappings`
shows that under this rule the no-mappings result reads as true.

## Model

| member | source | states |
|---|---|---|
| `ConsentStage.RenderPermission` | web/src/flow/stages/consent/ConsentStage.ts:31-39 | the `map` callback: at most one item per permission, and an item only for a listed permission, carrying its own id and name |
| `ConsentStage.RenderPermissionCases` | web/src/flow/stages/consent/ConsentStage.ts:31-39 | a permission yields nothing exactly when its name is empty or its id is `openid`; otherwise it yields exactly one item with its own id and name |
| `ConsentStage.RenderPermissions` | web/src/flow/stages/consent/ConsentStage.ts:30-40 | the listed items are never more than the permissions; none has an empty name or the code `openid` |
| `ConsentStage.RenderPermissionsAppend` | web/src/flow/stages/consent/ConsentStage.ts:31 | filtering distributes over concatenation, so the order of the input is kept |
| `ConsentStage.RenderPermissionsSplit` | web/src/flow/stages/consent/ConsentStage.ts:31-39 | the items of a list are those before position i, then those of entry i, then those after it |
| `ConsentStage.RenderPermissionsPrefix` | web/src/flow/stages/consent/ConsentStage.ts:31-39 | extending the input by one permission appends only that permission's fragment |
| `ConsentStage.RenderSingle` | web/src/flow/stages/consent/ConsentStage.ts:31-39 | a one-element list renders as that element's fragment |
| `ConsentStage.RenderPermissionsPosition` | web/src/flow/stages/consent/ConsentStage.ts:31-39 | a listed permission at index i produces the item at the position given by the items before it, carrying its own id and name; a hidden one adds nothing |
| `ConsentStage.RenderPermissionsMonotone` | web/src/flow/stages/consent/ConsentStage.ts:31-39 | item positions grow strictly with the position of the listed permission, so no two permissions share an item and the input order is kept |
| `ConsentStage.RenderPermissionsOrigin` | web/src/flow/stages/consent/ConsentStage.ts:31-39 | every item comes from a listed permission at the matching position, so nothing else is emitted |
| `ConsentStage.RenderPermissionsIdempotent` | web/src/flow/stages/consent/ConsentStage.ts:31-39 | filtering the listed items again changes nothing |
| `ConsentStage.AsPermissionsAppend` | web/src/flow/stages/consent/ConsentStage.ts:39 | reading items back as permissions distributes over concatenation |
| `ConsentStage.PermissionSection` | web/src/flow/stages/consent/ConsentStage.ts:49-58 | the `length > 0 ? ... : nothing` of each list: the section exists iff the unfiltered list is non-empty, and then has the given kind and the filtered items |
| `ConsentStage.RenderNoPrevious` | web/src/flow/stages/consent/ConsentStage.ts:43-61 | the layout carries the header text; its "requires" section appears iff `permissions` is non-empty and then lists the filtered permissions |
| `ConsentStage.RenderAdditional` | web/src/flow/stages/consent/ConsentStage.ts:63-93 | the "already has access" section appears iff `permissions` is non-empty; the "new permissions" section appears iff `additionalPermissions` is non-empty; each lists its filtered list |
| `ConsentStage.Title` | web/src/flow/stages/consent/ConsentStage.ts:100 | `flowInfo?.title`: the flow info's title when there is flow info, otherwise nothing |
| `ConsentStage.Render` | web/src/flow/stages/consent/ConsentStage.ts:95-126 | loading iff no challenge is bound; otherwise the title is `flowInfo?.title`, the response is exactly `{token}` of the challenge, and the layout is the additional one (with its header and sections) iff `additionalPermissions` is non-empty, else the no-previous one |
| `ConsentStage.RenderedItems` | web/src/flow/stages/consent/ConsentStage.ts:43-114 | the page lists the filtered `permissions` followed by the filtered `additionalPermissions`, in both layouts |
| `ConsentStage.NeverListsHidden` | web/src/flow/stages/consent/ConsentStage.ts:32-38 | no item on any page has the code `openid` or an empty name |
| `ConsentStage.HeadingWithoutItems` | web/src/flow/stages/consent/ConsentStage.ts:49-58 | a section heading appears even when all its permissions are hidden, because the test is on the unfiltered list |
| `ConsentStage.FirstConsentExample` | web/src/flow/stages/consent/ConsentStage.ts:95-114 | a first-time consent for `{id: "a", name: "Read"}` lists that one item and submits `{token: "T"}` |
| `JsString.IsWhitespace` | web/src/admin/providers/radius/RadiusProviderForm.ts:31 | the characters `trim` removes (ECMAScript WhiteSpace and LineTerminator), which include space, tab, LF and CR and all lie in the Basic Multilingual Plane |
| `JsString.TrimStart` | web/src/admin/providers/radius/RadiusProviderForm.ts:31 | the result is the longest suffix that does not start with white space; everything dropped is white space |
| `JsString.TrimEnd` | web/src/admin/providers/radius/RadiusProviderForm.ts:31 | the result is the longest prefix that does not end with white space; everything dropped is white space |
| `JsString.Trim` | web/src/admin/providers/radius/RadiusProviderForm.ts:31 | the trimmed term neither starts nor ends with white space and is no longer than the input |
| `JsString.TrimIsSlice` | web/src/admin/providers/radius/RadiusProviderForm.ts:31 | the trimmed term is the contiguous slice of the input that starts after the leading white space |
| `JsString.TrimCutsWhitespace` | web/src/admin/providers/radius/RadiusProviderForm.ts:31 | everything cut off before and after the trimmed term is white space |
| `JsString.TrimKeepsTrimmed` | web/src/admin/providers/radius/RadiusProviderForm.ts:31 | a term without white space at either end is unchanged |
| `JsString.TrimIdempotent` | web/src/admin/providers/radius/RadiusProviderForm.ts:31 | trimming twice equals trimming once |
| `JsString.TrimWhitespaceOnly` | web/src/admin/providers/radius/RadiusProviderForm.ts:31 | a term of white space only trims to the empty string |
| `RadiusProviderForm.MappingsQuery` | web/src/admin/providers/radius/RadiusProviderForm.ts:28-33 | the query is ordered by `name` with page size 20, the given page and the trimmed search term |
| `RadiusProviderForm.QueryKeepsTrimmedTerm` | web/src/admin/providers/radius/RadiusProviderForm.ts:28-33 | a term without surrounding white space is sent unchanged, in the query `("name", 20, term, page)` |
| `RadiusProviderForm.QueryBlankTerm` | web/src/admin/providers/radius/RadiusProviderForm.ts:31 | a blank term is sent as the empty search |
| `RadiusProviderForm.MappingOption` | web/src/admin/providers/radius/RadiusProviderForm.ts:36 | one result becomes the entry `(pk, name, name, mapping)` |
| `RadiusProviderForm.MappingOptions` | web/src/admin/providers/radius/RadiusProviderForm.ts:36 | one entry per result, same length and order, each `(pk, name, name, mapping)` |
| `RadiusProviderForm.MappingsProvider` | web/src/admin/providers/radius/RadiusProviderForm.ts:25-38 | the pagination of the list response is passed through; the options are the `(pk, name, name, mapping)` entries of the results, as many and in the same order |
| `RadiusProviderForm.MappingOptionsRoundTrip` | web/src/admin/providers/radius/RadiusProviderForm.ts:36 | the mappings carried by the entries are exactly the results, in order |
| `RadiusProviderForm.MappingOptionKeys` | web/src/admin/providers/radius/RadiusProviderForm.ts:36 | the set of entry keys equals the set of result pks |
| `RadiusProviderForm.ProviderIgnoresSurroundingWhitespace` | web/src/admin/providers/radius/RadiusProviderForm.ts:25-38 | a term and its trimmed form build the same query; with the list call modelled as a function of its request, they also give the same page |
| `RadiusProviderForm.MakeSelector` | web/src/admin/providers/radius/RadiusProviderForm.ts:40-45 | the selector holds a key set iff the instance has a mapping list, and the set's members are exactly that list's keys |
| `RadiusProviderForm.Select` | web/src/admin/providers/radius/RadiusProviderForm.ts:42-44 | calling either closure: a boolean iff a key set was captured, true iff the pair's key is in it; the empty array otherwise |
| `RadiusProviderForm.SelectorMembership` | web/src/admin/providers/radius/RadiusProviderForm.ts:41-43 | with a mapping list, an entry's result is `true` iff its key is in the list |
| `RadiusProviderForm.SelectorWithoutMappings` | web/src/admin/providers/radius/RadiusProviderForm.ts:41-44 | without a mapping list, every entry's result is the empty array, which is truthy |
| `RadiusProviderForm.SelectorEmptyMappings` | web/src/admin/providers/radius/RadiusProviderForm.ts:41-43 | an empty mapping list still builds a set and selects nothing |
| `RadiusProviderForm.SelectorExample` | web/src/admin/providers/radius/RadiusProviderForm.ts:40-43 | with mappings `["pk1", "pk3"]`, only the keys `pk1` and `pk3` are accepted |
| `RadiusProviderForm.SelectorOnProviderPage` | web/src/admin/providers/radius/RadiusProviderForm.ts:34-43 | on a provider page, entry i is selected iff the pk of result i is among the instance's mappings |
| `RadiusProviderForm.Send` | web/src/admin/providers/radius/RadiusProviderForm.ts:55-66 | an update by `instance.pk` iff an instance is loaded, a create otherwise; the request is the form data in both cases |
| `RadiusProviderForm.SendReadsOnlyPk` | web/src/admin/providers/radius/RadiusProviderForm.ts:55-66 | instances with the same pk give the same call; update and create carry the same request data |
| `RadiusProviderForm.First` | web/src/admin/providers/radius/RadiusProviderForm.ts:102 | the result is defined iff some argument is; then it is the first defined argument |
| `RadiusProviderForm.FirstOrFallback` | web/src/admin/providers/radius/RadiusProviderForm.ts:128-131 | `first(value, fallback)` is the value when it is defined, else the fallback |
| `RadiusProviderForm.RenderForm` | web/src/admin/providers/radius/RadiusProviderForm.ts:74-189 | the authentication-flow picker is submitted as `authorizationFlow`; MFA support is unchecked only when the instance says `false`; the secret is the instance's or the generated one; client networks default to `0.0.0.0/0, ::/0`; name, flows, secret and client networks are required; the property-mapping picker is given `radiusPropertyMappingsProvider` as its provider and `makeRadiusPropertyMappingsSelector(instance?.propertyMappings)` as its selector; the authentication picker has no default slug; the invalidation search gets the instance's flow (or none), no brand flow and the default slug `default-provider-invalidation-flow` |
| `RadiusProviderForm.NewProviderDefaults` | web/src/admin/providers/radius/RadiusProviderForm.ts:97-165 | a new provider starts with MFA support on, all networks allowed, the generated secret and no mapping selector |

## Left out

- `passbook/root/celery.py`: Celery app construction, logging hooks and task autodiscovery. This is framework wiring with no decision logic.
- The network calls (`ProvidersApi.providersRadiusRetrieve/Update/Create`, `PropertymappingsApi.propertymappingsProviderRadiusList`, `loadInstance`) and their async waiting. Only the request values they receive are modelled. The list call is a parameter.
- `randomString` is randomness: the generated secret is the `generatedSecret` parameter. `brand?.flowAuthentication` is the `brandAuthenticationFlow` parameter.
- `BaseStage` (`submitForm`, `renderUserInfo`) and `BaseProviderForm` are not part of this model. The consent view records the response that `submitForm` is given. The user-info block is not represented. How the form rows are serialised into the `data` given to `send` is not modelled.
- `ak-dual-select-dynamic-selected` is not part of this model, so how it uses the selector's result is not modelled. The model only proves the result's value and its JavaScript truthiness.
- `RadiusProviderForm.First`: `first` from the common utilities is not part of this model. It is modelled only as "the first defined argument", the meaning its call sites rely on. `null` and `undefined` are both `None`.
- Strings are sequences of Unicode scalar values, not UTF-16 code units as in JavaScript, so a search term holding a lone surrogate cannot be represented. `trim` is otherwise unaffected, because every character it removes lies in the Basic Multilingual Plane (`JsString.IsWhitespace`).
- `ak-flow-search` is not part of this model, so how it picks between `currentFlow` and `defaultFlowSlug` is not modelled; the form only records both.
- `ak-branded-flow-search` is not part of this model either, so how it picks between `currentFlow` and `brandFlow` is not modelled; the form only records both. Both search components are represented by the one `FlowSearch` row kind.
- Lit templating, CSS, PatternFly classes, `msg()` texts (reduced to section kinds), custom-element registration and `ifDefined`/`?checked` binding.
- The general flow machinery (challenge/submit loop, stage registry, duplicate-submit guard, retries, validation errors) is not in these files. The two files only render a bound challenge and build one response or request.
