/**
 * The edit form of a RADIUS provider (`ak-provider-radius-form`): the property
 * mapping picker (its paginated provider and its selector), the create/update
 * dispatch of `send` and the values `renderForm` seeds its fields with.
 * API calls are modelled as the request values they are given; the list call
 * itself is a function parameter.
 */
module RadiusProviderForm {
  import opened Wrappers
  import opened JsString

  // ---------------------------------------------------------------------------
  // Property mappings: the paginated provider
  // ---------------------------------------------------------------------------

  /** A RADIUS provider property mapping as the list call returns it. */
  datatype PropertyMapping = PropertyMapping(pk: string, name: string, expression: string)

  /** The pagination block of a list response; passed through untouched. */
  datatype Pagination = Pagination(
    next: int, previous: int, count: int, current: int,
    totalPages: int, startIndex: int, endIndex: int)

  datatype PaginatedMappingList = PaginatedMappingList(pagination: Pagination, results: seq<PropertyMapping>)

  /** The arguments of `propertymappingsProviderRadiusList`. */
  datatype ListQuery = ListQuery(ordering: string, pageSize: int, search: string, page: int)

  /** `[key, label, sortBy?, localMapping?]`: one entry of a dual select. */
  datatype DualSelectPair<T> = DualSelectPair(key: string, text: string, sortBy: Option<string>, localMapping: Option<T>)

  /** What `radiusPropertyMappingsProvider` resolves to. */
  datatype ProviderPage = ProviderPage(pagination: Pagination, options: seq<DualSelectPair<PropertyMapping>>)

  /** The list call the provider is given: page request in, page of mappings out. */
  type MappingsListCall = ListQuery -> PaginatedMappingList

  const MappingsOrdering := "name"
  const MappingsPageSize := 20

  /** The list query for one page of mappings matching a search term. */
  function MappingsQuery(page: int, search: string): (q: ListQuery)
    ensures q.ordering == MappingsOrdering && q.pageSize == MappingsPageSize && q.page == page
    ensures q.search == Trim(search)
  {
    ListQuery(MappingsOrdering, MappingsPageSize, Trim(search), page)
  }

  /** The dual-select entry for one mapping: its pk as key, its name as text and sort key. */
  function MappingOption(m: PropertyMapping): (option: DualSelectPair<PropertyMapping>)
    ensures option.key == m.pk && option.text == m.name && option.sortBy == Some(m.name)
    ensures option.localMapping == Some(m)
  {
    DualSelectPair(m.pk, m.name, Some(m.name), Some(m))
  }

  /** `results.map(...)`: one entry per mapping, in the order of the results. */
  function MappingOptions(results: seq<PropertyMapping>): (options: seq<DualSelectPair<PropertyMapping>>)
    ensures |options| == |results|
    ensures forall i :: 0 <= i < |results| ==>
      options[i].key == results[i].pk
      && options[i].text == results[i].name
      && options[i].sortBy == Some(results[i].name)
      && options[i].localMapping == Some(results[i])
  {
    if results == [] then [] else [MappingOption(results[0])] + MappingOptions(results[1..])
  }

  /** `radiusPropertyMappingsProvider(page = 1, search = "")` over a given list call. */
  function MappingsProvider(list: MappingsListCall, page: int := 1, search: string := ""): (r: ProviderPage)
    ensures r.pagination == list(MappingsQuery(page, search)).pagination
    ensures r.options == MappingOptions(list(MappingsQuery(page, search)).results)
  {
    var response := list(MappingsQuery(page, search));
    ProviderPage(response.pagination, MappingOptions(response.results))
  }

  /** The mappings carried by a list of entries (entries without one are skipped). */
  function OptionMappings(options: seq<DualSelectPair<PropertyMapping>>): seq<PropertyMapping> {
    if options == [] then []
    else (match options[0].localMapping
          case Some(m) => [m]
          case None => []) + OptionMappings(options[1..])
  }

  /** The entries give back exactly the results they were made from. */
  lemma {:induction false} MappingOptionsRoundTrip(results: seq<PropertyMapping>)
    ensures OptionMappings(MappingOptions(results)) == results
  {
    if results != [] {
      MappingOptionsRoundTrip(results[1..]);
      assert MappingOptions(results)[1..] == MappingOptions(results[1..]);
      assert results == [results[0]] + results[1..];
    }
  }

  /** The keys of the entries are exactly the pks of the results. */
  lemma MappingOptionKeys(results: seq<PropertyMapping>)
    ensures (set o | o in MappingOptions(results) :: o.key) == (set m | m in results :: m.pk)
  {
    var options := MappingOptions(results);
    var keys, pks := set o | o in options :: o.key, set m | m in results :: m.pk;
    forall k | k in pks ensures k in keys {
      var i :| 0 <= i < |results| && results[i].pk == k;
      assert options[i] in options;
    }
    forall k | k in keys ensures k in pks {
      var i :| 0 <= i < |options| && options[i].key == k;
      assert results[i] in results;
    }
  }

  /**
   * Surrounding white space in the search term does not change the request, so
   * (the list call being a function of its request) neither does the page.
   */
  lemma ProviderIgnoresSurroundingWhitespace(list: MappingsListCall, page: int, search: string)
    ensures MappingsQuery(page, search) == MappingsQuery(page, Trim(search))
    ensures MappingsProvider(list, page, search) == MappingsProvider(list, page, Trim(search))
  {
    TrimIdempotent(search);
  }

  /** A search term without surrounding white space is sent as typed, ordered by name, 20 to a page. */
  lemma QueryKeepsTrimmedTerm(page: int, search: string)
    requires |search| > 0 ==> !IsWhitespace(search[0]) && !IsWhitespace(search[|search| - 1])
    ensures MappingsQuery(page, search) == ListQuery("name", 20, search, page)
  {
  }

  /** A search term of white space only searches for everything. */
  lemma QueryBlankTerm(page: int, search: string)
    requires forall k :: 0 <= k < |search| ==> IsWhitespace(search[k])
    ensures MappingsQuery(page, search).search == ""
  {
  }

  // ---------------------------------------------------------------------------
  // Property mappings: the selector
  // ---------------------------------------------------------------------------

  /**
   * The selector closure, by what it captured: the set of the instance's mapping
   * keys, or nothing when the instance has no mapping list.
   */
  datatype Selector = HasKey(localMappings: set<string>) | NoMappings

  /** What the selector returns: a boolean, or (without mappings) an array. */
  datatype SelectorResult = Bool(value: bool) | List(elements: seq<DualSelectPair<PropertyMapping>>)

  /** JavaScript truthiness of a selector result: every array is truthy, the empty one too. */
  predicate Truthy(r: SelectorResult) {
    match r
    case Bool(b) => b
    case List(_) => true
  }

  /** `makeRadiusPropertyMappingsSelector(instanceMappings?)`. */
  function MakeSelector(instanceMappings: Option<seq<string>>): (selector: Selector)
    ensures selector.HasKey? <==> instanceMappings.Some?
    ensures selector.HasKey? ==> forall k :: k in selector.localMappings <==> k in instanceMappings.value
  {
    match instanceMappings
    // an empty array is truthy too, so it also yields a set
    case Some(mappings) => HasKey(set k | k in mappings)
    case None => NoMappings
  }

  /** Calling the selector on one entry. */
  function Select(selector: Selector, pair: DualSelectPair<PropertyMapping>): (result: SelectorResult)
    ensures result.Bool? <==> selector.HasKey?
    ensures selector.HasKey? ==> (result.value <==> pair.key in selector.localMappings)
    ensures selector.NoMappings? ==> result == List([])
  {
    match selector
    case HasKey(localMappings) => Bool(pair.key in localMappings)
    case NoMappings => List([])
  }

  /** With a mapping list, an entry is selected exactly when its key is in the list. */
  lemma SelectorMembership(mappings: seq<string>, pair: DualSelectPair<PropertyMapping>)
    ensures Select(MakeSelector(Some(mappings)), pair) == Bool(pair.key in mappings)
    ensures Truthy(Select(MakeSelector(Some(mappings)), pair)) <==> pair.key in mappings
  {
  }

  /** Without a mapping list, every entry gets the empty array, which JavaScript reads as true. */
  lemma SelectorWithoutMappings(pair: DualSelectPair<PropertyMapping>)
    ensures Select(MakeSelector(None), pair) == List([])
    ensures Truthy(Select(MakeSelector(None), pair))
  {
  }

  /** An instance with an empty mapping list selects nothing. */
  lemma SelectorEmptyMappings(pair: DualSelectPair<PropertyMapping>)
    ensures Select(MakeSelector(Some([])), pair) == Bool(false)
  {
  }

  /** The instance that has mappings `pk1` and `pk3` selects those two and no other key. */
  lemma SelectorExample(pair: DualSelectPair<PropertyMapping>)
    ensures pair.key == "pk1" ==> Select(MakeSelector(Some(["pk1", "pk3"])), pair) == Bool(true)
    ensures pair.key == "pk3" ==> Select(MakeSelector(Some(["pk1", "pk3"])), pair) == Bool(true)
    ensures pair.key != "pk1" && pair.key != "pk3" ==>
      Select(MakeSelector(Some(["pk1", "pk3"])), pair) == Bool(false)
  {
  }

  /** On a page from the provider, an entry is selected exactly when its mapping's pk is the instance's. */
  lemma SelectorOnProviderPage(mappings: seq<string>, list: MappingsListCall, page: int, search: string, i: nat)
    requires i < |MappingsProvider(list, page, search).options|
    ensures Select(MakeSelector(Some(mappings)), MappingsProvider(list, page, search).options[i])
         == Bool(list(MappingsQuery(page, search)).results[i].pk in mappings)
  {
  }

  // ---------------------------------------------------------------------------
  // The provider record and `send`
  // ---------------------------------------------------------------------------

  /** A RADIUS provider as loaded for editing and as submitted. */
  datatype RadiusProvider = RadiusProvider(
    pk: int,
    name: string,
    authorizationFlow: string,
    invalidationFlow: string,
    mfaSupport: Option<bool>,
    sharedSecret: Option<string>,
    clientNetworks: Option<string>,
    propertyMappings: Option<seq<string>>)

  /** The two `ProvidersApi` calls `send` can make, by their arguments. */
  datatype ProvidersCall =
    | RadiusUpdate(id: int, radiusProviderRequest: RadiusProvider)
    | RadiusCreate(radiusProviderRequest: RadiusProvider)

  /** `send(data)`: update the loaded instance, or create a provider when there is none. */
  function Send(instance: Option<RadiusProvider>, data: RadiusProvider): (call: ProvidersCall)
    ensures call.RadiusUpdate? <==> instance.Some?
    ensures call.RadiusUpdate? ==> call.id == instance.value.pk
    ensures call.radiusProviderRequest == data
  {
    match instance
    case Some(loaded) => RadiusUpdate(loaded.pk, data)
    case None => RadiusCreate(data)
  }

  /** Of the loaded instance `send` reads only the pk; the form data goes out as given. */
  lemma SendReadsOnlyPk(a: RadiusProvider, b: RadiusProvider, data: RadiusProvider)
    requires a.pk == b.pk
    ensures Send(Some(a), data) == Send(Some(b), data)
    ensures Send(Some(a), data).radiusProviderRequest == Send(None, data).radiusProviderRequest
  {
  }

  // ---------------------------------------------------------------------------
  // `renderForm`: the initial field values
  // ---------------------------------------------------------------------------

  /** `first(...)`: the first argument that is defined, if any. */
  function First<T>(args: seq<Option<T>>): (r: Option<T>)
    ensures r.Some? <==> exists i :: 0 <= i < |args| && args[i].Some?
    ensures r.Some? ==> exists i :: 0 <= i < |args| && args[i] == r && forall j :: 0 <= j < i ==> args[j].None?
  {
    if args == [] then None
    else if args[0].Some? then args[0]
    else First(args[1..])
  }

  /** Two-argument `first(value, fallback)`: the value when defined, the fallback otherwise. */
  lemma FirstOrFallback<T>(value: Option<T>, fallback: T)
    ensures First([value, Some(fallback)]) == Some(value.GetOr(fallback))
  {
  }

  datatype FlowDesignation = Authentication | Invalidation

  /** A page provider for a dual select: list call, page and search term in, page of entries out. */
  type MappingsPageFunction = (MappingsListCall, int, string) -> ProviderPage

  /** A form row, keyed by the name under which its value is submitted. */
  datatype FormField =
    | TextInput(fieldName: string, value: Option<string>, required: bool)
    | Switch(fieldName: string, checked: bool)
    | FlowSearch(fieldName: string, flowType: FlowDesignation, currentFlow: Option<string>,
                 brandFlow: Option<string>, defaultFlowSlug: Option<string>, required: bool)
    | DualSelect(fieldName: string, provider: MappingsPageFunction, selector: Selector)

  /** The rows of the form, in the order the form shows them. */
  datatype RadiusForm = RadiusForm(
    name: FormField,
    authenticationFlow: FormField,
    mfaSupport: FormField,
    sharedSecret: FormField,
    clientNetworks: FormField,
    propertyMappings: FormField,
    invalidationFlow: FormField)

  const DefaultMfaSupport := true
  const DefaultClientNetworks := "0.0.0.0/0, ::/0"
  const DefaultInvalidationFlowSlug := "default-provider-invalidation-flow"

  /** `instance?.field` for a field that is always present on a loaded instance. */
  function Loaded<T>(instance: Option<RadiusProvider>, field: RadiusProvider -> T): Option<T> {
    match instance
    case Some(p) => Some(field(p))
    case None => None
  }

  /** `instance?.field` for an optional field. */
  function LoadedOptional<T>(instance: Option<RadiusProvider>, field: RadiusProvider -> Option<T>): Option<T> {
    match instance
    case Some(p) => field(p)
    case None => None
  }

  /**
   * `renderForm`. `brandAuthenticationFlow` is `brand?.flowAuthentication`;
   * `generatedSecret` is the random 128-character secret offered for a new provider.
   */
  function RenderForm(instance: Option<RadiusProvider>, brandAuthenticationFlow: Option<string>, generatedSecret: string)
    : (form: RadiusForm)
    // the name starts out as the instance's, or empty
    ensures form.name == TextInput("name", if instance.Some? then Some(instance.value.name) else None, true)
    // an authentication flow is picked, but stored in the authorization flow field
    ensures form.authenticationFlow.FlowSearch?
      && form.authenticationFlow.fieldName == "authorizationFlow"
      && form.authenticationFlow.flowType == Authentication
      && form.authenticationFlow.brandFlow == brandAuthenticationFlow
      && form.authenticationFlow.defaultFlowSlug == None
      && form.authenticationFlow.required
    ensures instance.Some? ==> form.authenticationFlow.currentFlow == Some(instance.value.authorizationFlow)
    ensures instance.None? ==> form.authenticationFlow.currentFlow == None
    // MFA support is on unless the instance explicitly turned it off
    ensures form.mfaSupport.Switch? && form.mfaSupport.fieldName == "mfaSupport"
    ensures !form.mfaSupport.checked <==> instance.Some? && instance.value.mfaSupport == Some(false)
    ensures form.sharedSecret.TextInput? && form.sharedSecret.fieldName == "sharedSecret"
      && form.sharedSecret.required
    ensures form.sharedSecret.value ==
      Some(if instance.Some? && instance.value.sharedSecret.Some? then instance.value.sharedSecret.value else generatedSecret)
    ensures form.clientNetworks.TextInput? && form.clientNetworks.fieldName == "clientNetworks"
      && form.clientNetworks.required
    ensures form.clientNetworks.value ==
      Some(if instance.Some? && instance.value.clientNetworks.Some? then instance.value.clientNetworks.value
           else DefaultClientNetworks)
    ensures form.propertyMappings.DualSelect? && form.propertyMappings.fieldName == "propertyMappings"
    ensures forall list, page, search ::
      form.propertyMappings.provider(list, page, search) == MappingsProvider(list, page, search)
    ensures form.propertyMappings.selector
         == MakeSelector(if instance.Some? then instance.value.propertyMappings else None)
    ensures form.invalidationFlow.FlowSearch?
      && form.invalidationFlow.fieldName == "invalidationFlow"
      && form.invalidationFlow.flowType == Invalidation
      && form.invalidationFlow.defaultFlowSlug == Some(DefaultInvalidationFlowSlug)
      && form.invalidationFlow.required
    ensures instance.Some? ==> form.invalidationFlow.currentFlow == Some(instance.value.invalidationFlow)
    ensures instance.None? ==> form.invalidationFlow.currentFlow == None
    ensures form.invalidationFlow.brandFlow == None
  {
    FirstOrFallback(LoadedOptional(instance, (p: RadiusProvider) => p.mfaSupport), DefaultMfaSupport);
    FirstOrFallback(LoadedOptional(instance, (p: RadiusProvider) => p.sharedSecret), generatedSecret);
    FirstOrFallback(LoadedOptional(instance, (p: RadiusProvider) => p.clientNetworks), DefaultClientNetworks);
    RadiusForm(
      TextInput("name", Loaded(instance, (p: RadiusProvider) => p.name), true),
      FlowSearch("authorizationFlow", Authentication, Loaded(instance, (p: RadiusProvider) => p.authorizationFlow),
                 brandAuthenticationFlow, None, true),
      Switch("mfaSupport", First([LoadedOptional(instance, (p: RadiusProvider) => p.mfaSupport), Some(DefaultMfaSupport)]).value),
      TextInput("sharedSecret",
                First([LoadedOptional(instance, (p: RadiusProvider) => p.sharedSecret), Some(generatedSecret)]), true),
      TextInput("clientNetworks",
                First([LoadedOptional(instance, (p: RadiusProvider) => p.clientNetworks), Some(DefaultClientNetworks)]), true),
      DualSelect("propertyMappings",
                 (list: MappingsListCall, page: int, search: string) => MappingsProvider(list, page, search),
                 MakeSelector(LoadedOptional(instance, (p: RadiusProvider) => p.propertyMappings))),
      FlowSearch("invalidationFlow", Invalidation, Loaded(instance, (p: RadiusProvider) => p.invalidationFlow),
                 None, Some(DefaultInvalidationFlowSlug), true))
  }

  /** A new provider starts with MFA support on and clients allowed from every network. */
  lemma NewProviderDefaults(brandAuthenticationFlow: Option<string>, generatedSecret: string)
    ensures RenderForm(None, brandAuthenticationFlow, generatedSecret).mfaSupport.checked
    ensures RenderForm(None, brandAuthenticationFlow, generatedSecret).clientNetworks.value == Some("0.0.0.0/0, ::/0")
    ensures RenderForm(None, brandAuthenticationFlow, generatedSecret).sharedSecret.value == Some(generatedSecret)
    ensures RenderForm(None, brandAuthenticationFlow, generatedSecret).propertyMappings.selector == NoMappings
  {
  }
}
