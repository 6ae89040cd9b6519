/**
 * The part of fastapi_crud/router.py that is logic rather than wiring: the
 * per-resource `routes` and `query` dictionaries laid over the global
 * defaults, and the controller's choice of service.
 */
module Router {
  import opened Wrappers
  import opened JsonValues

  /** `{**defaults, **overrides}`: a shallow override in which the right side wins. */
  function Merge(defaults: Dict, overrides: Dict): (merged: Dict)
    ensures merged.Keys == defaults.Keys + overrides.Keys
    ensures forall k :: k in overrides ==> merged[k] == overrides[k]
    ensures forall k :: k in defaults && k !in overrides ==> merged[k] == defaults[k]
  {
    defaults + overrides
  }

  /** Laying the same override on twice is laying it on once. */
  lemma MergeIdempotent(defaults: Dict, overrides: Dict)
    ensures Merge(Merge(defaults, overrides), overrides) == Merge(defaults, overrides)
  {
  }

  /** An empty override gives the defaults back unchanged. */
  lemma MergeEmptyOverride(defaults: Dict)
    ensures Merge(defaults, map[]) == defaults
  {
  }

  /** Layering is associative, so a further layer could be laid on either side first. */
  lemma MergeAssociative(a: Dict, b: Dict, c: Dict)
    ensures Merge(Merge(a, b), c) == Merge(a, Merge(b, c))
  {
  }

  /**
   * The merge is shallow: when both sides hold a nested dictionary under the
   * same key, the override's one replaces the default's wholesale, and a
   * nested key only the default has is lost.
   */
  lemma MergeIsShallow(defaults: Dict, overrides: Dict, key: string, nested: string)
    requires key in defaults && defaults[key].JObject? && nested in defaults[key].members
    requires key in overrides && overrides[key].JObject? && nested !in overrides[key].members
    ensures Merge(defaults, overrides)[key] == overrides[key]
    ensures nested !in Merge(defaults, overrides)[key].members
  {
  }

  /** The dump of the default global `RoutesModel`. */
  const GlobalRoutesDefaults: Dict := map[
    "dependencies" := JArray([]),
    "only" := JNull,
    "exclude" := JNull,
    "get_many" := JNull,
    "get_one" := JNull,
    "create_one" := JNull,
    "create_many" := JNull,
    "update_one" := JNull,
    "delete_many" := JNull]

  /** The dump of the default global `GlobalQueryOptions`. */
  const GlobalQueryDefaults: Dict := map["soft_delete" := JBool(false)]

  /** The `routes` and `query` dictionaries a router is built with. */
  datatype ResolvedOptions = ResolvedOptions(routes: Dict, query: Dict)

  /** TypeError: a per-resource dictionary given as None cannot be unpacked with `**`. */
  datatype MergeError = NotAMapping

  /** The per-resource `routes` and `query` laid over the global ones. */
  function ResolveOptions(globalRoutes: Dict, globalQuery: Dict, routes: Option<Dict>, query: Option<Dict>)
    : (r: Result<ResolvedOptions, MergeError>)
    ensures r.Success? <==> routes.Some? && query.Some?
    ensures r.Success? ==>
      && r.value.routes.Keys == globalRoutes.Keys + routes.value.Keys
      && r.value.query.Keys == globalQuery.Keys + query.value.Keys
    ensures r.Success? ==>
      && (forall k :: k in routes.value ==> r.value.routes[k] == routes.value[k])
      && (forall k :: k in globalRoutes && k !in routes.value ==> r.value.routes[k] == globalRoutes[k])
      && (forall k :: k in query.value ==> r.value.query[k] == query.value[k])
      && (forall k :: k in globalQuery && k !in query.value ==> r.value.query[k] == globalQuery[k])
  {
    if routes.None? || query.None? then Failure(NotAMapping)
    else Success(ResolvedOptions(Merge(globalRoutes, routes.value), Merge(globalQuery, query.value)))
  }

  /**
   * Every per-resource route option wins, every other global route option
   * is kept, and with no per-resource options the global ones come back.
   */
  lemma ResolvedRoutes(globalRoutes: Dict, globalQuery: Dict, routes: Dict, query: Dict)
    ensures var r := ResolveOptions(globalRoutes, globalQuery, Some(routes), Some(query)).value;
      && (forall k :: k in routes ==> r.routes[k] == routes[k])
      && (forall k :: k in globalRoutes && k !in routes ==> r.routes[k] == globalRoutes[k])
      && (routes == map[] ==> r.routes == globalRoutes)
  {
  }

  /**
   * With the default global query options, `soft_delete` is the per-resource
   * value when one is given and `False` otherwise.
   */
  lemma SoftDeleteResolution(globalRoutes: Dict, routes: Dict, query: Dict)
    ensures var r := ResolveOptions(globalRoutes, GlobalQueryDefaults, Some(routes), Some(query)).value;
      && "soft_delete" in r.query
      && r.query["soft_delete"] == if "soft_delete" in query then query["soft_delete"] else JBool(false)
  {
  }

  /** `service or LocalCrudService()`: the supplied service, else the locally built one. */
  function ServiceFor<S>(supplied: Option<S>, local: S): (service: S)
    ensures supplied.Some? ==> service == supplied.value
    ensures supplied.None? ==> service == local
  {
    match supplied
    case Some(s) => s
    case None => local
  }
}
