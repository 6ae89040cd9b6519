# fastapi_crud query filters and option merging, in Dafny

fastapi_crud generates CRUD endpoints for a data model. Its real logic sits in
two places, and this project models both.

**The query-filter language** (`fastapi_crud/helper.py`):

- `filter_to_search` splits a token `field<delim>operator<delim>value` into
  the predicate `{field: {operator: value}}`.
- `build_query_search` combines its inputs into one search tree under a
  top-level `$and`. The inputs are a raw JSON search string, `filter`
  tokens, `or` tokens, an option filter and an auth filter.
- Two small utilities come with them: `find`, a first-match search, and
  `update_entity_attr`, which copies the non-None entries of a dictionary
  onto an object.

**The option merge** (`fastapi_crud/router.py`): the per-resource `routes`
and `query` dictionaries are laid over the global ones with
`{**global, **resource}`. The controller takes the supplied service, or
else a locally built one.

Files and modules:

- `wrappers.dfy`: `Option` and `Result`.
- `json.dfy`: the JSON values a decoder produces and a `Dict` holds.
- `delimited.dfy`: Python's `str.split(sep)` and `sep.join(parts)`. `Split`
  is proved to be a bijection between strings and the part lists it can
  produce. `Split`'s own contract and `SplitParts` give one direction, and
  `SplitJoin` gives the other.
- `helper.dfy`: everything modelled from `helper.py`.
- `router.dfy`: lines 55-56 and 86 of `router.py`.

Modelling choices:

- Search trees are a datatype:
  - `Pred(f, o, v)` stands for `{f: {o: v}}`.
  - `And(ts)` stands for `{"$and": ts}` and `Or(ts)` for `{"$or": ts}`.
  - `Raw(j)` is a value taken over unchanged: a decoded search string, an
    option filter or an auth filter.
- The delimiter is a parameter. Its configured default is `"||"`
  (`DefaultDelim`).
- JSON decoding is the parameter `parse: string -> Option<Json>`. `None`
  stands for a string `json.loads` rejects.
- Python truthiness is written out. An absent list and an empty list
  behave alike (`HasTokens`), and so do an absent dict and an empty dict
  (`HasEntries`).
- Every exception the code can raise is an `Error` value, never a
  precondition:
  - `EmptySeparator`: `str.split` with an empty separator.
  - `MissingOperator`: a token without the delimiter, so `filters[1]` fails.
  - `UnexpectedKeyword`: the one-filter-and-one-or branch.
  - `NoneHasNoAppend` and `NoneHasNoLen`: a search string that does not decode.

Behaviour as written, which the model keeps:

- **One filter with one or raises.** That branch calls
  `filter_to_search(..., delim=...)`, but `filter_to_search` has no such
  keyword, so the call raises a TypeError. The dict-inside-a-set literal
  around it would raise a second TypeError, but the first one comes sooner.
  `BuildQuerySearch` therefore returns `Failure(UnexpectedKeyword)` for every
  such input. A reader might expect a two-branch `$or` here; the code raises
  instead.
- **A search string that does not decode is not swallowed.** `search_list`
  becomes None. The next `append` or `len` then raises, so the call fails.
  A reader might expect a silent fallback to "no filter"; the code raises
  instead, and the model follows it.
- **The merge has two layers.** A reader might expect a third, per-route
  layer. The code merges only the global and per-resource layers. `MergeAssociative` shows that laying on a further
  layer would not depend on grouping.

## Model

| member | source | states |
|---|---|---|
| `Delimited.Split` | fastapi_crud/helper.py:25 | `str.split` yields at least one part. Joining the parts with the delimiter gives the token back. |
| `Delimited.SplitParts` | fastapi_crud/helper.py:25 | Every part but the last can be cut off again at the delimiter. The last part holds no delimiter. |
| `Delimited.FreeMeansNoOccurrence` | fastapi_crud/helper.py:25-27 | A string holds no delimiter exactly when no occurrence of the delimiter starts at any index. |
| `Delimited.SplitJoin` | fastapi_crud/helper.py:25 | Splitting undoes joining for every part list `Split` can produce, so `Split` is injective and this is its inverse. |
| `Delimited.SplitSingle` | fastapi_crud/helper.py:25-27 | A token splits into a single part exactly when it does not contain the delimiter. |
| `Delimited.AvoidsFirstChar` | fastapi_crud/helper.py:25 | A part that does not contain the delimiter's first character can be cut off and holds no delimiter. |
| `Helper.Find` | fastapi_crud/helper.py:11-14 | Returns None exactly when no element is accepted. Otherwise it returns an accepted element with no accepted element before it. |
| `Helper.FilterToSearch` | fastapi_crud/helper.py:24-42 | An empty delimiter raises the ValueError. A token without the delimiter raises the IndexError. Success happens exactly when the token contains a non-empty delimiter, and then gives a predicate. Its operand is `True` exactly when the operator is `$isnull` or `$notnull`. |
| `Helper.FilterThreeParts` | fastapi_crud/helper.py:25-41 | A token of exactly three parts gives `{field: {op: value}}`. A null operator gives `True` instead of the value. |
| `Helper.FilterOtherArity` | fastapi_crud/helper.py:25-41 | Two parts, or four or more, give the operand None. A null operator gives `True` instead. |
| `Helper.FilterRoundTrip` | fastapi_crud/helper.py:24-42 | Rendering `field<delim>op<delim>value` and parsing it gives `Pred(field, op, value)` back. This holds whenever the operator is not a null operator, the field and operator can be cut off at the delimiter (`Separable`), and the value holds no delimiter. |
| `Helper.FilterInverse` | fastapi_crud/helper.py:24-42 | A predicate with a text operand comes from exactly the token `field<delim>op<delim>value`. |
| `Helper.FilterRoundTripNoValue` | fastapi_crud/helper.py:24-42 | Rendering `field<delim>op` and parsing it gives the field and operator back. The operand is `True` for a null operator and None otherwise. This holds whenever the field can be cut off at the delimiter and the operator holds no delimiter. |
| `Helper.ExampleEquality` | fastapi_crud/helper.py:24-42 | The token `name`, `$eq`, `bob` joined by the default delimiter gives `{name: {$eq: bob}}`. |
| `Helper.ExampleNullCheck` | fastapi_crud/helper.py:30-35 | The token `deleted_at`, `$isnull` joined by the default delimiter gives `{deleted_at: {$isnull: True}}`. |
| `Helper.ExampleNoOperator` | fastapi_crud/helper.py:27 | `name` has no operator and raises the IndexError. |
| `Helper.MapAll` | fastapi_crud/helper.py:86 | `list(map(f, xs))` for an `f` that may raise succeeds exactly when `f` succeeds on every element, and then gives one result per element in input order. Otherwise it raises the error of the first element on which `f` fails. |
| `Helper.MapAllExact` | fastapi_crud/helper.py:86 | A list of results that matches the elements one by one in order is what `MapAll` returns. |
| `Helper.ParseAll` | fastapi_crud/helper.py:86 | `list(map(filter_to_search, tokens))` succeeds exactly when every token parses, and then gives one predicate per token in input order. |
| `Helper.ParseAllExact` | fastapi_crud/helper.py:86 | A list of predicates that matches the tokens one by one in order is what `ParseAll` returns. |
| `Helper.PrimarySearchList` | fastapi_crud/helper.py:51-94 | Choosing `search_list` from the search string, the filters and the ors, branch by branch, gives the primary terms of `QuerySearch`, including every raise on the way. |
| `Helper.BuildQuerySearch` | fastapi_crud/helper.py:44-103 | Building `search_list` step by step gives the same result as the function `QuerySearch`: the primary terms, then the truthy extra filters, under one `$and`. Every raise is included. |
| `Helper.SearchSpecTakesPrecedence` | fastapi_crud/helper.py:53-59 | A non-empty search string decides the result, whatever the filters and ors are. |
| `Helper.SearchSpecDecoded` | fastapi_crud/helper.py:53-56 | A search string that decodes gives `{"$and": [decoded, ...extras]}`. |
| `Helper.SearchSpecInvalid` | fastapi_crud/helper.py:57-100 | A search string that does not decode makes the call raise. It raises in `append` when an extra filter is given, and in `len` otherwise. |
| `Helper.FiltersOnly` | fastapi_crud/helper.py:85-86 | With only filters, the result is `{"$and": [parse(f) for f in filters] + extras}` in input order. It succeeds exactly when every filter parses, and otherwise raises the first failing filter's error. |
| `Helper.OrsOnly` | fastapi_crud/helper.py:87-94 | With only ors, one token gives `{"$and": [parse(o)] + extras}` and several give `{"$and": [{"$or": [...]}] + extras}` in input order. It succeeds exactly when every or parses. |
| `Helper.FiltersAndOrs` | fastapi_crud/helper.py:59-83 | With both lists, one filter with one or raises the TypeError. Otherwise the call succeeds exactly when every filter and every or parses. It then gives one `$or` of exactly two `$and` groups, each holding only its own list's predicates in order. Otherwise it raises the first failing filter's error, or, when all filters parse, the first failing or's error. |
| `Helper.ExtrasComeLast` | fastapi_crud/helper.py:96-101 | Every search is a single `$and` with a non-empty list. The option filter and then the auth filter, when truthy, are its last elements. |
| `Helper.NoneIffNothingGiven` | fastapi_crud/helper.py:51-103 | The result is None exactly when no input is truthy. |
| `Helper.AssignedOverlay` | fastapi_crud/helper.py:105-108 | The update sets exactly the keys whose value is not None to that value. Attributes under None-valued keys, and all other attributes, are unchanged. |
| `Helper.AssignedStep` | fastapi_crud/helper.py:106-108 | Handling one more key of the update assigns that key exactly when its value is not None, and changes nothing else. |
| `Helper.UpdateEntityAttr` | fastapi_crud/helper.py:105-108 | The entity's new attributes are its old ones overlaid with the non-None entries of the update. |
| `Router.Merge` | fastapi_crud/router.py:55-56 | The merged key set is the union of both key sets. Every override key takes the override's value. Every other key keeps the default's value. |
| `Router.MergeIdempotent` | fastapi_crud/router.py:55-56 | Merging the same override twice is merging it once. |
| `Router.MergeEmptyOverride` | fastapi_crud/router.py:55-56 | An empty override returns the global dictionary unchanged. |
| `Router.MergeAssociative` | fastapi_crud/router.py:55-56 | Merging is associative. |
| `Router.MergeIsShallow` | fastapi_crud/router.py:55-56 | A nested dictionary in the override replaces the global one wholesale. A nested key only the global one has is lost. |
| `Router.ResolveOptions` | fastapi_crud/router.py:55-56 | Resolution raises the TypeError exactly when `routes` or `query` is None. Otherwise, in both merged dictionaries, the key set is the union of the global and per-resource ones, every per-resource value wins, and every other global value is kept. |
| `Router.ResolvedRoutes` | fastapi_crud/router.py:55 | Per-resource route options win and other global route options are kept. No per-resource options give the global ones back. |
| `Router.SoftDeleteResolution` | fastapi_crud/router.py:56 | Over the default global query options, `soft_delete` takes the per-resource value when one is given and `False` otherwise. |
| `Router.ServiceFor` | fastapi_crud/router.py:86 | The controller uses the supplied service when there is one, and the local service otherwise. |

## Left out

- `check_should_paginate` (helper.py:111-117) is left out. It calls the pagination library's parameter resolver and swallows every exception.
- `get_feature` and `get_action` (helper.py:16-21) are left out. They read attributes of the request's framework state.
- The rest of `crud_router` (router.py:58-85 and 87-88) is left out. It creates the router, looks up the backend, subclasses it with hook-forwarding methods and calls the route factory. Those modules are not part of this model.
- The pydantic validation that turns the merged dictionaries into `RoutesModel` and `QueryOptions` is left out. This includes type coercion and unknown keys. Only the dictionaries are modelled.
- The global configuration class (config.py) is not modelled. The delimiter and the global dictionaries are parameters instead. Reading the delimiter before the configuration is initialised raises an AttributeError, which is not modelled.
- JSON decoding is the parameter `parse`. JSON numbers are integers in the model. Floating point is not modelled.
- Delimited.Split requires a non-empty separator, and `FilterToSearch` takes the delimiter as a string. The configured delimiter is `Optional[str]` (models.py:63) and is built from the caller's dictionary (config.py:35), so a None delimiter can reach `split` at helper.py:25, where Python splits on runs of whitespace. That whitespace splitting is not modelled. `FilterToSearch` still models the empty separator, as its ValueError.
- Exception messages are not modelled, only the kind of exception.
- Helper.Find: `fun` is a pure total predicate, so side effects and truthy non-boolean results are not modelled. A matching element that is itself None is indistinguishable from "not found" in Python. The model returns `Some` of it.
- Helper.UpdateEntityAttr: the entity's attributes are a map. Property setters, validation in `setattr`, and the order of assignment are not modelled, and the order cannot matter because keys are distinct.
- Router.ServiceFor: Python's `or` also replaces a supplied service whose truthiness is false (a custom `__bool__` or `__len__`); the model treats every supplied service as truthy. The locally built service is a value parameter, so its freshness is not modelled.
