/**
 * The query-filter language of fastapi_crud/helper.py: filter tokens of the
 * form `field<delim>operator<delim>value`, their combination into one search
 * tree, and the two small utilities `find` and `update_entity_attr`.
 */
module Helper {
  import opened Wrappers
  import opened JsonValues
  import opened Delimited


  /** The exceptions the modelled code raises. */
  datatype Error =
    | EmptySeparator    // ValueError: `str.split` with an empty separator
    | MissingOperator   // IndexError: the token has no second part
    | UnexpectedKeyword // TypeError: `filter_to_search` called with `delim=`
    | NoneHasNoAppend   // AttributeError: `append` on a `search_list` that is None
    | NoneHasNoLen      // TypeError: `len` of a `search_list` that is None

  /** The value under a predicate's operator: the token's text, `None` or `True`. */
  datatype Operand = Text(text: string) | NoneValue | TrueValue

  /**
   * A search tree. `Pred(f, o, v)` stands for `{f: {o: v}}`, `And(ts)` for
   * `{"$and": ts}`, `Or(ts)` for `{"$or": ts}`, and `Raw(j)` for a value taken
   * over unchanged: a decoded JSON search, an option filter or an auth filter.
   */
  datatype Search =
    | Pred(field: string, op: string, operand: Operand)
    | And(terms: seq<Search>)
    | Or(terms: seq<Search>)
    | Raw(json: Json)

  /** The operators whose operand is always `True`. */
  const NullOperators: set<string> := {"$isnull", "$notnull"}

  /** The delimiter the configuration uses unless told otherwise. */
  const DefaultDelim: string := "||"

  // ---------------------------------------------------------------------
  // find
  // ---------------------------------------------------------------------

  /** The first element of `data` that `fun` accepts, or None when there is none. */
  method Find<T>(data: seq<T>, fun: T -> bool) returns (r: Option<T>)
    ensures r.None? <==> forall i :: 0 <= i < |data| ==> !fun(data[i])
    ensures r.Some? ==>
      exists i :: 0 <= i < |data| && data[i] == r.value && fun(data[i]) &&
        forall j :: 0 <= j < i ==> !fun(data[j])
  {
    for i := 0 to |data|
      invariant forall j :: 0 <= j < i ==> !fun(data[j])
    {
      if fun(data[i]) {
        return Some(data[i]);
      }
    }
    return None;
  }

  // ---------------------------------------------------------------------
  // filter_to_search
  // ---------------------------------------------------------------------

  /** One filter token turned into a predicate `{field: {operator: value}}`. */
  function FilterToSearch(token: string, delim: string): (r: Result<Search, Error>)
    ensures |delim| == 0 ==> r == Failure(EmptySeparator)
    ensures |delim| > 0 && Free(token, delim) ==> r == Failure(MissingOperator)
    ensures r.Success? <==> |delim| > 0 && !Free(token, delim)
    ensures r.Success? ==>
      && r.value.Pred?
      && (r.value.operand == TrueValue <==> r.value.op in NullOperators)
  {
    if |delim| == 0 then Failure(EmptySeparator)
    else
      var parts := Split(token, delim);
      SplitSingle(token, delim);
      if |parts| < 2 then Failure(MissingOperator)
      else
        var field, op := parts[0], parts[1];
        var value := if |parts| == 3 then Text(parts[2]) else NoneValue;
        if op in NullOperators then Success(Pred(field, op, TrueValue))
        else Success(Pred(field, op, value))
  }

  /** Joining three parts puts the delimiter between each neighbouring pair. */
  lemma JoinThree(field: string, op: string, value: string, delim: string)
    ensures Join([field, op, value], delim) == field + delim + op + delim + value
  {
    var parts := [field, op, value];
    assert parts[1..] == [op, value] && parts[1..][1..] == [value];
    assert Join([value], delim) == value;
    assert Join([op, value], delim) == op + delim + value;
    assert Join(parts, delim) == field + delim + Join([op, value], delim);
  }

  /** A token of exactly three parts yields `{field: {op: value}}`, or `True` for a null operator. */
  lemma FilterThreeParts(token: string, delim: string, field: string, op: string, value: string)
    requires |delim| > 0 && Split(token, delim) == [field, op, value]
    ensures FilterToSearch(token, delim) ==
      Success(Pred(field, op, if op in NullOperators then TrueValue else Text(value)))
  {
  }

  /** Two parts, or four and more, give the operand `None` (or `True` for a null operator). */
  lemma FilterOtherArity(token: string, delim: string)
    requires |delim| > 0
    requires var n := |Split(token, delim)|; n == 2 || n >= 4
    ensures var parts := Split(token, delim);
      FilterToSearch(token, delim) ==
        Success(Pred(parts[0], parts[1], if parts[1] in NullOperators then TrueValue else NoneValue))
  {
  }

  /**
   * Rendering a predicate as a token and parsing it gives the predicate back,
   * for every field and operator the splitter can cut off and every value
   * without a delimiter in it.
   */
  lemma FilterRoundTrip(field: string, op: string, value: string, delim: string)
    requires |delim| > 0 && op !in NullOperators
    requires Separable(field, delim) && Separable(op, delim) && Free(value, delim)
    ensures FilterToSearch(field + delim + op + delim + value, delim) == Success(Pred(field, op, Text(value)))
  {
    JoinThree(field, op, value, delim);
    SplitJoin([field, op, value], delim);
  }

  /** A predicate with a text operand came from exactly the token that renders it. */
  lemma FilterInverse(token: string, delim: string, field: string, op: string, value: string)
    requires FilterToSearch(token, delim) == Success(Pred(field, op, Text(value)))
    ensures token == field + delim + op + delim + value
  {
    var parts := Split(token, delim);
    assert parts == [field, op, value];
    JoinThree(field, op, value, delim);
  }

  /** `name||$eq||bob` with the default delimiter. */
  lemma ExampleEquality()
    ensures FilterToSearch("name||$eq||bob", DefaultDelim) == Success(Pred("name", "$eq", Text("bob")))
  {
    assert "name||$eq||bob" == "name" + DefaultDelim + "$eq" + DefaultDelim + "bob";
    AvoidsFirstChar("name", DefaultDelim);
    AvoidsFirstChar("$eq", DefaultDelim);
    AvoidsFirstChar("bob", DefaultDelim);
    FilterRoundTrip("name", "$eq", "bob", DefaultDelim);
  }

  /**
   * Rendering a predicate without a value as `field<delim>op` and parsing it
   * gives the field and operator back, with the operand `True` for a null
   * operator and `None` for any other.
   */
  lemma FilterRoundTripNoValue(field: string, op: string, delim: string)
    requires |delim| > 0 && Separable(field, delim) && Free(op, delim)
    ensures FilterToSearch(field + delim + op, delim) ==
      Success(Pred(field, op, if op in NullOperators then TrueValue else NoneValue))
  {
    var parts := [field, op];
    assert parts[1..] == [op];
    assert Join(parts, delim) == field + delim + op;
    SplitJoin(parts, delim);
  }

  /** `deleted_at||$isnull` with the default delimiter: two parts, operand `True`. */
  lemma ExampleNullCheck()
    ensures FilterToSearch("deleted_at||$isnull", DefaultDelim) == Success(Pred("deleted_at", "$isnull", TrueValue))
  {
    assert "deleted_at||$isnull" == "deleted_at" + DefaultDelim + "$isnull";
    AvoidsFirstChar("deleted_at", DefaultDelim);
    AvoidsFirstChar("$isnull", DefaultDelim);
    FilterRoundTripNoValue("deleted_at", "$isnull", DefaultDelim);
  }

  /** A token without the delimiter has no operator and raises. */
  lemma ExampleNoOperator()
    ensures FilterToSearch("name", DefaultDelim) == Failure(MissingOperator)
  {
    AvoidsFirstChar("name", DefaultDelim);
  }

  // ---------------------------------------------------------------------
  // list(map(filter_to_search, tokens))
  // ---------------------------------------------------------------------

  /** `terms` are the tokens' predicates, one per token, in the tokens' order. */
  predicate ParsedInOrder(terms: seq<Search>, tokens: seq<string>, delim: string) {
    |terms| == |tokens| &&
    forall i :: 0 <= i < |tokens| ==> FilterToSearch(tokens[i], delim) == Success(terms[i])
  }

  /** Every token parses. */
  predicate AllParse(tokens: seq<string>, delim: string) {
    forall i :: 0 <= i < |tokens| ==> FilterToSearch(tokens[i], delim).Success?
  }

  /**
   * `list(map(f, xs))` for an `f` that may raise: every result in order, or
   * the error of the first element on which `f` raises.
   */
  function MapAll<A, B, E>(xs: seq<A>, f: A -> Result<B, E>): (r: Result<seq<B>, E>)
    ensures r.Success? ==> |r.value| == |xs| && forall i :: 0 <= i < |xs| ==> f(xs[i]) == Success(r.value[i])
    ensures r.Success? <==> forall i :: 0 <= i < |xs| ==> f(xs[i]).Success?
    ensures r.Failure? ==>
      exists i :: 0 <= i < |xs| && f(xs[i]) == Failure(r.error) &&
        forall j :: 0 <= j < i ==> f(xs[j]).Success?
  {
    if xs == [] then Success([])
    else
      match f(xs[0])
      case Failure(e) => Failure(e)
      case Success(y) =>
        match MapAll(xs[1..], f)
        case Failure(e) =>
          assert forall i :: 0 <= i < |xs| - 1 ==> xs[1..][i] == xs[i + 1];
          Failure(e)
        case Success(ys) =>
          assert forall i :: 0 <= i < |xs| - 1 ==> xs[1..][i] == xs[i + 1];
          Success([y] + ys)
  }

  /** The results `MapAll` returns are the only ones that match the elements one by one. */
  lemma {:induction false} MapAllExact<A, B, E>(xs: seq<A>, f: A -> Result<B, E>, ys: seq<B>)
    requires |ys| == |xs| && forall i :: 0 <= i < |xs| ==> f(xs[i]) == Success(ys[i])
    ensures MapAll(xs, f) == Success(ys)
  {
    if xs != [] {
      assert forall i :: 0 <= i < |xs| - 1 ==> xs[1..][i] == xs[i + 1] && ys[1..][i] == ys[i + 1];
      MapAllExact(xs[1..], f, ys[1..]);
      assert ys == [ys[0]] + ys[1..];
    }
  }

  /** `list(map(filter_to_search, tokens))`. */
  function ParseAll(tokens: seq<string>, delim: string): (r: Result<seq<Search>, Error>)
    ensures r.Success? ==> ParsedInOrder(r.value, tokens, delim)
    ensures r.Success? <==> AllParse(tokens, delim)
  {
    MapAll(tokens, (t: string) => FilterToSearch(t, delim))
  }

  /** The parse of a token list is the one list of predicates that matches it. */
  lemma ParseAllExact(terms: seq<Search>, tokens: seq<string>, delim: string)
    requires ParsedInOrder(terms, tokens, delim)
    ensures ParseAll(tokens, delim) == Success(terms)
  {
    MapAllExact(tokens, (t: string) => FilterToSearch(t, delim), terms);
  }

  // ---------------------------------------------------------------------
  // build_query_search
  // ---------------------------------------------------------------------

  /** The arguments of `build_query_search`, each of which may be None. */
  datatype SearchInputs = SearchInputs(
    searchSpec: Option<string>,
    ors: Option<seq<string>>,
    filters: Option<seq<string>>,
    optionFilter: Option<Dict>,
    authFilter: Option<Dict>)

  /** Python truthiness of an optional string: present and non-empty. */
  predicate HasText(s: Option<string>) {
    s.Some? && s.value != ""
  }

  /** Python truthiness of an optional list of tokens: present and non-empty. */
  predicate HasTokens(tokens: Option<seq<string>>) {
    tokens.Some? && tokens.value != []
  }

  /** Python truthiness of an optional dictionary: present and non-empty. */
  predicate HasEntries(d: Option<Dict>) {
    d.Some? && d.value != map[]
  }

  /** No argument at all is truthy. */
  predicate NothingGiven(inputs: SearchInputs) {
    && !HasText(inputs.searchSpec)
    && !HasTokens(inputs.filters)
    && !HasTokens(inputs.ors)
    && !HasEntries(inputs.optionFilter)
    && !HasEntries(inputs.authFilter)
  }

  /** The option filter and then the auth filter, each when truthy. */
  function Extras(inputs: SearchInputs): seq<Search> {
    (if HasEntries(inputs.optionFilter) then [Raw(JObject(inputs.optionFilter.value))] else [])
    + (if HasEntries(inputs.authFilter) then [Raw(JObject(inputs.authFilter.value))] else [])
  }

  /**
   * The terms the search string, the filters and the ors contribute, before
   * the extra filters are added; `Some(None)` stands for a `search_list` that
   * is None because the search string did not decode.
   */
  function PrimaryTerms(parse: string -> Option<Json>, delim: string, inputs: SearchInputs)
    : Result<Option<seq<Search>>, Error>
  {
    if HasText(inputs.searchSpec) then
      match parse(inputs.searchSpec.value)
      case Some(j) => Success(Some([Raw(j)]))
      case None => Success(None)
    else if HasTokens(inputs.filters) && HasTokens(inputs.ors) then
      if |inputs.filters.value| == 1 && |inputs.ors.value| == 1 then Failure(UnexpectedKeyword)
      else
        var fs :- ParseAll(inputs.filters.value, delim);
        var os :- ParseAll(inputs.ors.value, delim);
        Success(Some([Or([And(fs), And(os)])]))
    else if HasTokens(inputs.filters) then
      var fs :- ParseAll(inputs.filters.value, delim);
      Success(Some(fs))
    else if HasTokens(inputs.ors) then
      if |inputs.ors.value| == 1 then
        var o :- FilterToSearch(inputs.ors.value[0], delim);
        Success(Some([o]))
      else
        var os :- ParseAll(inputs.ors.value, delim);
        Success(Some([Or(os)]))
    else
      Success(Some([]))
  }

  /**
   * The search `build_query_search` returns: the primary terms followed by
   * the extras, under one `$and`, or None when there are no terms at all.
   */
  function QuerySearch(parse: string -> Option<Json>, delim: string, inputs: SearchInputs)
    : Result<Option<Search>, Error>
  {
    match PrimaryTerms(parse, delim, inputs)
    case Failure(e) => Failure(e)
    case Success(None) =>
      Failure(if HasEntries(inputs.optionFilter) || HasEntries(inputs.authFilter)
              then NoneHasNoAppend else NoneHasNoLen)
    case Success(Some(terms)) =>
      var all := terms + Extras(inputs);
      if all == [] then Success(None) else Success(Some(And(all)))
  }

  /**
   * The first half of `build_query_search`: `search_list` from the search
   * string, the filters and the ors, before the extras are appended.
   */
  method PrimarySearchList(parse: string -> Option<Json>, delim: string, inputs: SearchInputs)
    returns (r: Result<Option<seq<Search>>, Error>)
    ensures r == PrimaryTerms(parse, delim, inputs)
  {
    var searchList: Option<seq<Search>> := Some([]);
    if HasText(inputs.searchSpec) {
      var decoded := parse(inputs.searchSpec.value);
      if decoded.Some? {
        searchList := Some([Raw(decoded.value)]);
      } else {
        searchList := None;
      }
    } else if HasTokens(inputs.filters) && HasTokens(inputs.ors) {
      if |inputs.filters.value| == 1 && |inputs.ors.value| == 1 {
        return Failure(UnexpectedKeyword);
      }
      var fs := ParseAll(inputs.filters.value, delim);
      if fs.Failure? {
        return Failure(fs.error);
      }
      var os := ParseAll(inputs.ors.value, delim);
      if os.Failure? {
        return Failure(os.error);
      }
      searchList := Some([Or([And(fs.value), And(os.value)])]);
    } else if HasTokens(inputs.filters) {
      var fs := ParseAll(inputs.filters.value, delim);
      if fs.Failure? {
        return Failure(fs.error);
      }
      searchList := Some(fs.value);
    } else if HasTokens(inputs.ors) {
      if |inputs.ors.value| == 1 {
        var o := FilterToSearch(inputs.ors.value[0], delim);
        if o.Failure? {
          return Failure(o.error);
        }
        searchList := Some([o.value]);
      } else {
        var os := ParseAll(inputs.ors.value, delim);
        if os.Failure? {
          return Failure(os.error);
        }
        searchList := Some([Or(os.value)]);
      }
    }
    return Success(searchList);
  }

  /**
   * `build_query_search`: the primary terms, then each truthy extra filter
   * appended, then everything under one `$and` when the list is not empty.
   */
  method BuildQuerySearch(parse: string -> Option<Json>, delim: string, inputs: SearchInputs)
    returns (r: Result<Option<Search>, Error>)
    ensures r == QuerySearch(parse, delim, inputs)
  {
    var search: Option<Search> := None;
    var primary := PrimarySearchList(parse, delim, inputs);
    if primary.Failure? {
      return Failure(primary.error);
    }
    var searchList := primary.value;
    ghost var added: seq<Search> := [];
    if HasEntries(inputs.optionFilter) {
      if searchList.None? {
        return Failure(NoneHasNoAppend);
      }
      added := [Raw(JObject(inputs.optionFilter.value))];
      searchList := Some(searchList.value + [Raw(JObject(inputs.optionFilter.value))]);
    }
    assert searchList.Some? ==> searchList.value == primary.value.value + added;
    if HasEntries(inputs.authFilter) {
      if searchList.None? {
        return Failure(NoneHasNoAppend);
      }
      searchList := Some(searchList.value + [Raw(JObject(inputs.authFilter.value))]);
      added := added + [Raw(JObject(inputs.authFilter.value))];
    }
    assert added == Extras(inputs);
    if searchList.None? {
      return Failure(NoneHasNoLen);
    }
    assert searchList.value == primary.value.value + Extras(inputs);
    if |searchList.value| > 0 {
      search := Some(And(searchList.value));
    }
    return Success(search);
  }

  /** A truthy search string decides the result: the filters and ors are not looked at. */
  lemma SearchSpecTakesPrecedence(parse: string -> Option<Json>, delim: string, inputs: SearchInputs,
                                  ors: Option<seq<string>>, filters: Option<seq<string>>)
    requires HasText(inputs.searchSpec)
    ensures QuerySearch(parse, delim, inputs) ==
      QuerySearch(parse, delim, inputs.(ors := ors, filters := filters))
  {
  }

  /** A search string that decodes becomes the first term, followed by the extras. */
  lemma SearchSpecDecoded(parse: string -> Option<Json>, delim: string, inputs: SearchInputs)
    requires HasText(inputs.searchSpec) && parse(inputs.searchSpec.value).Some?
    ensures QuerySearch(parse, delim, inputs) ==
      Success(Some(And([Raw(parse(inputs.searchSpec.value).value)] + Extras(inputs))))
  {
  }

  /** A search string that does not decode is not swallowed: the call fails whatever else is given. */
  lemma SearchSpecInvalid(parse: string -> Option<Json>, delim: string, inputs: SearchInputs)
    requires HasText(inputs.searchSpec) && parse(inputs.searchSpec.value).None?
    ensures QuerySearch(parse, delim, inputs) ==
      Failure(if HasEntries(inputs.optionFilter) || HasEntries(inputs.authFilter)
              then NoneHasNoAppend else NoneHasNoLen)
  {
  }

  /** Filters alone: their predicates in input order, then the extras; or the first token's error. */
  lemma FiltersOnly(parse: string -> Option<Json>, delim: string, inputs: SearchInputs)
    requires !HasText(inputs.searchSpec) && HasTokens(inputs.filters) && !HasTokens(inputs.ors)
    ensures forall ps :: ParsedInOrder(ps, inputs.filters.value, delim) ==>
      QuerySearch(parse, delim, inputs) == Success(Some(And(ps + Extras(inputs))))
    ensures QuerySearch(parse, delim, inputs).Success? <==> AllParse(inputs.filters.value, delim)
    ensures !AllParse(inputs.filters.value, delim) ==>
      QuerySearch(parse, delim, inputs) == Failure(ParseAll(inputs.filters.value, delim).error)
  {
    forall ps | ParsedInOrder(ps, inputs.filters.value, delim)
      ensures QuerySearch(parse, delim, inputs) == Success(Some(And(ps + Extras(inputs))))
    {
      ParseAllExact(ps, inputs.filters.value, delim);
    }
  }

  /** Ors alone: one token gives its predicate as a term, several give one `$or` of them in order. */
  lemma OrsOnly(parse: string -> Option<Json>, delim: string, inputs: SearchInputs)
    requires !HasText(inputs.searchSpec) && !HasTokens(inputs.filters) && HasTokens(inputs.ors)
    ensures |inputs.ors.value| == 1 && FilterToSearch(inputs.ors.value[0], delim).Success? ==>
      QuerySearch(parse, delim, inputs) ==
        Success(Some(And([FilterToSearch(inputs.ors.value[0], delim).value] + Extras(inputs))))
    ensures |inputs.ors.value| > 1 ==>
      forall ps :: ParsedInOrder(ps, inputs.ors.value, delim) ==>
        QuerySearch(parse, delim, inputs) == Success(Some(And([Or(ps)] + Extras(inputs))))
    ensures QuerySearch(parse, delim, inputs).Success? <==> AllParse(inputs.ors.value, delim)
  {
    if |inputs.ors.value| > 1 {
      forall ps | ParsedInOrder(ps, inputs.ors.value, delim)
        ensures QuerySearch(parse, delim, inputs) == Success(Some(And([Or(ps)] + Extras(inputs))))
      {
        ParseAllExact(ps, inputs.ors.value, delim);
      }
    }
  }

  /**
   * Filters and ors together: one `$or` of exactly two `$and` groups, each of
   * its own list's predicates in order; one filter with one or raises.
   */
  lemma FiltersAndOrs(parse: string -> Option<Json>, delim: string, inputs: SearchInputs)
    requires !HasText(inputs.searchSpec) && HasTokens(inputs.filters) && HasTokens(inputs.ors)
    ensures |inputs.filters.value| == 1 && |inputs.ors.value| == 1 ==>
      QuerySearch(parse, delim, inputs) == Failure(UnexpectedKeyword)
    ensures !(|inputs.filters.value| == 1 && |inputs.ors.value| == 1) ==>
      forall fs, os :: ParsedInOrder(fs, inputs.filters.value, delim) && ParsedInOrder(os, inputs.ors.value, delim) ==>
        QuerySearch(parse, delim, inputs) == Success(Some(And([Or([And(fs), And(os)])] + Extras(inputs))))
    ensures !(|inputs.filters.value| == 1 && |inputs.ors.value| == 1) ==>
      (QuerySearch(parse, delim, inputs).Success? <==>
        AllParse(inputs.filters.value, delim) && AllParse(inputs.ors.value, delim))
    ensures !(|inputs.filters.value| == 1 && |inputs.ors.value| == 1) && !AllParse(inputs.filters.value, delim) ==>
      QuerySearch(parse, delim, inputs) == Failure(ParseAll(inputs.filters.value, delim).error)
    ensures !(|inputs.filters.value| == 1 && |inputs.ors.value| == 1) &&
            AllParse(inputs.filters.value, delim) && !AllParse(inputs.ors.value, delim) ==>
      QuerySearch(parse, delim, inputs) == Failure(ParseAll(inputs.ors.value, delim).error)
  {
    if !(|inputs.filters.value| == 1 && |inputs.ors.value| == 1) {
      forall fs, os | ParsedInOrder(fs, inputs.filters.value, delim) && ParsedInOrder(os, inputs.ors.value, delim)
        ensures QuerySearch(parse, delim, inputs) == Success(Some(And([Or([And(fs), And(os)])] + Extras(inputs))))
      {
        ParseAllExact(fs, inputs.filters.value, delim);
        ParseAllExact(os, inputs.ors.value, delim);
      }
    }
  }

  /**
   * Whatever the primary shape, a search is one `$and` with a non-empty list
   * whose last elements are the option filter and then the auth filter.
   */
  lemma ExtrasComeLast(parse: string -> Option<Json>, delim: string, inputs: SearchInputs)
    requires QuerySearch(parse, delim, inputs).Success? && QuerySearch(parse, delim, inputs).value.Some?
    ensures var t := QuerySearch(parse, delim, inputs).value.value;
      && t.And?
      && |t.terms| > 0
      && |Extras(inputs)| <= |t.terms|
      && t.terms[|t.terms| - |Extras(inputs)|..] == Extras(inputs)
  {
  }

  /** The result is None exactly when no argument is truthy. */
  lemma NoneIffNothingGiven(parse: string -> Option<Json>, delim: string, inputs: SearchInputs)
    ensures QuerySearch(parse, delim, inputs) == Success(None) <==> NothingGiven(inputs)
  {
  }

  // ---------------------------------------------------------------------
  // update_entity_attr
  // ---------------------------------------------------------------------

  /** An object whose attributes `setattr` writes. */
  class Entity<V> {
    var attrs: map<string, V>

    constructor (attrs: map<string, V>)
      ensures this.attrs == attrs
    {
      this.attrs := attrs;
    }
  }

  /** The entries of `update` whose value is not None. */
  function Assigned<V>(update: map<string, Option<V>>): map<string, V> {
    map k | k in update && update[k].Some? :: update[k].value
  }

  /**
   * Overlaying the assigned entries sets exactly the keys whose value is not
   * None and leaves every other attribute as it was.
   */
  lemma AssignedOverlay<V>(attrs: map<string, V>, update: map<string, Option<V>>)
    ensures forall k :: k in update && update[k].Some? ==>
      k in attrs + Assigned(update) && (attrs + Assigned(update))[k] == update[k].value
    ensures forall k :: k !in update || update[k].None? ==>
      (k in attrs + Assigned(update) <==> k in attrs) &&
      (k in attrs ==> (attrs + Assigned(update))[k] == attrs[k])
  {
  }

  /** Taking one more key of the update into account assigns it exactly when its value is not None. */
  lemma AssignedStep<V>(update: map<string, Option<V>>, pending: set<string>, key: string)
    requires key in pending && pending <= update.Keys
    ensures Assigned(update - (pending - {key})) ==
      if update[key].Some? then Assigned(update - pending)[key := update[key].value]
      else Assigned(update - pending)
  {
  }

  /** `update_entity_attr`: `setattr` for every key whose value is not None. */
  method UpdateEntityAttr<V>(entity: Entity<V>, update: map<string, Option<V>>)
    modifies entity
    ensures entity.attrs == old(entity.attrs) + Assigned(update)
  {
    var pending := update.Keys;
    while pending != {}
      invariant pending <= update.Keys
      invariant entity.attrs == old(entity.attrs) + Assigned(update - pending)
      decreases pending
    {
      var key :| key in pending;
      AssignedStep(update, pending, key);
      if update[key].Some? {
        entity.attrs := entity.attrs[key := update[key].value];
      }
      pending := pending - {key};
    }
    assert update - pending == update;
  }
}
