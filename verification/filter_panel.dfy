/** The client side of the filter query-string convention (`frontend/src/components/FilterPanel.tsx`):
    the operators a filter offers, the filter state (a record from filter id to operator and
    values, kept here as a list of entries in insertion order), reading that state back from
    the page's query string, and writing it into the query string of a data request.
    Query strings are lists of (key, value) pairs, already decoded; the date conversions of
    `datetime` filters are the parameters `fromUnix` and `toUnix`. */
module FilterPanel {
  import opened Wrappers
  import opened Text
  import opened Config
  import Handlers

  // ---------------------------------------------------------------- resolveOperators

  /** The operators other than `eq`, in order. */
  function WithoutEq(ops: seq<string>): (r: seq<string>)
    ensures |r| <= |ops|
    ensures forall op :: op in r <==> op in ops && op != "eq"
  {
    if |ops| == 0 then []
    else WithoutEq(ops[..|ops| - 1]) + (if ops[|ops| - 1] == "eq" then [] else [ops[|ops| - 1]])
  }

  /** Without `eq` there is nothing to remove: the list comes back as it was. */
  lemma {:induction false} WithoutEqKeepsOthers(ops: seq<string>)
    requires "eq" !in ops
    ensures WithoutEq(ops) == ops
  {
    if |ops| > 0 {
      assert "eq" !in ops[..|ops| - 1];
      WithoutEqKeepsOthers(ops[..|ops| - 1]);
    }
  }

  /** `resolveOperators`: the declared operators with `eq` shown as the operator-less `""`
      in front; with none declared, `in` for a `select_multi` filter and `""` otherwise. The list
      is never empty and never holds `eq`. */
  function ResolveOperators(spec: FilterSpec): (r: seq<string>)
    ensures |r| > 0 && "eq" !in r
    ensures |spec.operators| > 0 ==>
      forall op :: op in r <==> (op in spec.operators && op != "eq") || (op == "" && "eq" in spec.operators)
    ensures |spec.operators| > 0 && "eq" in spec.operators ==> r[0] == ""
    ensures |spec.operators| == 0 ==> r == [if spec.ftype == "select_multi" then "in" else ""]
  {
    if |spec.operators| > 0 then
      var ops := WithoutEq(spec.operators);
      if "eq" in spec.operators then [""] + ops
      else
        assert spec.operators[0] in ops;
        ops
    else if spec.ftype == "select_multi" then ["in"]
    else [""]
  }

  /** The operator a filter starts with. */
  function DefaultOperator(spec: FilterSpec): string
  {
    ResolveOperators(spec)[0]
  }

  // ---------------------------------------------------------------- FilterState

  /** One filter's state: the chosen operator (`undefined` is `None`) and its values. */
  datatype FilterEntry = FilterEntry(operator: Option<string>, values: seq<string>)

  type FilterState = seq<(string, FilterEntry)>

  /** The ids of a state, in insertion order. */
  function Ids(state: FilterState): seq<string>
  {
    if |state| == 0 then [] else [state[0].0] + Ids(state[1..])
  }

  /** `state[id]`. */
  function Lookup(state: FilterState, id: string): (r: Option<FilterEntry>)
    ensures r.Some? <==> id in Ids(state)
  {
    if |state| == 0 then None
    else if state[0].0 == id then Some(state[0].1)
    else Lookup(state[1..], id)
  }

  /** `state[id] = entry`: an existing id keeps its place, a new one goes last. */
  function Put(state: FilterState, id: string, entry: FilterEntry): (r: FilterState)
    ensures Lookup(r, id) == Some(entry)
    ensures forall other :: other != id ==> Lookup(r, other) == Lookup(state, other)
    ensures Ids(r) == if id in Ids(state) then Ids(state) else Ids(state) + [id]
  {
    if |state| == 0 then [(id, entry)]
    else if state[0].0 == id then [(id, entry)] + state[1..]
    else
      var r := [state[0]] + Put(state[1..], id, entry);
      assert r[1..] == Put(state[1..], id, entry);
      r
  }

  /** No id twice. */
  predicate Distinct(ids: seq<string>)
  {
    forall i, j :: 0 <= i < j < |ids| ==> ids[i] != ids[j]
  }

  /** The reduce that builds the index. */
  method BuildFilterIndex(specs: seq<FilterSpec>) returns (index: map<string, FilterSpec>)
    ensures index == FilterIndex(specs)
  {
    index := map[];
    for i := 0 to |specs|
      invariant index == FilterIndex(specs[..i])
    {
      assert specs[..i + 1][..i] == specs[..i];
      index := index[specs[i].id := specs[i]];
    }
    assert specs[..|specs|] == specs;
  }

  // ---------------------------------------------------------------- emptyFilterState

  /** What `emptyFilterState` builds: every spec id with its default operator and no values. */
  function EmptyState(specs: seq<FilterSpec>): FilterState
  {
    if |specs| == 0 then []
    else
      var last := specs[|specs| - 1];
      Put(EmptyState(specs[..|specs| - 1]), last.id, FilterEntry(Some(DefaultOperator(last)), []))
  }

  /** In the empty state, each spec id holds the default operator of the (last) spec with that
      id and no values; no other id is present. */
  lemma {:induction false} EmptyStateLookup(specs: seq<FilterSpec>, id: string)
    ensures Lookup(EmptyState(specs), id)
      == if id in FilterIndex(specs) then Some(FilterEntry(Some(DefaultOperator(FilterIndex(specs)[id])), [])) else None
  {
    if |specs| > 0 {
      EmptyStateLookup(specs[..|specs| - 1], id);
    }
  }

  /** The empty state lists each spec id once. */
  lemma {:induction false} EmptyStateDistinct(specs: seq<FilterSpec>)
    ensures Distinct(Ids(EmptyState(specs)))
  {
    if |specs| > 0 {
      var init := specs[..|specs| - 1];
      EmptyStateDistinct(init);
      var ids := Ids(EmptyState(init));
      var id := specs[|specs| - 1].id;
      if id !in ids {
        forall i, j | 0 <= i < j < |ids + [id]|
          ensures (ids + [id])[i] != (ids + [id])[j]
        {
          if j == |ids| {
            assert (ids + [id])[i] == ids[i];
          }
        }
      }
    }
  }

  /** The empty state has exactly one entry per spec id, with the default operator and no values. */
  lemma EmptyStateShape(specs: seq<FilterSpec>)
    ensures Distinct(Ids(EmptyState(specs)))
    ensures forall id :: id in Ids(EmptyState(specs)) <==> id in FilterIndex(specs)
    ensures forall id :: id in FilterIndex(specs) ==>
      Lookup(EmptyState(specs), id) == Some(FilterEntry(Some(DefaultOperator(FilterIndex(specs)[id])), []))
  {
    EmptyStateDistinct(specs);
    forall id
      ensures id in Ids(EmptyState(specs)) <==> id in FilterIndex(specs)
      ensures id in FilterIndex(specs) ==>
        Lookup(EmptyState(specs), id) == Some(FilterEntry(Some(DefaultOperator(FilterIndex(specs)[id])), []))
    {
      EmptyStateLookup(specs, id);
    }
  }

  /** `emptyFilterState`: a reduce over the specs writing into one accumulator. */
  method EmptyFilterState(specs: seq<FilterSpec>) returns (state: FilterState)
    ensures state == EmptyState(specs)
  {
    state := [];
    for i := 0 to |specs|
      invariant state == EmptyState(specs[..i])
    {
      assert specs[..i + 1][..i] == specs[..i];
      state := Put(state, specs[i].id, FilterEntry(Some(DefaultOperator(specs[i])), []));
    }
    assert specs[..|specs|] == specs;
  }

  // ---------------------------------------------------------------- parseFilterParams

  type Params = seq<(string, string)>

  /** The key split at its last `.` into id and operator; no dot means no operator (`undefined`). */
  function KeyParts(key: string): (r: (string, Option<string>))
    ensures '.' !in key ==> r == (key, None)
    ensures '.' in key ==> r.1.Some? && r.0 + "." + r.1.value == key && '.' !in r.1.value
  {
    var dot := LastIndexOf(key, '.');
    if dot == -1 then (key, None)
    else
      assert key == key[..dot] + "." + key[dot + 1..];
      (key[..dot], Some(key[dot + 1..]))
  }

  /** `/^\d+$/`. */
  predicate IsDigits(s: string)
  {
    |s| > 0 && AllDigits(s)
  }

  /** `normalizeFilterValue`: a `datetime` value given as Unix seconds is shown as a local
      date-time (`fromUnix`); every other value is kept. */
  function NormalizeFilterValue(spec: FilterSpec, value: string, fromUnix: string -> string): (r: string)
    ensures spec.ftype != "datetime" ==> r == value
  {
    if spec.ftype != "datetime" then value
    else if IsDigits(value) then fromUnix(value)
    else value
  }

  /** A query-string key that names a known filter: not `limit`/`offset`, with an id in the index. */
  predicate NamesFilter(index: map<string, FilterSpec>, key: string)
  {
    key != "limit" && key != "offset" && KeyParts(key).0 in index
  }

  /** One iteration of `parseFilterParams` on the state and the `hasFilters` flag. */
  function ParseStep(index: map<string, FilterSpec>, acc: (FilterState, bool), param: (string, string),
                     fromUnix: string -> string): (FilterState, bool)
  {
    var (state, hasFilters) := acc;
    var (key, value) := param;
    if !NamesFilter(index, key) then acc
    else
      var (id, operator) := KeyParts(key);
      var spec := index[id];
      var current := match Lookup(state, id)
        case Some(e) => e
        case None => FilterEntry(Some(DefaultOperator(spec)), []);
      var normalized := NormalizeFilterValue(spec, value, fromUnix);
      if normalized == "" then (state, true)
      else
        var op := if operator.Some? then operator else current.operator;
        (Put(state, id, FilterEntry(op, NonEmpty(current.values + [normalized]))), true)
  }

  /** The loop of `parseFilterParams` over the first parameters. */
  function ParseFold(specs: seq<FilterSpec>, params: Params, fromUnix: string -> string): (FilterState, bool)
  {
    if |params| == 0 then (EmptyState(specs), false)
    else ParseStep(FilterIndex(specs), ParseFold(specs, params[..|params| - 1], fromUnix), params[|params| - 1], fromUnix)
  }

  /** What `parseFilterParams` returns. */
  function ParsedState(specs: seq<FilterSpec>, params: Params, fromUnix: string -> string): FilterState
  {
    var (state, hasFilters) := ParseFold(specs, params, fromUnix);
    if hasFilters then state else EmptyState(specs)
  }

  /** `parseFilterParams`: start from the empty state and fold the query string into it. */
  method ParseFilterParams(specs: seq<FilterSpec>, params: Params, fromUnix: string -> string)
    returns (state: FilterState)
    ensures state == ParsedState(specs, params, fromUnix)
  {
    var filterIndex := BuildFilterIndex(specs);
    state := EmptyFilterState(specs);
    var hasFilters := false;
    for i := 0 to |params|
      invariant (state, hasFilters) == ParseFold(specs, params[..i], fromUnix)
    {
      assert params[..i + 1][..i] == params[..i];
      var (key, value) := params[i];
      if key == "limit" || key == "offset" {
        continue;
      }
      var (id, operator) := KeyParts(key);
      if id !in filterIndex {
        continue;
      }
      var spec := filterIndex[id];
      hasFilters := true;
      var current := if Lookup(state, id).Some? then Lookup(state, id).value
                     else FilterEntry(Some(DefaultOperator(spec)), []);
      var normalizedValue := NormalizeFilterValue(spec, value, fromUnix);
      if normalizedValue == "" {
        continue;
      }
      state := Put(state, id, FilterEntry(if operator.Some? then operator else current.operator,
                                          NonEmpty(current.values + [normalizedValue])));
    }
    assert params[..|params|] == params;
    if !hasFilters {
      state := EmptyFilterState(specs);
      return;
    }
  }

  /** The non-empty normalised values given for `id`, in the order they appear. */
  function Collected(specs: seq<FilterSpec>, params: Params, id: string, fromUnix: string -> string): (r: seq<string>)
    requires id in FilterIndex(specs)
    ensures forall v :: v in r ==> v != ""
  {
    if |params| == 0 then []
    else
      var (key, value) := params[|params| - 1];
      var v := NormalizeFilterValue(FilterIndex(specs)[id], value, fromUnix);
      Collected(specs, params[..|params| - 1], id, fromUnix)
        + (if NamesFilter(FilterIndex(specs), key) && KeyParts(key).0 == id && v != "" then [v] else [])
  }

  /** The operator of the last key for `id` that carried a non-empty value and an operator
      suffix, else the default. */
  function ChosenOperator(specs: seq<FilterSpec>, params: Params, id: string, fromUnix: string -> string): Option<string>
    requires id in FilterIndex(specs)
  {
    if |params| == 0 then Some(DefaultOperator(FilterIndex(specs)[id]))
    else
      var (key, value) := params[|params| - 1];
      var v := NormalizeFilterValue(FilterIndex(specs)[id], value, fromUnix);
      if NamesFilter(FilterIndex(specs), key) && KeyParts(key).0 == id && v != "" && KeyParts(key).1.Some?
      then KeyParts(key).1
      else ChosenOperator(specs, params[..|params| - 1], id, fromUnix)
  }

  /** A parameter that names no filter changes nothing; one that does raises the flag. */
  lemma ParseStepFlag(index: map<string, FilterSpec>, acc: (FilterState, bool), param: (string, string),
                      fromUnix: string -> string)
    ensures ParseStep(index, acc, param, fromUnix).1 == (acc.1 || NamesFilter(index, param.0))
    ensures !NamesFilter(index, param.0) ==> ParseStep(index, acc, param, fromUnix) == acc
  {
  }

  /** Reading the query string keeps exactly the ids of the empty state. */
  lemma {:induction false} ParseFoldIds(specs: seq<FilterSpec>, params: Params, fromUnix: string -> string)
    ensures Ids(ParseFold(specs, params, fromUnix).0) == Ids(EmptyState(specs))
  {
    if |params| > 0 {
      var init := params[..|params| - 1];
      ParseFoldIds(specs, init, fromUnix);
      var param := params[|params| - 1];
      ParseStepFlag(FilterIndex(specs), ParseFold(specs, init, fromUnix), param, fromUnix);
      if NamesFilter(FilterIndex(specs), param.0) {
        EmptyStateLookup(specs, KeyParts(param.0).0);
        assert KeyParts(param.0).0 in Ids(ParseFold(specs, init, fromUnix).0);
      }
    }
  }

  /** A parameter for `id` with a non-empty value appends it and may set the operator. */
  lemma ParseStepHit(index: map<string, FilterSpec>, acc: (FilterState, bool), param: (string, string),
                     id: string, e: FilterEntry, fromUnix: string -> string)
    requires id in index && NamesFilter(index, param.0) && KeyParts(param.0).0 == id
    requires Lookup(acc.0, id) == Some(e)
    ensures var v := NormalizeFilterValue(index[id], param.1, fromUnix);
      var op := KeyParts(param.0).1;
      Lookup(ParseStep(index, acc, param, fromUnix).0, id)
        == if v == "" then Some(e) else Some(FilterEntry(if op.Some? then op else e.operator, NonEmpty(e.values + [v])))
  {
  }

  /** A parameter for another id leaves this one alone. */
  lemma ParseStepMiss(index: map<string, FilterSpec>, acc: (FilterState, bool), param: (string, string),
                      id: string, fromUnix: string -> string)
    requires !NamesFilter(index, param.0) || KeyParts(param.0).0 != id
    ensures Lookup(ParseStep(index, acc, param, fromUnix).0, id) == Lookup(acc.0, id)
  {
  }

  /** Each id ends with its values in the order given and the operator of its last suffixed key. */
  lemma {:induction false} ParseFoldTracks(specs: seq<FilterSpec>, params: Params, id: string, fromUnix: string -> string)
    requires id in FilterIndex(specs)
    ensures Lookup(ParseFold(specs, params, fromUnix).0, id)
      == Some(FilterEntry(ChosenOperator(specs, params, id, fromUnix), Collected(specs, params, id, fromUnix)))
  {
    if |params| == 0 {
      EmptyStateLookup(specs, id);
      assert ParseFold(specs, params, fromUnix).0 == EmptyState(specs);
      assert Collected(specs, params, id, fromUnix) == [];
      assert ChosenOperator(specs, params, id, fromUnix) == Some(DefaultOperator(FilterIndex(specs)[id]));
    } else {
      var init := params[..|params| - 1];
      ParseFoldTracks(specs, init, id, fromUnix);
      var index := FilterIndex(specs);
      var acc := ParseFold(specs, init, fromUnix);
      var param := params[|params| - 1];
      var e := FilterEntry(ChosenOperator(specs, init, id, fromUnix), Collected(specs, init, id, fromUnix));
      assert ParseFold(specs, params, fromUnix) == ParseStep(index, acc, param, fromUnix);
      if NamesFilter(index, param.0) && KeyParts(param.0).0 == id {
        ParseStepHit(index, acc, param, id, e, fromUnix);
        var v := NormalizeFilterValue(index[id], param.1, fromUnix);
        if v != "" {
          var values := e.values + [v];
          forall i | 0 <= i < |values|
            ensures values[i] != ""
          {
            if i < |e.values| {
              assert values[i] in e.values;
            }
          }
          NonEmptyKeeps(values);
          assert Collected(specs, params, id, fromUnix) == values;
        } else {
          assert Collected(specs, params, id, fromUnix) == e.values;
        }
      } else {
        ParseStepMiss(index, acc, param, id, fromUnix);
        assert Collected(specs, params, id, fromUnix) == e.values;
        assert ChosenOperator(specs, params, id, fromUnix) == e.operator;
      }
    }
  }

  /** The result has one entry per spec id, holding the values given for it in order and the
      operator of its last suffixed key (else its default). */
  lemma ParsedStateShape(specs: seq<FilterSpec>, params: Params, id: string, fromUnix: string -> string)
    requires id in FilterIndex(specs)
    ensures Ids(ParsedState(specs, params, fromUnix)) == Ids(EmptyState(specs))
    ensures Lookup(ParsedState(specs, params, fromUnix), id)
      == Some(FilterEntry(ChosenOperator(specs, params, id, fromUnix), Collected(specs, params, id, fromUnix)))
  {
    ParseFoldIds(specs, params, fromUnix);
    ParseFoldTracks(specs, params, id, fromUnix);
    if !ParseFold(specs, params, fromUnix).1 {
      NoFilterKeys(specs, params, fromUnix);
    }
  }

  /** Without a key naming a known filter, nothing was read: the state is the empty state. */
  lemma {:induction false} NoFilterKeys(specs: seq<FilterSpec>, params: Params, fromUnix: string -> string)
    requires !ParseFold(specs, params, fromUnix).1
    ensures ParseFold(specs, params, fromUnix).0 == EmptyState(specs)
  {
    if |params| > 0 {
      var init := params[..|params| - 1];
      ParseStepFlag(FilterIndex(specs), ParseFold(specs, init, fromUnix), params[|params| - 1], fromUnix);
      NoFilterKeys(specs, init, fromUnix);
    }
  }

  /** A query string none of whose keys names a known filter (only `limit`, `offset` and
      unknown ids) leaves the flag down, so the result is the empty state. */
  lemma {:induction false} NoFilterKeyGivesEmptyState(specs: seq<FilterSpec>, params: Params, fromUnix: string -> string)
    requires forall i :: 0 <= i < |params| ==> !NamesFilter(FilterIndex(specs), params[i].0)
    ensures !ParseFold(specs, params, fromUnix).1
    ensures ParsedState(specs, params, fromUnix) == EmptyState(specs)
  {
    if |params| > 0 {
      var init := params[..|params| - 1];
      assert forall i :: 0 <= i < |init| ==> init[i] == params[i];
      NoFilterKeyGivesEmptyState(specs, init, fromUnix);
      ParseStepFlag(FilterIndex(specs), ParseFold(specs, init, fromUnix), params[|params| - 1], fromUnix);
    }
  }

  // ---------------------------------------------------------------- appendFilters

  /** `URLSearchParams`, which `appendFilters` appends to in place. */
  class SearchParams {
    var entries: seq<(string, string)>

    constructor ()
      ensures entries == []
    {
      entries := [];
    }

    method Append(key: string, value: string)
      modifies this
      ensures entries == old(entries) + [(key, value)]
    {
      entries := entries + [(key, value)];
    }
  }

  /** `serializeFilterValue`: a `datetime` value that is not already Unix seconds is converted
      (`toUnix`); every other value is kept. */
  function SerializeFilterValue(spec: FilterSpec, value: string, toUnix: string -> string): (r: string)
    ensures spec.ftype != "datetime" || IsDigits(value) ==> r == value
  {
    if spec.ftype != "datetime" then value
    else if IsDigits(value) then value
    else toUnix(value)
  }

  /** The key a filter is written under: the bare id for no operator and for `in` on a
      `select_multi` filter, else `id.op`. */
  function ParamKey(id: string, operator: string, spec: FilterSpec): (r: string)
    ensures r == id <==> operator == "" || (operator == "in" && spec.ftype == "select_multi")
    ensures r != id ==> r == id + "." + operator
  {
    var omitOperator := operator == "in" && spec.ftype == "select_multi";
    if operator != "" && !omitOperator then id + "." + operator else id
  }

  /** Every non-empty value that serialises to something non-empty, under one key. */
  function AllValues(key: string, values: seq<string>, spec: FilterSpec, toUnix: string -> string): (r: Params)
    ensures forall p :: p in r ==> p.0 == key && p.1 != ""
  {
    if |values| == 0 then []
    else
      var v := values[|values| - 1];
      AllValues(key, values[..|values| - 1], spec, toUnix)
        + (if v != "" && SerializeFilterValue(spec, v, toUnix) != "" then [(key, SerializeFilterValue(spec, v, toUnix))] else [])
  }

  /** What `appendFilters` writes for one filter. */
  function FilterParams(index: map<string, FilterSpec>, id: string, filter: FilterEntry, toUnix: string -> string): (r: Params)
    ensures |filter.values| == 0 || id !in index ==> r == []
  {
    if |filter.values| == 0 || id !in index then []
    else
      var spec := index[id];
      var operator := if filter.operator.Some? then filter.operator.value else DefaultOperator(spec);
      var key := ParamKey(id, operator, spec);
      if operator == "between" || spec.ftype == "select_multi" then AllValues(key, filter.values, spec, toUnix)
      else if filter.values[0] != "" && SerializeFilterValue(spec, filter.values[0], toUnix) != ""
      then [(key, SerializeFilterValue(spec, filter.values[0], toUnix))]
      else []
  }

  /** What `appendFilters` writes for the whole state, filter after filter. */
  function StateParams(index: map<string, FilterSpec>, state: FilterState, toUnix: string -> string): Params
  {
    if |state| == 0 then []
    else StateParams(index, state[..|state| - 1], toUnix) + FilterParams(index, state[|state| - 1].0, state[|state| - 1].1, toUnix)
  }

  /** `appendFilters`: each filter's parameters appended, in state order. */
  method AppendFilters(params: SearchParams, filters: FilterState, specs: seq<FilterSpec>, toUnix: string -> string)
    modifies params
    ensures params.entries == old(params.entries) + StateParams(FilterIndex(specs), filters, toUnix)
  {
    var filterIndex := BuildFilterIndex(specs);
    ghost var start := params.entries;
    for i := 0 to |filters|
      invariant params.entries == start + StateParams(filterIndex, filters[..i], toUnix)
    {
      StateParamsStep(filterIndex, filters, i, toUnix);
      ConcatAssoc(start, StateParams(filterIndex, filters[..i], toUnix),
                  FilterParams(filterIndex, filters[i].0, filters[i].1, toUnix));
      AppendFilter(params, filterIndex, filters[i].0, filters[i].1, toUnix);
    }
    assert filters[..|filters|] == filters;
  }

  /** Appending in two steps is appending the two parts at once (the loop's bookkeeping; stated
      on its own because the same fact inside `AppendFilters` is too costly for the solver). */
  lemma ConcatAssoc<T>(a: seq<T>, b: seq<T>, c: seq<T>)
    ensures (a + b) + c == a + (b + c)
  {
  }

  lemma StateParamsStep(index: map<string, FilterSpec>, filters: FilterState, i: nat, toUnix: string -> string)
    requires i < |filters|
    ensures StateParams(index, filters[..i + 1], toUnix)
      == StateParams(index, filters[..i], toUnix) + FilterParams(index, filters[i].0, filters[i].1, toUnix)
  {
    assert filters[..i + 1][..i] == filters[..i];
  }

  /** The body of `appendFilters`' `forEach` for one filter. */
  method AppendFilter(params: SearchParams, filterIndex: map<string, FilterSpec>, id: string, filter: FilterEntry,
                      toUnix: string -> string)
    modifies params
    ensures params.entries == old(params.entries) + FilterParams(filterIndex, id, filter, toUnix)
  {
    if |filter.values| == 0 {
      return;
    }
    if id !in filterIndex {
      return;
    }
    var spec := filterIndex[id];
    var operator := if filter.operator.Some? then filter.operator.value else DefaultOperator(spec);
    var omitOperator := operator == "in" && spec.ftype == "select_multi";
    var key := if operator != "" && !omitOperator then id + "." + operator else id;
    if operator == "between" || spec.ftype == "select_multi" {
      AppendAll(params, key, filter.values, spec, toUnix);
      return;
    }
    if filter.values[0] != "" {
      var serializedValue := SerializeFilterValue(spec, filter.values[0], toUnix);
      if serializedValue != "" {
        params.Append(key, serializedValue);
      }
    }
  }

  /** The `filter.values.forEach` that appends every value of a `between` or `select_multi` filter. */
  method AppendAll(params: SearchParams, key: string, values: seq<string>, spec: FilterSpec, toUnix: string -> string)
    modifies params
    ensures params.entries == old(params.entries) + AllValues(key, values, spec, toUnix)
  {
    ghost var start := params.entries;
    for j := 0 to |values|
      invariant params.entries == start + AllValues(key, values[..j], spec, toUnix)
    {
      assert values[..j + 1][..j] == values[..j];
      var value := values[j];
      if value != "" {
        var serializedValue := SerializeFilterValue(spec, value, toUnix);
        if serializedValue != "" {
          params.Append(key, serializedValue);
        }
      }
    }
    assert values[..|values|] == values;
  }

  /** For a filter other than `between` and `select_multi`, at most one parameter, from the
      first value; for those two, every non-empty value in order (for a non-`datetime` filter,
      exactly the non-empty values). */
  lemma FilterParamsCount(index: map<string, FilterSpec>, id: string, filter: FilterEntry, toUnix: string -> string)
    requires id in index && |filter.values| > 0
    ensures var spec := index[id];
      var operator := if filter.operator.Some? then filter.operator.value else DefaultOperator(spec);
      var r := FilterParams(index, id, filter, toUnix);
      && (forall p :: p in r ==> p.0 == ParamKey(id, operator, spec))
      && (operator != "between" && spec.ftype != "select_multi" ==>
            |r| <= 1 && (|r| == 1 ==> r[0].1 == SerializeFilterValue(spec, filter.values[0], toUnix)))
      && ((operator == "between" || spec.ftype == "select_multi") && spec.ftype != "datetime" ==>
            ParamValues(r) == NonEmpty(filter.values))
  {
    var spec := index[id];
    var operator := if filter.operator.Some? then filter.operator.value else DefaultOperator(spec);
    if (operator == "between" || spec.ftype == "select_multi") && spec.ftype != "datetime" {
      AllValuesPlain(ParamKey(id, operator, spec), filter.values, spec, toUnix);
    }
  }

  function ParamValues(params: Params): seq<string>
  {
    if |params| == 0 then [] else ParamValues(params[..|params| - 1]) + [params[|params| - 1].1]
  }

  lemma {:induction false} ParamValuesConcat(a: Params, b: Params)
    ensures ParamValues(a + b) == ParamValues(a) + ParamValues(b)
  {
    if |b| > 0 {
      assert (a + b)[..|a + b| - 1] == a + b[..|b| - 1];
      ParamValuesConcat(a, b[..|b| - 1]);
    } else {
      assert a + b == a;
    }
  }

  /** Values of a non-`datetime` filter are written unchanged, the empty ones skipped. */
  lemma {:induction false} AllValuesPlain(key: string, values: seq<string>, spec: FilterSpec, toUnix: string -> string)
    requires spec.ftype != "datetime"
    ensures ParamValues(AllValues(key, values, spec, toUnix)) == NonEmpty(values)
  {
    if |values| > 0 {
      var init := values[..|values| - 1];
      var v := values[|values| - 1];
      AllValuesPlain(key, init, spec, toUnix);
      ParamValuesConcat(AllValues(key, init, spec, toUnix), if v != "" then [(key, v)] else []);
    }
  }

  /** The keys written here are read back to the same filter id and operator, by this page
      and by the server, as long as neither the id nor the operator holds a `.`. */
  lemma ParamKeysReadBack(id: string, operator: string, spec: FilterSpec)
    requires '.' !in id && '.' !in operator
    ensures var key := ParamKey(id, operator, spec);
      && KeyParts(key) == (id, if key == id then None else Some(operator))
      && Handlers.SplitKey(key) == (id, if key == id then "" else operator)
  {
    var key := ParamKey(id, operator, spec);
    if key != id {
      assert key[..|id|] == id && key[|id|] == '.' && key[|id| + 1..] == operator;
      assert LastIndexOf(key, '.') == |id|;
    }
  }
}
