/** The request side of the widget-data endpoint (`backend/internal/server/handlers.go`): the
    widget id is read from the path, the widget is looked up in the configuration, and the query
    string becomes a `DataRequest` (limit, cursor and `id.op=value` filters). A query string is
    a sequence of keys, each with its values, in the order the handler reads them. */
module Handlers {
  import opened Wrappers
  import opened Text
  import opened Config
  import opened Providers
  import opened ServerPaths

  type Query = seq<(string, seq<string>)>

  // ---------------------------------------------------------------- parseWidgetID

  predicate IsSlash(c: char)
  {
    c == '/'
  }

  /** `parseWidgetID`: the path must start with the widgets prefix; what follows, without its
      surrounding slashes, is the id, which must be non-empty and contain no `/`. */
  function ParseWidgetID(s: Server, path: string): (r: Option<string>)
    reads s
    ensures r.Some? ==> s.ApiWidgetsPrefix() <= path && r.value != "" && '/' !in r.value
    ensures r.Some? ==> exists a, b :: (forall c :: c in a + b ==> c == '/')
                                       && path == s.ApiWidgetsPrefix() + a + r.value + b
  {
    var prefix := s.ApiWidgetsPrefix();
    if !(prefix <= path) then None
    else
      var rest := TrimPrefix(path, prefix);
      var trimmed := Trim(rest, IsSlash);
      if trimmed == "" || '/' in trimmed then None
      else
        SlashesAroundTrim(prefix, path);
        Some(trimmed)
  }

  /** Text made of slashes only. */
  predicate AllSlashes(x: string)
  {
    forall i :: 0 <= i < |x| ==> x[i] == '/'
  }

  /** Trimming slashes off what follows the prefix removes only slashes, from the two ends. */
  lemma SlashesAroundTrim(prefix: string, path: string)
    requires prefix <= path
    ensures exists a, b :: (forall c :: c in a + b ==> c == '/')
                           && path == prefix + a + Trim(TrimPrefix(path, prefix), IsSlash) + b
  {
    var rest := TrimPrefix(path, prefix);
    var a, b := TrimCuts(rest);
    SlashesJoin(a, b);
    Glue(prefix, path, rest, a, Trim(rest, IsSlash), b);
  }

  /** The slashes a two-sided trim cuts off. */
  lemma TrimCuts(rest: string) returns (a: string, b: string)
    ensures AllSlashes(a) && AllSlashes(b)
    ensures rest == a + Trim(rest, IsSlash) + b
  {
    var left := TrimLeft(rest, IsSlash);
    var right := TrimRight(left, IsSlash);
    a := rest[..|rest| - |left|];
    b := left[|right|..];
    LeadingSlashes(rest);
    TrailingSlashes(left);
    ThreeParts(rest, left, right);
  }

  /** Text is what a cut from the front and a cut from the back leave, put back together. */
  lemma ThreeParts(rest: string, left: string, right: string)
    requires |left| <= |rest| && left == rest[|rest| - |left|..]
    requires |right| <= |left| && right == left[..|right|]
    ensures rest == rest[..|rest| - |left|] + right + left[|right|..]
  {
    assert rest == rest[..|rest| - |left|] + left;
    assert left == right + left[|right|..];
  }

  /** Putting the prefix back in front of the cut parts. */
  lemma Glue(prefix: string, path: string, rest: string, a: string, t: string, b: string)
    requires path == prefix + rest && rest == a + t + b
    ensures path == prefix + a + t + b
  {
  }

  lemma LeadingSlashes(rest: string)
    ensures AllSlashes(rest[..|rest| - |TrimLeft(rest, IsSlash)|])
  {
    TrimLeftDropsOnly(rest, IsSlash);
  }

  lemma TrailingSlashes(left: string)
    ensures AllSlashes(left[|TrimRight(left, IsSlash)|..])
  {
    TrimRightDropsOnly(left, IsSlash);
  }

  lemma SlashesJoin(a: string, b: string)
    requires AllSlashes(a) && AllSlashes(b)
    ensures forall c :: c in a + b ==> c == '/'
  {
    assert AllSlashes(a + b);
  }

  /** Leading slashes are all dropped. */
  lemma {:induction false} TrimLeftSlashes(a: string, x: string)
    requires AllSlashes(a)
    ensures TrimLeft(a + x, IsSlash) == TrimLeft(x, IsSlash)
  {
    if |a| == 0 {
      assert a + x == x;
    } else {
      assert (a + x)[1..] == a[1..] + x;
      TrimLeftSlashes(a[1..], x);
    }
  }

  /** Trailing slashes are all dropped. */
  lemma {:induction false} TrimRightSlashes(x: string, b: string)
    requires AllSlashes(b)
    ensures TrimRight(x + b, IsSlash) == TrimRight(x, IsSlash)
  {
    if |b| == 0 {
      assert x + b == x;
    } else {
      assert (x + b)[..|x + b| - 1] == x + b[..|b| - 1];
      TrimRightSlashes(x, b[..|b| - 1]);
    }
  }

  /** An id with slashes around it, however many, is read back: the converse of
      `ParseWidgetID`'s contract, so `<prefix>//a/` names widget `a`. */
  lemma WidgetPathTrimsSlashes(s: Server, a: string, id: string, b: string)
    requires AllSlashes(a) && AllSlashes(b) && id != "" && '/' !in id
    ensures ParseWidgetID(s, s.ApiWidgetsPrefix() + a + id + b) == Some(id)
  {
    var prefix := s.ApiWidgetsPrefix();
    var path := prefix + a + id + b;
    assert path == prefix + (a + id + b);
    assert TrimPrefix(path, prefix) == a + id + b;
    SlashedIdTrims(a, id, b);
  }

  lemma SlashedIdTrims(a: string, id: string, b: string)
    requires AllSlashes(a) && AllSlashes(b) && id != "" && '/' !in id
    ensures Trim(a + id + b, IsSlash) == id
  {
    assert a + id + b == a + (id + b);
    TrimLeftSlashes(a, id + b);
    IdLeadsKept(id, b);
    TrimRightSlashes(id, b);
    assert TrimRight(id, IsSlash) == id by { assert id[|id| - 1] in id; }
  }

  lemma IdLeadsKept(id: string, b: string)
    requires id != "" && '/' !in id
    ensures TrimLeft(id + b, IsSlash) == id + b
  {
    assert (id + b)[0] == id[0];
    assert id[0] in id;
  }

  /** Text after the prefix that neither starts nor ends with `/` but holds one names no
      widget, so `<prefix>a/b` is refused. */
  lemma WidgetPathRejectsInnerSlash(s: Server, x: string)
    requires x != "" && x[0] != '/' && x[|x| - 1] != '/' && '/' in x
    ensures ParseWidgetID(s, s.ApiWidgetsPrefix() + x).None?
  {
    var prefix := s.ApiWidgetsPrefix();
    assert TrimPrefix(prefix + x, prefix) == x;
    TrimOfTrimmed(x, IsSlash);
  }

  /** The two paths `<prefix>//a/` and `<prefix>a/b`. */
  lemma WidgetPathExamples(s: Server)
    ensures ParseWidgetID(s, s.ApiWidgetsPrefix() + "//a/") == Some("a")
    ensures ParseWidgetID(s, s.ApiWidgetsPrefix() + "a/b").None?
  {
    assert s.ApiWidgetsPrefix() + "//a/" == s.ApiWidgetsPrefix() + "//" + "a" + "/";
    WidgetPathTrimsSlashes(s, "//", "a", "/");
    WidgetPathRejectsInnerSlash(s, "a/b");
  }

  /** A widget's route gives its id back, with or without a trailing slash. */
  lemma WidgetPathRoundTrip(s: Server, id: string)
    requires id != "" && '/' !in id
    ensures ParseWidgetID(s, s.ApiWidgetsPrefix() + id) == Some(id)
    ensures ParseWidgetID(s, s.ApiWidgetsPrefix() + id + "/") == Some(id)
  {
    var prefix := s.ApiWidgetsPrefix();
    TrimOfTrimmed(id, IsSlash);
    assert TrimPrefix(prefix + id, prefix) == id;
    var slashed := id + "/";
    assert TrimPrefix(prefix + id + "/", prefix) == slashed;
    assert slashed[..|slashed| - 1] == id;
    assert TrimLeft(slashed, IsSlash) == slashed;
  }

  /** Paths outside the widgets prefix, and the bare prefix itself, name no widget. */
  lemma NoWidgetOutsidePrefix(s: Server, path: string)
    ensures !(s.ApiWidgetsPrefix() <= path) ==> ParseWidgetID(s, path).None?
    ensures ParseWidgetID(s, s.ApiWidgetsPrefix()).None?
  {
    assert TrimPrefix(s.ApiWidgetsPrefix(), s.ApiWidgetsPrefix()) == "";
  }

  // ---------------------------------------------------------------- findWidget

  /** The configured widgets, page after page. */
  function AllWidgets(pages: seq<Page>): seq<Widget>
  {
    if |pages| == 0 then [] else AllWidgets(pages[..|pages| - 1]) + pages[|pages| - 1].widgets
  }

  /** The index of the first widget with the id, or -1 when there is none. */
  function FirstMatch(widgets: seq<Widget>, id: string): (k: int)
    ensures -1 <= k < |widgets|
    ensures k >= 0 ==> widgets[k].id == id
    ensures forall j :: 0 <= j < |widgets| && (k < 0 || j < k) ==> widgets[j].id != id
  {
    if |widgets| == 0 then -1
    else if widgets[0].id == id then 0
    else
      var k := FirstMatch(widgets[1..], id);
      if k < 0 then -1 else k + 1
  }

  /** The zero widget Go returns alongside `false`. */
  const NoWidget := Widget("", ProviderSpec("", None), None)

  lemma AllWidgetsStep(pages: seq<Page>, i: nat)
    requires i < |pages|
    ensures AllWidgets(pages[..i + 1]) == AllWidgets(pages[..i]) + pages[i].widgets
  {
    assert pages[..i + 1][..i] == pages[..i];
  }

  /** `findWidget`: the first widget with the id in page-then-widget order. */
  method FindWidget(s: Server, id: string) returns (w: Widget, ok: bool)
    ensures var all := AllWidgets(s.cfg.pages); var k := FirstMatch(all, id);
      ok == (k >= 0) && w == (if ok then all[k] else NoWidget)
  {
    var pages := s.cfg.pages;
    for i := 0 to |pages|
      invariant forall j :: 0 <= j < |AllWidgets(pages[..i])| ==> AllWidgets(pages[..i])[j].id != id
    {
      var page := pages[i];
      AllWidgetsStep(pages, i);
      for j := 0 to |page.widgets|
        invariant forall m :: 0 <= m < j ==> page.widgets[m].id != id
      {
        var widget := page.widgets[j];
        if widget.id == id {
          FoundAt(pages, i, j, id);
          return widget, true;
        }
      }
    }
    assert pages[..|pages|] == pages;
    return NoWidget, false;
  }

  /** A match at widget `j` of page `i`, after none earlier, is the first match overall. */
  lemma FoundAt(pages: seq<Page>, i: nat, j: nat, id: string)
    requires i < |pages| && j < |pages[i].widgets| && pages[i].widgets[j].id == id
    requires forall m :: 0 <= m < |AllWidgets(pages[..i])| ==> AllWidgets(pages[..i])[m].id != id
    requires forall m :: 0 <= m < j ==> pages[i].widgets[m].id != id
    ensures var all := AllWidgets(pages); var k := FirstMatch(all, id);
      k >= 0 && all[k] == pages[i].widgets[j]
  {
    var before := AllWidgets(pages[..i]);
    AllWidgetsStep(pages, i);
    AllWidgetsPrefix(pages, i + 1);
    var all := AllWidgets(pages);
    var n := |before| + j;
    assert all[n] == pages[i].widgets[j];
    var k := FirstMatch(all, id);
    assert forall m :: 0 <= m < n ==> all[m].id != id by {
      forall m | 0 <= m < n
        ensures all[m].id != id
      {
        if m < |before| {
          assert all[m] == before[m];
        } else {
          assert all[m] == pages[i].widgets[m - |before|];
        }
      }
    }
    assert k == n;
  }

  /** The widgets of the first pages come first. */
  lemma {:induction false} AllWidgetsPrefix(pages: seq<Page>, i: nat)
    requires i <= |pages|
    ensures AllWidgets(pages[..i]) <= AllWidgets(pages)
  {
    if i < |pages| {
      AllWidgetsPrefix(pages[..|pages| - 1], i);
      assert pages[..|pages| - 1][..i] == pages[..i];
    } else {
      assert pages[..i] == pages;
    }
  }

  // ---------------------------------------------------------------- parseFilters

  /** The key split at its last `.` into filter name and operator; no dot means no operator. */
  function SplitKey(key: string): (r: (string, string))
    ensures '.' !in key ==> r == (key, "")
    ensures '.' in key ==> r.0 + "." + r.1 == key && '.' !in r.1
  {
    var dot := LastIndexOf(key, '.');
    if dot == -1 then (key, "")
    else
      var r := (key[..dot], key[dot + 1..]);
      assert key == key[..dot] + "." + key[dot + 1..];
      r
  }

  /** An entry that yields a filter: not `limit` or `offset`, with values, and a non-empty name. */
  predicate Accepted(entry: (string, seq<string>))
  {
    entry.0 != "limit" && entry.0 != "offset" && |entry.1| > 0 && SplitKey(entry.0).0 != ""
  }

  /** The (name, operator) pairs of the accepted entries, each once, in order of first
      appearance. */
  function FilterKeys(query: Query): (r: seq<(string, string)>)
    ensures |r| <= |query|
    ensures forall i, j :: 0 <= i < j < |r| ==> r[i] != r[j]
    ensures forall i :: 0 <= i < |query| && Accepted(query[i]) ==> SplitKey(query[i].0) in r
  {
    if |query| == 0 then []
    else
      var keys := FilterKeys(query[..|query| - 1]);
      var e := query[|query| - 1];
      if Accepted(e) && SplitKey(e.0) !in keys then keys + [SplitKey(e.0)] else keys
  }

  /** Every key comes from an accepted entry. */
  lemma {:induction false} FilterKeysFromEntries(query: Query, k: (string, string))
    requires k in FilterKeys(query)
    ensures exists i :: 0 <= i < |query| && Accepted(query[i]) && SplitKey(query[i].0) == k
  {
    var init := query[..|query| - 1];
    if k in FilterKeys(init) {
      FilterKeysFromEntries(init, k);
      var i :| 0 <= i < |init| && Accepted(init[i]) && SplitKey(init[i].0) == k;
      assert query[i] == init[i];
    } else {
      assert Accepted(query[|query| - 1]);
    }
  }

  /** All the non-empty values of the entries with this (name, operator), in order. */
  function Gathered(query: Query, k: (string, string)): (r: seq<string>)
    ensures forall v :: v in r ==> v != ""
  {
    if |query| == 0 then []
    else
      var e := query[|query| - 1];
      Gathered(query[..|query| - 1], k) + (if Accepted(e) && SplitKey(e.0) == k then NonEmpty(e.1) else [])
  }

  /** What `parseFilters` returns, keyed by the (name, operator) pair rather than by the joined
      string of the code (the two agree unless a name contains `|`, `AsWrittenAgreesWithoutPipes`):
      one filter per pair, in order of first appearance, holding every non-empty value given
      for it. */
  function ParsedFilters(query: Query): (r: seq<Filter>)
    ensures |r| == |FilterKeys(query)| <= |query|
  {
    var keys := FilterKeys(query);
    seq(|keys|, i requires 0 <= i < |keys| => Filter(keys[i].0, keys[i].1, Gathered(query, keys[i])))
  }

  /** `parseFilters` with the pair key: one pass over the query filling a map from
      (name, operator) to its filter and remembering first appearances, then the filters in
      that order. */
  method ParseFilters(query: Query) returns (filters: seq<Filter>)
    ensures filters == ParsedFilters(query)
  {
    var byKey: map<(string, string), Filter> := map[];
    var order: seq<(string, string)> := [];
    for i := 0 to |query|
      invariant Indexed(byKey, order, query[..i])
    {
      byKey, order := ReadEntry(byKey, order, query, i);
    }
    assert query[..|query|] == query;
    filters := InOrder(byKey, order);
    IndexedFilters(byKey, order, query, filters);
  }

  /** One turn of the first loop of `parseFilters`: `limit`, `offset`, a key without values
      and a key without a name are skipped; any other key adds its values to its pair's filter. */
  method ReadEntry(byKey: map<(string, string), Filter>, order: seq<(string, string)>, query: Query, i: nat)
    returns (byKey': map<(string, string), Filter>, order': seq<(string, string)>)
    requires i < |query| && Indexed(byKey, order, query[..i])
    ensures Indexed(byKey', order', query[..i + 1])
  {
    var (key, values) := query[i];
    if key == "limit" || key == "offset" {
      SkipEntry(byKey, order, query, i);
      return byKey, order;
    }
    if |values| == 0 {
      SkipEntry(byKey, order, query, i);
      return byKey, order;
    }
    var (name, operator) := SplitKey(key);
    if name == "" {
      SkipEntry(byKey, order, query, i);
      return byKey, order;
    }
    var mapKey := (name, operator);
    assert Accepted(query[i]) && SplitKey(query[i].0) == mapKey;
    AddEntry(byKey, order, query, i);
    assert mapKey in byKey ==> byKey[mapKey] == Filter(name, operator, Gathered(query[..i], mapKey));
    byKey', order' := AddValues(byKey, order, mapKey, values);
  }

  /** The body of the loop for an accepted entry: the pair's filter, created on first sight,
      gets the entry's non-empty values appended. */
  method AddValues(byKey: map<(string, string), Filter>, order: seq<(string, string)>,
                   mapKey: (string, string), values: seq<string>)
    returns (byKey': map<(string, string), Filter>, order': seq<(string, string)>)
    requires mapKey in byKey ==> byKey[mapKey].name == mapKey.0 && byKey[mapKey].operator == mapKey.1
    ensures var oldValues := if mapKey in byKey then byKey[mapKey].values else [];
      byKey' == byKey[mapKey := Filter(mapKey.0, mapKey.1, oldValues + NonEmpty(values))]
    ensures order' == if mapKey in byKey then order else order + [mapKey]
  {
    var filter: Filter;
    order' := order;
    if mapKey in byKey {
      filter := byKey[mapKey];
    } else {
      filter := Filter(mapKey.0, mapKey.1, []);
      order' := order + [mapKey];
    }
    var gathered := AppendValues(filter.values, values);
    byKey' := byKey[mapKey := filter.(values := gathered)];
  }

  /** The final loop of `parseFilters`: the gathered filters in order of first appearance. */
  method InOrder(byKey: map<(string, string), Filter>, order: seq<(string, string)>) returns (filters: seq<Filter>)
    requires forall k :: k in order ==> k in byKey
    ensures |filters| == |order|
    ensures forall j :: 0 <= j < |order| ==> filters[j] == byKey[order[j]]
  {
    filters := [];
    for i := 0 to |order|
      invariant |filters| == i
      invariant forall j :: 0 <= j < i ==> filters[j] == byKey[order[j]]
    {
      filters := filters + [byKey[order[i]]];
    }
  }

  /** Reading the map in key order after the whole query gives the parsed filters. */
  lemma IndexedFilters(byKey: map<(string, string), Filter>, order: seq<(string, string)>, query: Query,
                       filters: seq<Filter>)
    requires Indexed(byKey, order, query)
    requires |filters| == |order| && forall j :: 0 <= j < |order| ==> filters[j] == byKey[order[j]]
    ensures filters == ParsedFilters(query)
  {
    var r := ParsedFilters(query);
    forall j | 0 <= j < |order|
      ensures filters[j] == r[j]
    {
      assert order[j] in byKey;
    }
  }

  /** The inner loop of `parseFilters`: the non-empty values appended in order. */
  method AppendValues(acc: seq<string>, values: seq<string>) returns (r: seq<string>)
    ensures r == acc + NonEmpty(values)
  {
    r := acc;
    for j := 0 to |values|
      invariant r == acc + NonEmpty(values[..j])
    {
      assert values[..j + 1][..j] == values[..j];
      if values[j] == "" {
        continue;
      }
      r := r + [values[j]];
    }
    assert values[..|values|] == values;
  }

  /** The state of `parseFilters` after reading `query`: the keys in order of first appearance,
      and for each the filter gathered so far. */
  ghost predicate Indexed(byKey: map<(string, string), Filter>, order: seq<(string, string)>, query: Query)
  {
    && order == FilterKeys(query)
    && (forall k :: k in byKey <==> k in order)
    && (forall k :: k in byKey ==> byKey[k] == Filter(k.0, k.1, Gathered(query, k)))
  }

  lemma SkipEntry(byKey: map<(string, string), Filter>, order: seq<(string, string)>, query: Query, i: nat)
    requires i < |query| && !Accepted(query[i]) && Indexed(byKey, order, query[..i])
    ensures Indexed(byKey, order, query[..i + 1])
  {
    EntryStep(query, i);
  }

  lemma AddEntry(byKey: map<(string, string), Filter>, order: seq<(string, string)>, query: Query, i: nat)
    requires i < |query| && Accepted(query[i]) && Indexed(byKey, order, query[..i])
    ensures var k := SplitKey(query[i].0);
      var old_values := if k in byKey then byKey[k].values else [];
      Indexed(byKey[k := Filter(k.0, k.1, old_values + NonEmpty(query[i].1))],
              if k in byKey then order else order + [k], query[..i + 1])
  {
    AddEntryKeys(byKey, order, query, i);
    AddEntryGathered(byKey, order, query, i);
  }

  /** Accepting an entry adds its pair to the keys when it is new. */
  lemma AddEntryKeys(byKey: map<(string, string), Filter>, order: seq<(string, string)>, query: Query, i: nat)
    requires i < |query| && Accepted(query[i]) && Indexed(byKey, order, query[..i])
    ensures var k := SplitKey(query[i].0);
      var newOrder := if k in byKey then order else order + [k];
      newOrder == FilterKeys(query[..i + 1]) && forall k2 :: k2 in byKey || k2 == k <==> k2 in newOrder
  {
    EntryStep(query, i);
  }

  /** Accepting an entry appends its non-empty values to its pair, and to no other. */
  lemma AddEntryGathered(byKey: map<(string, string), Filter>, order: seq<(string, string)>, query: Query, i: nat)
    requires i < |query| && Accepted(query[i]) && Indexed(byKey, order, query[..i])
    ensures var k := SplitKey(query[i].0);
      var oldValues := if k in byKey then byKey[k].values else [];
      var newByKey := byKey[k := Filter(k.0, k.1, oldValues + NonEmpty(query[i].1))];
      forall k2 :: k2 in newByKey ==> newByKey[k2] == Filter(k2.0, k2.1, Gathered(query[..i + 1], k2))
  {
    var e := query[i];
    var k := SplitKey(e.0);
    var oldValues := if k in byKey then byKey[k].values else [];
    if k !in byKey {
      GatheredOutsideKeys(query[..i], k);
    }
    var newByKey := byKey[k := Filter(k.0, k.1, oldValues + NonEmpty(e.1))];
    forall k2 | k2 in newByKey
      ensures newByKey[k2] == Filter(k2.0, k2.1, Gathered(query[..i + 1], k2))
    {
      GatheredStep(query, i, k2);
    }
  }

  /** Reading one more entry extends what a pair has gathered by that entry's values alone. */
  lemma GatheredStep(query: Query, i: nat, k: (string, string))
    requires i < |query|
    ensures Gathered(query[..i + 1], k) == Gathered(query[..i], k)
      + (if Accepted(query[i]) && SplitKey(query[i].0) == k then NonEmpty(query[i].1) else [])
  {
    assert query[..i + 1][..i] == query[..i];
  }

  /** A pair no accepted entry produced has gathered nothing. */
  lemma {:induction false} GatheredOutsideKeys(query: Query, k: (string, string))
    requires k !in FilterKeys(query)
    ensures Gathered(query, k) == []
  {
    if |query| > 0 {
      GatheredOutsideKeys(query[..|query| - 1], k);
    }
  }

  /** Reading one more entry extends the keys and the gathered values by that entry alone. */
  lemma EntryStep(query: Query, i: nat)
    requires i < |query|
    ensures var e := query[i]; var p := query[..i + 1];
      && FilterKeys(p) == (if Accepted(e) && SplitKey(e.0) !in FilterKeys(query[..i])
                           then FilterKeys(query[..i]) + [SplitKey(e.0)] else FilterKeys(query[..i]))
      && forall k :: Gathered(p, k) == Gathered(query[..i], k)
                     + (if Accepted(e) && SplitKey(e.0) == k then NonEmpty(e.1) else [])
  {
    assert query[..i + 1][..i] == query[..i];
  }

  /** No two filters share a name and an operator, each comes from an entry other than
      `limit`/`offset` with a non-empty name, and none holds an empty value. */
  lemma ParsedFiltersWellFormed(query: Query)
    ensures var fs := ParsedFilters(query);
      forall i, j :: 0 <= i < j < |fs| ==> (fs[i].name, fs[i].operator) != (fs[j].name, fs[j].operator)
    ensures forall f :: f in ParsedFilters(query) ==> f.name != "" && forall v :: v in f.values ==> v != ""
    ensures forall f :: f in ParsedFilters(query) ==>
      exists i :: 0 <= i < |query| && query[i].0 != "limit" && query[i].0 != "offset"
                  && SplitKey(query[i].0) == (f.name, f.operator)
  {
    var keys := FilterKeys(query);
    var fs := ParsedFilters(query);
    forall f | f in fs
      ensures f.name != ""
      ensures exists i :: 0 <= i < |query| && query[i].0 != "limit" && query[i].0 != "offset"
                  && SplitKey(query[i].0) == (f.name, f.operator)
    {
      var n :| 0 <= n < |fs| && fs[n] == f;
      FilterKeysFromEntries(query, keys[n]);
    }
  }

  /** Each accepted entry lands in the filter of its (name, operator). */
  lemma AcceptedEntriesBecomeFilters(query: Query, i: nat)
    requires i < |query| && Accepted(query[i])
    ensures exists f :: f in ParsedFilters(query) && (f.name, f.operator) == SplitKey(query[i].0)
  {
    var keys := FilterKeys(query);
    var n :| 0 <= n < |keys| && keys[n] == SplitKey(query[i].0);
    assert ParsedFilters(query)[n].name == keys[n].0;
  }

  // ---------------------------------------------------------------- the same, keyed by a string

  /** The map key `parseFilters` actually uses: name and operator joined by `|`. */
  function StringKey(k: (string, string)): string
  {
    k.0 + "|" + k.1
  }

  /** The string keys of the accepted entries, each once, in order of first appearance. */
  function StringKeys(query: Query): (r: seq<string>)
    ensures |r| <= |query|
  {
    if |query| == 0 then []
    else
      var keys := StringKeys(query[..|query| - 1]);
      var e := query[|query| - 1];
      var sk := StringKey(SplitKey(e.0));
      if Accepted(e) && sk !in keys then keys + [sk] else keys
  }

  /** The (name, operator) of the first accepted entry with this string key. */
  function FirstSplit(query: Query, sk: string): (string, string)
  {
    if |query| == 0 then ("", "")
    else if Accepted(query[0]) && StringKey(SplitKey(query[0].0)) == sk then SplitKey(query[0].0)
    else FirstSplit(query[1..], sk)
  }

  /** All the non-empty values of the entries with this string key, in order. */
  function GatheredByString(query: Query, sk: string): seq<string>
  {
    if |query| == 0 then []
    else
      var e := query[|query| - 1];
      GatheredByString(query[..|query| - 1], sk)
        + (if Accepted(e) && StringKey(SplitKey(e.0)) == sk then NonEmpty(e.1) else [])
  }

  /** `parseFilters` as written: filters are merged by the joined string, so two different
      (name, operator) pairs that join to the same string share one filter. */
  function ParsedFiltersAsWritten(query: Query): (r: seq<Filter>)
    ensures |r| == |StringKeys(query)|
  {
    var keys := StringKeys(query);
    seq(|keys|, i requires 0 <= i < |keys| =>
      var k := FirstSplit(query, keys[i]);
      Filter(k.0, k.1, GatheredByString(query, keys[i])))
  }

  /** `x|y` (no operator) and `x.y|` (name `x`, operator `y|`) both join to `x|y|`. */
  lemma CollidingKeys()
    ensures SplitKey("x|y") == ("x|y", "") && SplitKey("x.y|") == ("x", "y|")
    ensures StringKey(SplitKey("x|y")) == StringKey(SplitKey("x.y|"))
  {
    assert LastIndexOf("x|y", '.') == -1;
    var k := "x.y|";
    assert LastIndexOf(k, '.') == 1;
    assert k[..1] == "x" && k[2..] == "y|";
  }

  /** As written, the second key's values go into the first key's filter, under the first
      key's name and operator. */
  lemma JoinedKeysCollide()
    ensures ParsedFiltersAsWritten([("x|y", ["1"]), ("x.y|", ["2"])]) == [Filter("x|y", "", ["1", "2"])]
  {
    var q: Query := [("x|y", ["1"]), ("x.y|", ["2"])];
    CollidingKeys();
    assert NonEmpty(["1"]) == ["1"] && NonEmpty(["2"]) == ["2"];
    assert q[..1] == [("x|y", ["1"])];
    assert StringKey(("x|y", "")) == "x|y|";
    assert StringKeys(q[..1]) == ["x|y|"];
    assert StringKeys(q) == ["x|y|"];
    assert FirstSplit(q, "x|y|") == ("x|y", "");
    assert GatheredByString(q, "x|y|") == ["1", "2"];
  }

  /** Keyed by the pair, each key keeps its own filter. */
  lemma PairKeysKeptApart()
    ensures ParsedFilters([("x|y", ["1"]), ("x.y|", ["2"])])
      == [Filter("x|y", "", ["1"]), Filter("x", "y|", ["2"])]
  {
    var q: Query := [("x|y", ["1"]), ("x.y|", ["2"])];
    CollidingKeys();
    assert NonEmpty(["1"]) == ["1"] && NonEmpty(["2"]) == ["2"];
    assert q[..1] == [("x|y", ["1"])];
    assert FilterKeys(q) == [("x|y", ""), ("x", "y|")];
    assert Gathered(q, ("x|y", "")) == ["1"];
    assert Gathered(q, ("x", "y|")) == ["2"];
  }

  /** No accepted entry's filter name contains `|`: the joined key is then unambiguous. */
  predicate NoPipeInNames(query: Query)
  {
    forall i :: 0 <= i < |query| && Accepted(query[i]) ==> '|' !in SplitKey(query[i].0).0
  }

  /** Without a `|` in the names, joining name and operator with `|` loses nothing. */
  lemma StringKeyInjective(a: (string, string), b: (string, string))
    requires '|' !in a.0 && '|' !in b.0
    requires StringKey(a) == StringKey(b)
    ensures a == b
  {
    var s := StringKey(a);
    if |a.0| < |b.0| {
      PipeInLongerName(a, b);
      assert false;
    } else if |b.0| < |a.0| {
      PipeInLongerName(b, a);
      assert false;
    } else {
      assert a.0 == s[..|a.0|] == b.0;
      assert a.1 == s[|a.0| + 1..] == b.1;
    }
  }

  /** Of two names joined to the same key, the longer one holds the shorter one's `|`. */
  lemma PipeInLongerName(a: (string, string), b: (string, string))
    requires |a.0| < |b.0| && StringKey(a) == StringKey(b)
    ensures '|' in b.0
  {
    var s := StringKey(a);
    assert s[|a.0|] == '|' && s[|a.0|] == b.0[|a.0|];
  }

  lemma NoPipeInNamesPrefix(query: Query)
    requires |query| > 0 && NoPipeInNames(query)
    ensures NoPipeInNames(query[..|query| - 1])
  {
    var init := query[..|query| - 1];
    forall i | 0 <= i < |init| && Accepted(init[i])
      ensures '|' !in SplitKey(init[i].0).0
    {
      assert init[i] == query[i];
    }
  }

  /** Every pair key of such a query has a name without `|`. */
  lemma KeyNameWithoutPipe(query: Query, k: (string, string))
    requires NoPipeInNames(query) && k in FilterKeys(query)
    ensures '|' !in k.0
  {
    FilterKeysFromEntries(query, k);
  }

  /** The string keys are the pair keys, joined, in the same order. */
  lemma {:induction false} StringKeysArePairKeys(query: Query)
    requires NoPipeInNames(query)
    ensures |StringKeys(query)| == |FilterKeys(query)|
    ensures forall i :: 0 <= i < |FilterKeys(query)| ==> StringKeys(query)[i] == StringKey(FilterKeys(query)[i])
  {
    if |query| > 0 {
      var init := query[..|query| - 1];
      NoPipeInNamesPrefix(query);
      StringKeysArePairKeys(init);
      var e := query[|query| - 1];
      var k := SplitKey(e.0);
      var keys := FilterKeys(init);
      var sks := StringKeys(init);
      if Accepted(e) {
        if k in keys {
          var j :| 0 <= j < |keys| && keys[j] == k;
          assert sks[j] == StringKey(k);
        } else if StringKey(k) in sks {
          var j :| 0 <= j < |sks| && sks[j] == StringKey(k);
          KeyNameWithoutPipe(init, keys[j]);
          StringKeyInjective(keys[j], k);
        }
      }
    }
  }

  /** The values gathered under a joined key are those gathered under its pair. */
  lemma {:induction false} GatheredByStringIsGathered(query: Query, k: (string, string))
    requires NoPipeInNames(query) && '|' !in k.0
    ensures GatheredByString(query, StringKey(k)) == Gathered(query, k)
  {
    if |query| > 0 {
      NoPipeInNamesPrefix(query);
      GatheredByStringIsGathered(query[..|query| - 1], k);
      var e := query[|query| - 1];
      if Accepted(e) && StringKey(SplitKey(e.0)) == StringKey(k) {
        StringKeyInjective(SplitKey(e.0), k);
      }
    }
  }

  /** The first entry with a joined key is the first entry with its pair. */
  lemma {:induction false} FirstSplitFindsPair(query: Query, k: (string, string), i: nat)
    requires NoPipeInNames(query) && '|' !in k.0
    requires i < |query| && Accepted(query[i]) && SplitKey(query[i].0) == k
    ensures FirstSplit(query, StringKey(k)) == k
  {
    if Accepted(query[0]) && StringKey(SplitKey(query[0].0)) == StringKey(k) {
      StringKeyInjective(SplitKey(query[0].0), k);
    } else {
      var rest := query[1..];
      assert i > 0 && rest[i - 1] == query[i];
      forall j | 0 <= j < |rest| && Accepted(rest[j])
        ensures '|' !in SplitKey(rest[j].0).0
      {
        assert rest[j] == query[j + 1];
      }
      FirstSplitFindsPair(rest, k, i - 1);
    }
  }

  /** When no filter name contains `|`, the joined key of handlers.go and the pair key give the
      same filters: the two models of `parseFilters` differ only on colliding keys. */
  lemma AsWrittenAgreesWithoutPipes(query: Query)
    requires NoPipeInNames(query)
    ensures ParsedFiltersAsWritten(query) == ParsedFilters(query)
    ensures MakeDataRequest(query).filters == ParsedFiltersAsWritten(query)
  {
    StringKeysArePairKeys(query);
    var keys := FilterKeys(query);
    var written := ParsedFiltersAsWritten(query);
    var parsed := ParsedFilters(query);
    forall n | 0 <= n < |keys|
      ensures written[n] == parsed[n]
    {
      var k := keys[n];
      FilterKeysFromEntries(query, k);
      var i :| 0 <= i < |query| && Accepted(query[i]) && SplitKey(query[i].0) == k;
      FirstSplitFindsPair(query, k, i);
      GatheredByStringIsGathered(query, k);
    }
  }

  // ---------------------------------------------------------------- parseInt and the request

  const DefaultLimit: int := 50

  /** `parseInt`: the decimal integer the text spells (optional sign, int64 range), else the
      fallback. */
  function ParseInt(value: string, fallback: int): (r: int)
    ensures ParseInt64(value).Some? ==> r == ParseInt64(value).value
    ensures ParseInt64(value).None? ==> r == fallback
  {
    if value == "" then fallback
    else
      match ParseInt64(value)
      case None => fallback
      case Some(n) => n
  }

  /** Printing an integer and reading it back gives the integer. */
  lemma ParseIntRoundTrip(n: int, fallback: int)
    requires MinInt64 <= n <= MaxInt64
    ensures ParseInt(IntToDecimal(n), fallback) == n
  {
    ParseIntToDecimal(n);
  }

  /** `url.Values.Get`: the first value of the key, `""` when it is absent or has none. */
  function Get(query: Query, key: string): (r: string)
    ensures forall i :: 0 <= i < |query| && query[i].0 == key && (forall j :: 0 <= j < i ==> query[j].0 != key)
                        ==> r == (if |query[i].1| > 0 then query[i].1[0] else "")
    ensures (forall i :: 0 <= i < |query| ==> query[i].0 != key) ==> r == ""
  {
    if |query| == 0 then ""
    else if query[0].0 == key then (if |query[0].1| > 0 then query[0].1[0] else "")
    else
      var r := Get(query[1..], key);
      assert forall i :: 1 <= i < |query| ==> query[i] == query[1..][i - 1];
      r
  }

  /** The `DataRequest` the handler builds: the `limit` value when it reads as an int64, else
      50; the cursor from `offset`; and the filters. */
  function MakeDataRequest(query: Query): (r: DataRequest)
    ensures ParseInt64(Get(query, "limit")).Some? ==> r.limit == ParseInt64(Get(query, "limit")).value
    ensures ParseInt64(Get(query, "limit")).None? ==> r.limit == DefaultLimit
    ensures r.cursor == Get(query, "offset")
    ensures r.filters == ParsedFilters(query)
  {
    DataRequest(ParseInt(Get(query, "limit"), DefaultLimit), Get(query, "offset"), ParsedFilters(query))
  }

  /** A query whose first `limit` entry starts with the decimal form of an int64 asks for that
      many rows, and one whose first `offset` entry starts with a value resumes after it. */
  lemma RequestReadsFirstValues(query: Query, i: nat, n: int, k: nat)
    requires i < |query| && query[i].0 == "limit" && (forall j :: 0 <= j < i ==> query[j].0 != "limit")
    requires |query[i].1| > 0 && query[i].1[0] == IntToDecimal(n) && MinInt64 <= n <= MaxInt64
    requires k < |query| && query[k].0 == "offset" && (forall j :: 0 <= j < k ==> query[j].0 != "offset")
    requires |query[k].1| > 0
    ensures MakeDataRequest(query).limit == n
    ensures MakeDataRequest(query).cursor == query[k].1[0]
  {
    ParseIntToDecimal(n);
  }

  /** Without a usable `limit` the page size is 50; without `offset` the first page is asked for. */
  lemma RequestDefaults(query: Query)
    ensures ParseInt64(Get(query, "limit")).None? ==> MakeDataRequest(query).limit == 50
    ensures (forall i :: 0 <= i < |query| ==> query[i].0 != "offset") ==> MakeDataRequest(query).cursor == ""
  {
  }
}
