/** The catalog page in the browser: the state read from the first URL, the
    query string built from that state, the address bar, and the list of
    items that a first fetch replaces and "load more" extends. */
module CatalogClient {
  import opened Wrappers
  import opened Strings
  import opened Numbers
  import opened UrlParams
  import opened Campaigns
  import opened FiltersBar
  import SearchQuery
  import CampaignsRoute

  /** The query text, the sort key and the filters the page holds. */
  datatype ClientState = ClientState(query: string, sort: string, filters: Filters)

  /** A search parameter that is truthy: present and not empty. */
  function Present(ps: seq<Entry>, key: string): (r: Option<string>)
    ensures r.Some? <==> Get(ps, key).Some? && Get(ps, key).value != []
    ensures r.Some? ==> r.value == Get(ps, key).value
  {
    match Get(ps, key)
    case None => None
    case Some(v) => if v == [] then None else Some(v)
  }

  /** `p ? String(p).split(",").filter(Boolean) : []`. */
  function ListParam(ps: seq<Entry>, key: string): (r: seq<string>)
    ensures forall i :: 0 <= i < |r| ==> r[i] != [] && ',' !in r[i]
  {
    match Present(ps, key)
    case None => []
    case Some(v) => ParseList(v, ',')
  }

  /** `p ? Number(p) : undefined`. */
  function NumberParam(ps: seq<Entry>, key: string): (r: Option<Num>)
    ensures r.None? <==> Present(ps, key).None?
  {
    match Present(ps, key)
    case None => None
    case Some(v) => Some(ToNumber(v))
  }

  /** The `useState` initialisers of `CatalogClient`: the state the page
      starts from. */
  function InitialState(ps: seq<Entry>): (s: ClientState)
    ensures Present(ps, "query").None? ==> s.query == ""
    ensures Present(ps, "sort").None? ==> s.sort == "popular"
    ensures Present(ps, "tags").None? ==> s.filters.tags == []
    ensures Present(ps, "statuses").None? ==> s.filters.statuses == []
    ensures WellFormed(s)
  {
    ClientState(
      query := Present(ps, "query").GetOr(""),
      sort := Present(ps, "sort").GetOr("popular"),
      filters := Filters(
        tags := ListParam(ps, "tags"),
        durationMin := NumberParam(ps, "durationMin"),
        durationMax := NumberParam(ps, "durationMax"),
        playersMin := NumberParam(ps, "playersMin"),
        playersMax := NumberParam(ps, "playersMax"),
        age := Present(ps, "age"),
        statuses := ListParam(ps, "statuses")))
  }

  /** A state the query string can carry: a sort that is not empty, list
      entries that are not empty and hold no comma, an age that is not empty. */
  predicate WellFormed(s: ClientState)
  {
    && s.sort != []
    && (forall i :: 0 <= i < |s.filters.tags| ==> s.filters.tags[i] != [] && ',' !in s.filters.tags[i])
    && (forall i :: 0 <= i < |s.filters.statuses| ==> s.filters.statuses[i] != [] && ',' !in s.filters.statuses[i])
    && (s.filters.age.Some? ==> s.filters.age.value != [])
  }

  // ---------------------------------------------------------------------
  // buildQuery

  /** A number is truthy when it is neither 0 nor NaN. */
  predicate Truthy(n: Num)
  {
    n.Int? && n.value != 0
  }

  /** `String(n)` of a defined number; unused when undefined. */
  function NumText(o: Option<Num>): string
  {
    if o.Some? then ToText(o.value) else ""
  }

  /** One `if (cond) params.set(key, value)` of `buildQuery`. */
  datatype Slot = Slot(cond: bool, key: string, value: string)

  /** The names in the order `buildQuery` sets them. */
  const KeyOrder: seq<string> :=
    ["query", "sort", "tags", "durationMin", "durationMax", "playersMin", "playersMax", "age", "statuses", "page"]

  /** The ten `set` calls of `buildQuery(extra)`, in order; `page` is `extra?.page`. */
  function Slots(s: ClientState, page: Option<Num>): (r: seq<Slot>)
    ensures |r| == |KeyOrder|
    ensures forall i :: 0 <= i < |r| ==> r[i].key == KeyOrder[i]
  {
    var f := s.filters;
    [ Slot(s.query != [], "query", s.query),
      Slot(s.sort != [] && s.sort != "popular", "sort", s.sort),
      Slot(|f.tags| > 0, "tags", Join(f.tags, ',')),
      Slot(f.durationMin.Some?, "durationMin", NumText(f.durationMin)),
      Slot(f.durationMax.Some?, "durationMax", NumText(f.durationMax)),
      Slot(f.playersMin.Some?, "playersMin", NumText(f.playersMin)),
      Slot(f.playersMax.Some?, "playersMax", NumText(f.playersMax)),
      Slot(f.age.Some? && f.age.value != [], "age", f.age.GetOr([])),
      Slot(|f.statuses| > 0, "statuses", Join(f.statuses, ',')),
      Slot(page.Some? && Truthy(page.value), "page", NumText(page)) ]
  }

  /** The entries the `set` calls leave, each on a name not set before. */
  function Emit(slots: seq<Slot>): (r: seq<Entry>)
    ensures |r| <= |slots|
    ensures forall e :: e in r ==> exists i :: 0 <= i < |slots| && slots[i] == Slot(true, e.0, e.1)
  {
    if slots == [] then []
    else
      var last := slots[|slots| - 1];
      var init := slots[..|slots| - 1];
      assert forall i :: 0 <= i < |init| ==> init[i] == slots[i];
      Emit(init) + (if last.cond then [(last.key, last.value)] else [])
  }

  /** The query of a state: `buildQuery`'s entries in order. */
  function QueryPairs(s: ClientState, page: Option<Num>): seq<Entry>
  {
    Emit(Slots(s, page))
  }

  /** No two calls set the same name. */
  predicate DistinctKeys(slots: seq<Slot>)
  {
    forall i, j :: 0 <= i < j < |slots| ==> slots[i].key != slots[j].key
  }

  /** The position of a name in `KeyOrder`. */
  function Rank(key: string): (r: nat)
    ensures key in KeyOrder ==> r < |KeyOrder| && KeyOrder[r] == key
  {
    if key == "query" then 0
    else if key == "sort" then 1
    else if key == "tags" then 2
    else if key == "durationMin" then 3
    else if key == "durationMax" then 4
    else if key == "playersMin" then 5
    else if key == "playersMax" then 6
    else if key == "age" then 7
    else if key == "statuses" then 8
    else 9
  }

  /** Each name's rank is its place in `KeyOrder`. */
  lemma {:induction false} RankOfKeyOrder()
    ensures forall i :: 0 <= i < |KeyOrder| ==> Rank(KeyOrder[i]) == i
  {
  }

  lemma {:induction false} SlotsDistinct(s: ClientState, page: Option<Num>)
    ensures DistinctKeys(Slots(s, page))
  {
    var sl := Slots(s, page);
    RankOfKeyOrder();
    forall i, j | 0 <= i < j < |sl|
      ensures sl[i].key != sl[j].key
    {
      assert sl[i].key == KeyOrder[i] && sl[j].key == KeyOrder[j];
    }
  }

  /** One step of `buildQuery`: after the first `i` calls the entries are
      `Emit(slots[..i])`, and the next `set` appends because its name is new. */
  lemma {:induction false} SetStep(slots: seq<Slot>, i: nat, params: seq<Entry>, cond: bool, key: string, value: string)
    requires DistinctKeys(slots) && i < |slots| && slots[i] == Slot(cond, key, value)
    requires params == Emit(slots[..i])
    ensures cond ==> Set(params, key, value) == Emit(slots[..i + 1])
    ensures !cond ==> params == Emit(slots[..i + 1])
  {
    assert slots[..i + 1][..i] == slots[..i];
    NewKey(slots[..i], key);
  }

  /** A name no earlier call sets is not among their entries. */
  lemma {:induction false} NewKey(slots: seq<Slot>, key: string)
    requires forall m :: 0 <= m < |slots| ==> slots[m].key != key
    ensures !HasKey(Emit(slots), key)
  {
    var ps := Emit(slots);
    forall n | 0 <= n < |ps|
      ensures ps[n].0 != key
    {
      assert ps[n] in ps;
      var m :| 0 <= m < |slots| && slots[m] == Slot(true, ps[n].0, ps[n].1);
      assert ps[n].0 == slots[m].key;
    }
  }

  /** `buildQuery`: a fresh `URLSearchParams`, then the ten guarded `set`
      calls in their order, then `toString()`. */
  method BuildQuery(s: ClientState, page: Option<Num>) returns (qs: string)
    ensures qs == Serialize(QueryPairs(s, page))
  {
    var slots := Slots(s, page);
    SlotsDistinct(s, page);
    var params: seq<Entry> := [];
    var i := 0;
    while i < |slots|
      invariant 0 <= i <= |slots|
      invariant params == Emit(slots[..i])
    {
      SetStep(slots, i, params, slots[i].cond, slots[i].key, slots[i].value);
      if slots[i].cond {
        params := Set(params, slots[i].key, slots[i].value);
      }
      i := i + 1;
    }
    assert slots[..i] == slots;
    qs := Serialize(params);
  }

  // ---------------------------------------------------------------------
  // What the query string says

  /** The names come out in the fixed order of `KeyOrder`, each at most once. */
  lemma {:induction false} EmitOrder(slots: seq<Slot>)
    requires forall i, j :: 0 <= i < j < |slots| ==> Rank(slots[i].key) < Rank(slots[j].key)
    ensures forall i, j :: 0 <= i < j < |Emit(slots)| ==> Rank(Emit(slots)[i].0) < Rank(Emit(slots)[j].0)
  {
    if slots != [] {
      var init := slots[..|slots| - 1];
      var last := slots[|slots| - 1];
      EmitOrder(init);
      var e := Emit(init);
      forall i | 0 <= i < |e|
        ensures Rank(e[i].0) < Rank(last.key)
      {
        assert e[i] in e;
        var m :| 0 <= m < |init| && init[m] == Slot(true, e[i].0, e[i].1);
        assert init[m] == slots[m];
      }
    }
  }

  /** `buildQuery` emits names only in the order query, sort, tags,
      durationMin, durationMax, playersMin, playersMax, age, statuses, page. */
  lemma {:induction false} QueryOrder(s: ClientState, page: Option<Num>)
    ensures var ps := QueryPairs(s, page);
      forall i, j :: 0 <= i < j < |ps| ==> Rank(ps[i].0) < Rank(ps[j].0)
  {
    var sl := Slots(s, page);
    RankOfKeyOrder();
    forall i, j | 0 <= i < j < |sl|
      ensures Rank(sl[i].key) < Rank(sl[j].key)
    {
      assert sl[i].key == KeyOrder[i] && sl[j].key == KeyOrder[j];
    }
    EmitOrder(sl);
  }

  /** With distinct names, `get(name)` reads the value of the call for that
      name exactly when its condition held. */
  lemma {:induction false} EmitGet(slots: seq<Slot>, i: nat)
    requires DistinctKeys(slots) && i < |slots|
    ensures Get(Emit(slots), slots[i].key) == if slots[i].cond then Some(slots[i].value) else None
  {
    var init := slots[..|slots| - 1];
    var last := slots[|slots| - 1];
    var key := slots[i].key;
    var e := Emit(init);
    assert Emit(slots) == e + (if last.cond then [(last.key, last.value)] else []);
    assert forall m :: 0 <= m < |init| ==> init[m] == slots[m];
    if i < |slots| - 1 {
      assert DistinctKeys(init);
      EmitGet(init, i);
      assert last.key != key;
      if last.cond {
        GetAppend(e, last.key, last.value, key);
        assert e + [(last.key, last.value)] == Emit(slots);
      } else {
        assert e == Emit(slots);
      }
    } else {
      NewKey(init, key);
      if last.cond {
        GetAppend(e, last.key, last.value, key);
        assert e + [(last.key, last.value)] == Emit(slots);
      } else {
        assert e == Emit(slots);
      }
    }
  }

  /** The query string of `buildQuery()`, name by name: each name appears
      exactly when its value is set (non-empty text, a non-empty list, a
      defined number, a truthy page), and carries that value. */
  lemma {:induction false} QueryValues(s: ClientState, page: Option<Num>)
    ensures var ps := QueryPairs(s, page);
      var f := s.filters;
      && Get(ps, "query") == (if s.query != [] then Some(s.query) else None)
      && Get(ps, "sort") == (if s.sort != [] && s.sort != "popular" then Some(s.sort) else None)
      && Get(ps, "tags") == (if |f.tags| > 0 then Some(Join(f.tags, ',')) else None)
      && Get(ps, "durationMin") == (if f.durationMin.Some? then Some(ToText(f.durationMin.value)) else None)
      && Get(ps, "durationMax") == (if f.durationMax.Some? then Some(ToText(f.durationMax.value)) else None)
      && Get(ps, "playersMin") == (if f.playersMin.Some? then Some(ToText(f.playersMin.value)) else None)
      && Get(ps, "playersMax") == (if f.playersMax.Some? then Some(ToText(f.playersMax.value)) else None)
      && Get(ps, "age") == (if f.age.Some? && f.age.value != [] then f.age else None)
      && Get(ps, "statuses") == (if |f.statuses| > 0 then Some(Join(f.statuses, ',')) else None)
      && Get(ps, "page") == (if page.Some? && Truthy(page.value) then Some(ToText(page.value)) else None)
  {
    var sl := Slots(s, page);
    SlotsDistinct(s, page);
    EmitGet(sl, 0);
    EmitGet(sl, 1);
    EmitGet(sl, 2);
    EmitGet(sl, 3);
    EmitGet(sl, 4);
    EmitGet(sl, 5);
    EmitGet(sl, 6);
    EmitGet(sl, 7);
    EmitGet(sl, 8);
    EmitGet(sl, 9);
  }

  /** `String(n)` is never empty, so a defined number is always truthy text. */
  lemma {:induction false} ToTextNotEmpty(n: Num)
    ensures ToText(n) != []
  {
    if n.Int? {
      ToTextShape(n.value);
    }
  }

  /** A comma list read back from the value `buildQuery` wrote for it. */
  lemma {:induction false} ListBack(ps: seq<Entry>, key: string, xs: seq<string>)
    requires forall i :: 0 <= i < |xs| ==> xs[i] != [] && ',' !in xs[i]
    requires Get(ps, key) == if |xs| > 0 then Some(Join(xs, ',')) else None
    ensures ListParam(ps, key) == xs
  {
    ParseListJoin(xs, ',');
  }

  /** A number read back with `Number` from the value `buildQuery` wrote for it. */
  lemma {:induction false} NumberBack(ps: seq<Entry>, key: string, o: Option<Num>)
    requires Get(ps, key) == if o.Some? then Some(ToText(o.value)) else None
    ensures NumberParam(ps, key) == o
  {
    if o.Some? {
      ToTextNotEmpty(o.value);
      ToNumberToText(o.value);
    }
  }

  /** The address bar round trip: the state read from the query string of a
      state is that state, exactly for the states the query string can carry. */
  lemma {:induction false} RoundTrip(s: ClientState)
    ensures InitialState(QueryPairs(s, None)) == s <==> WellFormed(s)
  {
    if WellFormed(s) {
      var ps := QueryPairs(s, None);
      var f := s.filters;
      QueryValues(s, None);
      ListBack(ps, "tags", f.tags);
      ListBack(ps, "statuses", f.statuses);
      NumberBack(ps, "durationMin", f.durationMin);
      NumberBack(ps, "durationMax", f.durationMax);
      NumberBack(ps, "playersMin", f.playersMin);
      NumberBack(ps, "playersMax", f.playersMax);
    }
  }

  /** `parseInt("NaN")` is NaN. */
  lemma {:induction false} ParseIntOfNaN()
    ensures ParseInt(ToText(NaN)) == NaN
  {
    var s := ToText(NaN);
    assert s[0] == 'N' && 'N' !in Whitespace;
    ParseIntNoDigit(s);
  }

  /** A range filter as the server parses it: the number itself, or NaN (no
      bound) when the filter is undefined or NaN. */
  lemma {:induction false} BoundBack(ps: seq<Entry>, key: string, o: Option<Num>)
    requires Get(ps, key) == if o.Some? then Some(ToText(o.value)) else None
    requires o.Some? ==> Safe(o.value)
    ensures ParseInt(SearchQuery.OrElse(Get(ps, key), "")) == o.GetOr(NaN)
  {
    if o.Some? {
      ToTextNotEmpty(o.value);
      if o.value.Int? {
        ParseIntToText(o.value.value);
      } else {
        ParseIntOfNaN();
      }
    } else {
      assert LeadingDigits(SignedBody(DropLeading("", Whitespace))) == [];
    }
  }

  /** The page the search route reads from the query string of a fetch of
      page `p`. */
  lemma {:induction false} ServerPage(s: ClientState, p: int)
    requires 1 <= p <= MaxSafe
    ensures SearchQuery.ParseRequest(QueryPairs(s, Some(Int(p)))).page == Int(p)
  {
    var ps := QueryPairs(s, Some(Int(p)));
    QueryValues(s, Some(Int(p)));
    BoundBack(ps, "page", Some(Int(p)));
  }

  lemma {:induction false} ReadsSort(s: ClientState, page: Option<Num>)
    ensures SearchQuery.ParseRequest(QueryPairs(s, page)).sort == if s.sort == [] then "popular" else s.sort
  {
    QueryValues(s, page);
  }

  lemma {:induction false} ReadsQuery(s: ClientState, page: Option<Num>)
    ensures SearchQuery.ParseRequest(QueryPairs(s, page)).query == Trim(s.query)
  {
    var ps := QueryPairs(s, page);
    assert Get(ps, "query") == if s.query != [] then Some(s.query) else None by {
      SlotsDistinct(s, page);
      EmitGet(Slots(s, page), 0);
    }
    assert SearchQuery.OrElse(Get(ps, "query"), "") == s.query;
  }

  lemma {:induction false} ReadsLists(s: ClientState, page: Option<Num>)
    ensures var r := SearchQuery.ParseRequest(QueryPairs(s, page));
      && r.tags == (if |s.filters.tags| > 0 then Some(Join(s.filters.tags, ',')) else None)
      && r.statuses == (if |s.filters.statuses| > 0 then Some(Join(s.filters.statuses, ',')) else None)
  {
    QueryValues(s, page);
  }

  /** The sort key, the trimmed query and the comma lists the search route
      reads from the query string, whatever the page. */
  lemma {:induction false} ServerText(s: ClientState, page: Option<Num>)
    ensures var r := SearchQuery.ParseRequest(QueryPairs(s, page));
      var f := s.filters;
      && r.sort == (if s.sort == [] then "popular" else s.sort)
      && r.query == Trim(s.query)
      && r.tags == (if |f.tags| > 0 then Some(Join(f.tags, ',')) else None)
      && r.statuses == (if |f.statuses| > 0 then Some(Join(f.statuses, ',')) else None)
  {
    ReadsSort(s, page);
    ReadsQuery(s, page);
    ReadsLists(s, page);
  }

  /** Every range bound the filters hold is a safe integer or NaN. */
  predicate SafeBounds(f: Filters)
  {
    && (f.durationMin.Some? ==> Safe(f.durationMin.value))
    && (f.durationMax.Some? ==> Safe(f.durationMax.value))
    && (f.playersMin.Some? ==> Safe(f.playersMin.value))
    && (f.playersMax.Some? ==> Safe(f.playersMax.value))
  }

  /** The range bounds the search route reads from the query string: the
      filter's number itself, or NaN (no bound) when the filter is undefined
      or NaN. */
  lemma {:induction false} ServerBounds(s: ClientState, page: Option<Num>)
    requires SafeBounds(s.filters)
    ensures var r := SearchQuery.ParseRequest(QueryPairs(s, page));
      var f := s.filters;
      && r.durationMin == f.durationMin.GetOr(NaN)
      && r.durationMax == f.durationMax.GetOr(NaN)
      && r.playersMin == f.playersMin.GetOr(NaN)
      && r.playersMax == f.playersMax.GetOr(NaN)
  {
    var ps := QueryPairs(s, page);
    var f := s.filters;
    QueryValues(s, page);
    BoundBack(ps, "durationMin", f.durationMin);
    BoundBack(ps, "durationMax", f.durationMax);
    BoundBack(ps, "playersMin", f.playersMin);
    BoundBack(ps, "playersMax", f.playersMax);
  }

  // ---------------------------------------------------------------------
  // The address bar

  /** `qs ? `/?${qs}` : "/"`. */
  function RouterUrl(qs: string): (r: string)
    ensures r == "/" <==> qs == []
    ensures qs != [] ==> r == "/?" + qs && r[2..] == qs
  {
    if qs == [] then "/" else "/?" + qs
  }

  /** The address-bar effect: the URL `router.replace` receives, if any; nothing when
      the address bar already shows the state. */
  function Replacement(s: ClientState, current: string): (r: Option<string>)
    ensures r.None? <==> current == RouterUrl(Serialize(QueryPairs(s, None)))
    ensures r.Some? ==> r.value == RouterUrl(Serialize(QueryPairs(s, None)))
  {
    var url := RouterUrl(Serialize(QueryPairs(s, None)));
    if url != current then Some(url) else None
  }

  /** Calls whose conditions all fail leave no entry. */
  lemma {:induction false} EmitNone(slots: seq<Slot>)
    requires forall i :: 0 <= i < |slots| ==> !slots[i].cond
    ensures Emit(slots) == []
  {
    if slots != [] {
      EmitNone(slots[..|slots| - 1]);
    }
  }

  /** The state the page starts from on a bare `/` leaves the address at `/`. */
  lemma {:induction false} DefaultAddress()
    ensures Replacement(InitialState([]), "/") == None
  {
    var s := InitialState([]);
    assert s == ClientState("", "popular", Filters([], None, None, None, None, None, []));
    EmitNone(Slots(s, None));
  }

  // ---------------------------------------------------------------------
  // The list of items

  /** What the page shows from the last good response. */
  datatype Shown = Shown(items: seq<Item>, total: int, page: Num, facets: Option<Facets>)

  /** `setItems((prev) => (replaceItems ? data.items : [...prev, ...data.items]))`. */
  function NextItems(prev: seq<Item>, received: seq<Item>, replace: bool): (r: seq<Item>)
    ensures replace ==> r == received
    ensures !replace ==> |r| == |prev| + |received| && r[..|prev|] == prev && r[|prev|..] == received
  {
    if replace then received else prev + received
  }

  /** `fetchData` once the answer is in: an answer that is not `ok` is thrown and shown as a toast,
      so nothing changes; a good one sets the facets, the total, the page and
      the items. */
  function Apply(prev: Shown, resp: SearchResponse, replace: bool): (r: Shown)
    ensures resp.Failed? ==> r == prev
    ensures resp.Found? ==> && r.facets == Some(resp.facets)
                            && r.total == resp.total
                            && r.page == resp.page
                            && r.items == NextItems(prev.items, resp.items, replace)
  {
    match resp
    case Failed(_, _) => prev
    case Found(items, total, page, _, facets) =>
      Shown(NextItems(prev.items, items, replace), total, page, Some(facets))
  }

  /** `page + 1` on the page of the last answer; a NaN page reaches the
      browser as `null`, and `null + 1` is 1. */
  function Following(page: Num): (r: Num)
    ensures r.Int?
    ensures page.Int? ==> r.value == page.value + 1
    ensures page.NaN? ==> r == Int(1)
  {
    match page
    case NaN => Int(1)
    case Int(n) => Int(n + 1)
  }

  /** The catalog page: the state its controls hold and what it shows. */
  class Catalog {
    var state: ClientState
    var items: seq<Item>
    var total: int
    var page: Num
    var facets: Option<Facets>

    function Current(): Shown
      reads this
    {
      Shown(items, total, page, facets)
    }

    /** The "load more" control appears while fewer items are shown than the total. */
    predicate ShowLoadMore()
      reads this
    {
      |items| < total
    }

    /** The first render, from the search parameters of the page request. */
    constructor (ps: seq<Entry>)
      ensures state == InitialState(ps)
      ensures Current() == Shown([], 0, Int(1), None)
    {
      state := InitialState(ps);
      items := [];
      total := 0;
      page := Int(1);
      facets := None;
    }

    /** `fetchData(p, replaceItems)`: the query string of the state with page
      `p`, the answer `server` gives for it, and that answer applied. */
    method Fetch(p: Num, replace: bool, server: string -> SearchResponse)
      modifies this
      ensures state == old(state)
      ensures Current() == Apply(old(Current()), server(Serialize(QueryPairs(state, Some(p)))), replace)
    {
      var qs := BuildQuery(state, Some(p));
      var resp := server(qs);
      match resp
      case Failed(_, _) =>
      case Found(received, t, pg, _, fs) =>
        facets := Some(fs);
        total := t;
        page := pg;
        items := NextItems(items, received, replace);
    }

    /** A change of query, sort or filters, then the effect that fetches page 1
      and replaces the items. */
    method Update(s: ClientState, server: string -> SearchResponse)
      modifies this
      ensures state == s
      ensures Current() == Apply(old(Current()), server(Serialize(QueryPairs(s, Some(Int(1))))), true)
    {
      state := s;
      Fetch(Int(1), true, server);
    }

    /** `loadMore` fetches the page after the shown one and appends. */
    method LoadMore(server: string -> SearchResponse)
      modifies this
      ensures state == old(state)
      ensures Current() == Apply(old(Current()), server(Serialize(QueryPairs(state, Some(Following(old(page)))))), false)
    {
      Fetch(Following(page), false, server);
    }
  }

  /** The items of a list of ids, one after the other. */
  lemma {:induction false} ItemsAppend(a: seq<string>, b: seq<string>, cs: seq<Campaign>, vm: map<string, int>)
    ensures CampaignsRoute.Items(a + b, cs, vm) == CampaignsRoute.Items(a, cs, vm) + CampaignsRoute.Items(b, cs, vm)
  {
    var l := CampaignsRoute.Items(a + b, cs, vm);
    var r := CampaignsRoute.Items(a, cs, vm) + CampaignsRoute.Items(b, cs, vm);
    assert |l| == |r|;
    forall k | 0 <= k < |l|
      ensures l[k] == r[k]
    {
      if k < |a| {
        assert (a + b)[k] == a[k];
      } else {
        assert (a + b)[k] == b[k - |a|];
      }
    }
  }

  /** Appending pages 2, 3, ..., n of one ordering to page 1, as `loadMore`
      does, shows the items of its first `10 * n` ids, in order. */
  lemma {:induction false} LoadedPages(order: seq<string>, cs: seq<Campaign>, vm: map<string, int>, n: nat)
    ensures var shown := CampaignsRoute.Items(CampaignsRoute.Pages(order, n), cs, vm);
      shown == CampaignsRoute.Items(order[..CampaignsRoute.Min(n * PageSize, |order|)], cs, vm)
      && |shown| == CampaignsRoute.Min(n * PageSize, |order|)
  {
    CampaignsRoute.PagesCover(order, n);
  }

  /** The items after page `n + 1` is appended to pages 1..n. */
  lemma {:induction false} NextPageAppends(order: seq<string>, cs: seq<Campaign>, vm: map<string, int>, n: nat)
    ensures NextItems(CampaignsRoute.Items(CampaignsRoute.Pages(order, n), cs, vm),
                      CampaignsRoute.Items(CampaignsRoute.PageOf(order, Int(n + 1)), cs, vm), false)
         == CampaignsRoute.Items(CampaignsRoute.Pages(order, n + 1), cs, vm)
  {
    ItemsAppend(CampaignsRoute.Pages(order, n), CampaignsRoute.PageOf(order, Int(n + 1)), cs, vm);
  }

  /** For a sort key of the campaigns the ordering has `total` ids, so after
      `n` pages the control shows exactly while `10 * n` is short of the total. */
  lemma {:induction false} LoadMoreWhileShort(order: seq<string>, cs: seq<Campaign>, vm: map<string, int>, n: nat, total: int)
    requires total == |order|
    ensures |CampaignsRoute.Items(CampaignsRoute.Pages(order, n), cs, vm)| < total <==> n * PageSize < total
  {
    LoadedPages(order, cs, vm, n);
  }
}
