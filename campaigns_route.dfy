/** `GET /api/campaigns`: the catalog search. The two datastore calls, the
    filtered `campaigns` query and the `aggregate_votes` procedure, are
    parameters; everything between and after them is modelled. */
module CampaignsRoute {
  import opened Wrappers
  import opened Numbers
  import opened UrlParams
  import opened Campaigns
  import opened SearchQuery
  import opened FacetPass
  import opened Sorting

  /** The votes of the last aggregation row for `id`. */
  function LastVotes(agg: seq<AggRow>, id: string): (r: Option<int>)
    ensures r.None? <==> forall i :: 0 <= i < |agg| ==> agg[i].campaignId != id
    ensures r.Some? ==> exists i :: 0 <= i < |agg| && agg[i] == AggRow(id, r.value)
                           && forall j :: i < j < |agg| ==> agg[j].campaignId != id
  {
    if agg == [] then None
    else
      var init := agg[..|agg| - 1];
      assert forall i :: 0 <= i < |agg| - 1 ==> init[i] == agg[i];
      if agg[|agg| - 1].campaignId == id then Some(agg[|agg| - 1].votes)
      else LastVotes(init, id)
  }

  /** `voteMap` after the rows in `agg` have been written in order. */
  function VoteMap(agg: seq<AggRow>): (m: map<string, int>)
    ensures forall id :: id in m <==> LastVotes(agg, id).Some?
    ensures forall id :: id in m ==> m[id] == LastVotes(agg, id).value
  {
    if agg == [] then map[]
    else
      var init := agg[..|agg| - 1];
      assert forall id :: (LastVotes(agg, id)
        == if agg[|agg| - 1].campaignId == id then Some(agg[|agg| - 1].votes) else LastVotes(init, id));
      VoteMap(init)[agg[|agg| - 1].campaignId := agg[|agg| - 1].votes]
  }

  /** `agg.forEach((row) => { voteMap[row.campaign_id] = row.votes })`. */
  method BuildVoteMap(agg: seq<AggRow>) returns (voteMap: map<string, int>)
    ensures voteMap == VoteMap(agg)
  {
    voteMap := map[];
    var i := 0;
    while i < |agg|
      invariant 0 <= i <= |agg|
      invariant voteMap == VoteMap(agg[..i])
    {
      assert agg[..i + 1][..i] == agg[..i];
      voteMap := voteMap[agg[i].campaignId := agg[i].votes];
      i := i + 1;
    }
    assert agg[..i] == agg;
  }

  /** A `slice` bound: NaN is 0, a negative bound counts from the end, and
      bounds are clamped to the length. */
  function SliceIndex(n: Num, len: nat): (r: nat)
    ensures r <= len
    ensures n.Int? && 0 <= n.value <= len ==> r == n.value
  {
    match n
    case NaN => 0
    case Int(v) =>
      if v < 0 then (if len + v < 0 then 0 else len + v)
      else if v > len then len
      else v
  }

  /** `xs.slice(start, end)`. */
  function Slice<T>(xs: seq<T>, start: Num, end: Num): (r: seq<T>)
    ensures |r| <= |xs|
  {
    var from := SliceIndex(start, |xs|);
    var to := SliceIndex(end, |xs|);
    if from < to then xs[from..to] else []
  }

  /** `start = (page - 1) * PAGE_SIZE; sortedIds.slice(start, start + PAGE_SIZE)`.
      A NaN page makes both bounds NaN. */
  function PageOf(ids: seq<string>, page: Num): seq<string>
  {
    match page
    case NaN => Slice(ids, NaN, NaN)
    case Int(p) => Slice(ids, Int((p - 1) * PageSize), Int((p - 1) * PageSize + PageSize))
  }

  function Min(a: int, b: int): int
  {
    if a < b then a else b
  }

  /** A page is the run of at most ten ids starting at `(page - 1) * 10`,
      empty past the end; a NaN page is empty. */
  lemma {:induction false} PageContents(ids: seq<string>, page: Num)
    ensures page.NaN? ==> PageOf(ids, page) == []
    ensures page.Int? && page.value >= 1 ==>
      var start := (page.value - 1) * PageSize;
      && |PageOf(ids, page)| <= PageSize
      && (start >= |ids| ==> PageOf(ids, page) == [])
      && (start < |ids| ==> PageOf(ids, page) == ids[start..Min(start + PageSize, |ids|)])
  {
  }

  /** The first `n` pages in order. */
  function Pages(ids: seq<string>, n: nat): seq<string>
  {
    if n == 0 then [] else Pages(ids, n - 1) + PageOf(ids, Int(n))
  }

  /** Reading pages 1, 2, ..., n one after another gives the first `10 * n`
      ids, without gaps or repeats. */
  lemma {:induction false} PagesCover(ids: seq<string>, n: nat)
    ensures Pages(ids, n) == ids[..Min(n * PageSize, |ids|)]
  {
    if n > 0 {
      PagesCover(ids, n - 1);
      PageContents(ids, Int(n));
      var a := Min((n - 1) * PageSize, |ids|);
      var b := Min(n * PageSize, |ids|);
      assert ids[..a] + ids[a..b] == ids[..b];
    }
  }

  /** `campaigns.find((cam) => cam.id === id)`: the first campaign with that id. */
  function FindById(cs: seq<Campaign>, id: string): (r: Option<Campaign>)
    ensures r.None? <==> forall i :: 0 <= i < |cs| ==> cs[i].id != id
    ensures r.Some? ==> exists i :: 0 <= i < |cs| && cs[i] == r.value
                           && forall j :: 0 <= j < i ==> cs[j].id != id
    ensures r.Some? ==> r.value.id == id
  {
    if cs == [] then None
    else if cs[0].id == id then Some(cs[0])
    else
      var r := FindById(cs[1..], id);
      assert forall i :: 0 < i < |cs| ==> cs[1..][i - 1] == cs[i];
      if r.Some? then
        var i :| 0 <= i < |cs[1..]| && cs[1..][i] == r.value && forall j :: 0 <= j < i ==> cs[1..][j].id != id;
        assert cs[i + 1] == r.value;
        r
      else r
  }

  /** `{ ...c, votes30d: voteMap[id] ?? 0 }`. */
  function ItemFor(id: string, cs: seq<Campaign>, voteMap: map<string, int>): Item
  {
    Item(FindById(cs, id), if id in voteMap then voteMap[id] else 0)
  }

  /** `pagedIds.map(...)`. */
  function Items(ids: seq<string>, cs: seq<Campaign>, voteMap: map<string, int>): (r: seq<Item>)
    ensures |r| == |ids|
    ensures forall k :: 0 <= k < |ids| ==> r[k] == ItemFor(ids[k], cs, voteMap)
  {
    if ids == [] then [] else [ItemFor(ids[0], cs, voteMap)] + Items(ids[1..], cs, voteMap)
  }

  /** Each item carries the votes of the last aggregation row for its id, or
      0, and the fields of the campaign with its id when there is one. */
  lemma {:induction false} ItemFields(ids: seq<string>, cs: seq<Campaign>, agg: seq<AggRow>, k: nat)
    requires k < |ids|
    ensures var item := Items(ids, cs, VoteMap(agg))[k];
      && item.votes30d == LastVotes(agg, ids[k]).GetOr(0)
      && (item.record.Some? <==> exists i :: 0 <= i < |cs| && cs[i].id == ids[k])
      && (item.record.Some? ==> item.record.value.id == ids[k] && item.record.value in cs)
  {
  }

  /** The id order the page is cut from: the sorted campaigns for a known
      key, otherwise the aggregation rows as they came. */
  function Order(sort: string, sorted: seq<Campaign>, agg: seq<AggRow>): seq<string>
  {
    if ParseSort(sort).Some? then Ids(sorted) else AggIds(agg)
  }

  /** The lines of the route after the campaigns query, as one function of
      the sorted campaigns. */
  function Answer(req: SearchRequest, rows: seq<Campaign>, sorted: seq<Campaign>, agg: seq<AggRow>): SearchResponse
  {
    Found(Items(PageOf(Order(req.sort, sorted, agg), req.page), sorted, VoteMap(agg)),
          |rows|, req.page, PageSize, FacetsOf(rows))
  }

  /** The rest of the search route's `GET` once the campaigns are in: facets, vote map, the sort
      switch on the campaigns array, the page and its items. */
  method Respond(req: SearchRequest, campaigns: seq<Campaign>, agg: seq<AggRow>)
    returns (resp: SearchResponse, ghost sorted: seq<Campaign>)
    ensures multiset(sorted) == multiset(campaigns)
    ensures ParseSort(req.sort).Some? ==> AdjacentSorted(ParseSort(req.sort).value, sorted)
    ensures ParseSort(req.sort).None? ==> sorted == campaigns
    ensures resp == Answer(req, campaigns, sorted, agg)
  {
    var facets := ComputeFacets(campaigns);
    var voteMap := BuildVoteMap(agg);
    var a := new Campaign[|campaigns|](i requires 0 <= i < |campaigns| => campaigns[i]);
    assert a[..] == campaigns;
    var key := ParseSort(req.sort);
    var sortedIds: seq<string>;
    if key.Some? {
      SortCampaigns(a, key.value);
      sortedIds := Ids(a[..]);
    } else {
      sortedIds := AggIds(agg);
    }
    sorted := a[..];
    var pagedIds := PageOf(sortedIds, req.page);
    var items := Items(pagedIds, a[..], voteMap);
    resp := Found(items, |campaigns|, req.page, PageSize, facets);
  }

  /** The whole handler. `sorted` is the campaigns array after the sort
      switch, which `find` then searches. */
  method Get(ps: seq<Entry>,
             fetchCampaigns: seq<Constraint> -> Fetch<seq<Campaign>>,
             aggregateVotes: seq<string> -> Fetch<seq<AggRow>>)
    returns (resp: SearchResponse, ghost sorted: seq<Campaign>)
    ensures var req := ParseRequest(ps);
      var fetched := fetchCampaigns(Constraints(req));
      if fetched.Err? then resp == Failed(500, fetched.message)
      else
        var rows := fetched.value;
        var votes := aggregateVotes(Ids(rows));
        if votes.Err? then resp == Failed(500, votes.message)
        else
          && multiset(sorted) == multiset(rows)
          && (ParseSort(req.sort).Some? ==> AdjacentSorted(ParseSort(req.sort).value, sorted))
          && (ParseSort(req.sort).None? ==> sorted == rows)
          && resp == Answer(req, rows, sorted, votes.value)
  {
    resp, sorted := Handle(ParseRequest(ps), fetchCampaigns, aggregateVotes);
  }

  /** The handler once the parameters are read: the two queries, each of
      which answers 500 with its message when it fails, then the response. */
  method Handle(req: SearchRequest,
                fetchCampaigns: seq<Constraint> -> Fetch<seq<Campaign>>,
                aggregateVotes: seq<string> -> Fetch<seq<AggRow>>)
    returns (resp: SearchResponse, ghost sorted: seq<Campaign>)
    ensures var fetched := fetchCampaigns(Constraints(req));
      if fetched.Err? then resp == Failed(500, fetched.message)
      else
        var rows := fetched.value;
        var votes := aggregateVotes(Ids(rows));
        if votes.Err? then resp == Failed(500, votes.message)
        else
          && multiset(sorted) == multiset(rows)
          && (ParseSort(req.sort).Some? ==> AdjacentSorted(ParseSort(req.sort).value, sorted))
          && (ParseSort(req.sort).None? ==> sorted == rows)
          && resp == Answer(req, rows, sorted, votes.value)
  {
    var fetched := fetchCampaigns(Constraints(req));
    if fetched.Err? {
      return Failed(500, fetched.message), [];
    }
    var campaigns := fetched.value;
    var aggFetched := aggregateVotes(Ids(campaigns));
    if aggFetched.Err? {
      return Failed(500, aggFetched.message), [];
    }
    resp, sorted := Respond(req, campaigns, aggFetched.value);
  }

  lemma {:induction false} MultisetRemove<T>(s: seq<T>, k: nat)
    requires k < |s|
    ensures multiset(s[..k] + s[k + 1..]) == multiset(s) - multiset{s[k]}
  {
    assert s == s[..k] + [s[k]] + s[k + 1..];
  }

  lemma {:induction false} IdsRemove(s: seq<Campaign>, k: nat)
    requires k < |s|
    ensures multiset(Ids(s)) == multiset(Ids(s[..k] + s[k + 1..])) + multiset{s[k].id}
  {
    var ids := Ids(s);
    var rest := s[..k] + s[k + 1..];
    var restIds := Ids(rest);
    assert |restIds| == |ids[..k] + ids[k + 1..]|;
    forall i | 0 <= i < |restIds|
      ensures restIds[i] == (ids[..k] + ids[k + 1..])[i]
    {
      if i < k {
        assert rest[i] == s[i];
      } else {
        assert rest[i] == s[i + 1];
      }
    }
    assert restIds == ids[..k] + ids[k + 1..];
    MultisetRemove(ids, k);
  }

  /** Sorting by a known key lists every filtered id exactly as often as the
      query returned it. */
  lemma {:induction false} IdsPermutation(a: seq<Campaign>, b: seq<Campaign>)
    requires multiset(a) == multiset(b)
    ensures multiset(Ids(a)) == multiset(Ids(b))
  {
    if a == [] {
      assert |b| == |multiset(b)| == 0;
    } else {
      var x := a[0];
      assert a == [x] + a[1..];
      assert multiset(a) == multiset{x} + multiset(a[1..]);
      assert x in multiset(b);
      var k :| 0 <= k < |b| && b[k] == x;
      var rest := b[..k] + b[k + 1..];
      MultisetRemove(b, k);
      assert multiset(rest) == multiset(a[1..]);
      IdsPermutation(a[1..], rest);
      IdsRemove(b, k);
      IdsRemove(a, 0);
      assert a[..0] + a[1..] == a[1..];
    }
  }

  /** What the handler answers, read off its contract: the error of either
      datastore call as a 500; otherwise `total` is the number of filtered
      campaigns on every page, the page is at most ten items, the facets come
      from the filtered set, and for a known key the page ids come from a
      reordering of the filtered ids, for any other key from the aggregation. */
  lemma {:induction false} AnswerShape(req: SearchRequest, rows: seq<Campaign>, sorted: seq<Campaign>, agg: seq<AggRow>)
    requires multiset(sorted) == multiset(rows)
    requires ParseSort(req.sort).None? ==> sorted == rows
    requires req.page.Int? ==> req.page.value >= 1
    ensures var resp := Answer(req, rows, sorted, agg);
      && resp.total == |rows|
      && |resp.items| <= PageSize
      && resp.facets == FacetsOf(rows)
      && (ParseSort(req.sort).Some? ==> multiset(Order(req.sort, sorted, agg)) == multiset(Ids(rows)))
      && (ParseSort(req.sort).None? ==> Order(req.sort, sorted, agg) == AggIds(agg))
  {
    PageContents(Order(req.sort, sorted, agg), req.page);
    if ParseSort(req.sort).Some? {
      IdsPermutation(sorted, rows);
    }
  }
}
