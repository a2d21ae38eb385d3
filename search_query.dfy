/** The first half of the catalog search: reading the request parameters and
    choosing the constraints put on the `campaigns` query. The query builder
    itself belongs to the datastore client; here the constraints are a list. */
module SearchQuery {
  import opened Wrappers
  import opened Strings
  import opened Numbers
  import opened UrlParams
  import opened Campaigns

  /** The parameters after parsing. Range bounds and the page are what
      `parseInt` gave; `tags` and `statuses` are the raw comma lists. */
  datatype SearchRequest = SearchRequest(
    query: string,
    tags: Option<string>,
    sort: string,
    page: Num,
    durationMin: Num,
    durationMax: Num,
    playersMin: Num,
    playersMax: Num,
    age: Option<string>,
    statuses: Option<string>)

  /** One call on the query builder. */
  datatype Constraint =
    | Eq(column: string, value: string)                 // .eq(column, value)
    | In(column: string, values: seq<string>)           // .in(column, values)
    | IlikeAny(columns: seq<string>, pattern: string)   // .or('a.ilike.p,b.ilike.p')
    | Contains(column: string, values: seq<string>)     // .contains(column, values)
    | Gte(column: string, bound: int)                   // .gte(column, bound)
    | Lte(column: string, bound: int)                   // .lte(column, bound)

  /** `value || fallback` for a parameter: absent and empty both fall back. */
  function OrElse(o: Option<string>, fallback: string): (r: string)
    ensures o.Some? && o.value != [] ==> r == o.value
    ensures o.None? || o.value == [] ==> r == fallback
  {
    if o.Some? && o.value != [] then o.value else fallback
  }

  /** `Math.max(n, 1)`: NaN stays NaN. */
  function AtLeastOne(n: Num): (r: Num)
    ensures r.NaN? <==> n.NaN?
    ensures r.Int? ==> r.value >= 1 && (n.value >= 1 ==> r.value == n.value)
  {
    match n
    case NaN => NaN
    case Int(v) => Int(if v < 1 then 1 else v)
  }

  function TrimOpt(o: Option<string>): Option<string>
  {
    match o
    case None => None
    case Some(s) => Some(Trim(s))
  }

  /** The parameters as the search route's `GET` reads them: the trimmed
      query, the sort (`popular` when absent or empty), the page clamped to at
      least 1, the four range bounds through `parseInt`, the trimmed age, and
      the two comma lists as they came. */
  function ParseRequest(ps: seq<Entry>): (r: SearchRequest)
    ensures Get(ps, "page").None? ==> r.page == Int(1)
    ensures r.page.Int? ==> r.page.value >= 1
    ensures r.page.NaN? <==> ParseInt(OrElse(Get(ps, "page"), "1")).NaN?
    ensures var n := ParseInt(OrElse(Get(ps, "page"), "1"));
      n.Int? ==> r.page == Int(if n.value >= 1 then n.value else 1)
    ensures r.sort == if OrElse(Get(ps, "sort"), "") == "" then "popular" else Get(ps, "sort").value
    ensures r.query == Trim(OrElse(Get(ps, "query"), ""))
  {
    assert ParseInt("1") == Int(1) by {
      ParseIntToText(1);
    }
    SearchRequest(
      query := OrElse(TrimOpt(Get(ps, "query")), ""),
      tags := Get(ps, "tags"),
      sort := OrElse(Get(ps, "sort"), "popular"),
      page := AtLeastOne(ParseInt(OrElse(Get(ps, "page"), "1"))),
      durationMin := ParseInt(OrElse(Get(ps, "durationMin"), "")),
      durationMax := ParseInt(OrElse(Get(ps, "durationMax"), "")),
      playersMin := ParseInt(OrElse(Get(ps, "playersMin"), "")),
      playersMax := ParseInt(OrElse(Get(ps, "playersMax"), "")),
      age := TrimOpt(Get(ps, "age")),
      statuses := Get(ps, "statuses"))
  }

  /** A `page` parameter of white space, an optional sign and digits, with
      any text after the digits, is read as that number, raised to 1 when it
      is below 1 (`page=3abc` is page 3, `page=0` and `page=-2` are page 1). */
  lemma {:induction false} PageValue(ps: seq<Entry>, ws: string, sign: string, ds: string, rest: string)
    requires forall i :: 0 <= i < |ws| ==> ws[i] in Whitespace
    requires sign == [] || sign == ['-'] || sign == ['+']
    requires ds != [] && AllDigits(ds)
    requires rest == [] || !IsDigit(rest[0])
    requires Get(ps, "page") == Some(ws + sign + ds + rest)
    ensures var v := if sign == ['-'] then -(DigitsValue(ds) as int) else DigitsValue(ds);
      ParseRequest(ps).page == Int(if v >= 1 then v else 1)
  {
    ParseIntValue(ws, sign, ds, rest);
    assert ws + sign + ds + rest != [];
  }

  function TrimAll(xs: seq<string>): (r: seq<string>)
    ensures |r| == |xs|
    ensures forall i :: 0 <= i < |xs| ==> r[i] == Trim(xs[i])
  {
    if xs == [] then [] else [Trim(xs[0])] + TrimAll(xs[1..])
  }

  /** `p.split(',').map((s) => s.trim()).filter(Boolean)`. */
  function TrimmedList(p: string): (r: seq<string>)
    ensures forall i :: 0 <= i < |r| ==> r[i] != []
  {
    NonEmpty(TrimAll(Split(p, ',')))
  }

  function StatusConstraints(r: SearchRequest): seq<Constraint>
  {
    if r.statuses.Some? && r.statuses.value != [] then
      var statuses := TrimmedList(r.statuses.value);
      if |statuses| > 0 then [In("status", statuses)] else []
    else [Eq("status", Published)]
  }

  function TextConstraints(r: SearchRequest): seq<Constraint>
  {
    if r.query != [] then [IlikeAny(["title", "short_description"], "%" + r.query + "%")] else []
  }

  function TagConstraints(r: SearchRequest): seq<Constraint>
  {
    if r.tags.Some? && r.tags.value != [] then
      var tags := TrimmedList(r.tags.value);
      if |tags| > 0 then [Contains("tags", tags)] else []
    else []
  }

  function RangeConstraints(r: SearchRequest): seq<Constraint>
  {
    (if r.durationMin.Int? then [Gte("duration_hours", r.durationMin.value)] else [])
    + (if r.durationMax.Int? then [Lte("duration_hours", r.durationMax.value)] else [])
    + (if r.playersMin.Int? then [Gte("players_min", r.playersMin.value)] else [])
    + (if r.playersMax.Int? then [Lte("players_max", r.playersMax.value)] else [])
    + (if r.age.Some? && r.age.value != [] then [Eq("age", r.age.value)] else [])
  }

  /** The query builder calls of the search route's `GET`: the constraints,
      in the order they are added. */
  function Constraints(r: SearchRequest): seq<Constraint>
  {
    StatusConstraints(r) + TextConstraints(r) + TagConstraints(r) + RangeConstraints(r)
  }

  /** The constraint a column receives, in order. */
  function OnColumn(ks: seq<Constraint>, column: string): (r: seq<Constraint>)
    ensures forall k :: k in r <==> k in ks && !k.IlikeAny? && k.column == column
  {
    if ks == [] then []
    else if !ks[0].IlikeAny? && ks[0].column == column then [ks[0]] + OnColumn(ks[1..], column)
    else OnColumn(ks[1..], column)
  }

  lemma {:induction false} OnColumnAppend(a: seq<Constraint>, b: seq<Constraint>, column: string)
    ensures OnColumn(a + b, column) == OnColumn(a, column) + OnColumn(b, column)
  {
    if a == [] {
      assert a + b == b;
    } else {
      assert (a + b)[1..] == a[1..] + b;
      OnColumnAppend(a[1..], b, column);
    }
  }

  lemma {:induction false} OnColumnNone(ks: seq<Constraint>, column: string)
    requires forall k :: k in ks ==> k.IlikeAny? || k.column != column
    ensures OnColumn(ks, column) == []
  {
    if ks != [] {
      OnColumnNone(ks[1..], column);
    }
  }

  lemma {:induction false} OnColumnAll(ks: seq<Constraint>, column: string)
    requires forall k :: k in ks ==> !k.IlikeAny? && k.column == column
    ensures OnColumn(ks, column) == ks
  {
    if ks != [] {
      OnColumnAll(ks[1..], column);
    }
  }

  lemma {:induction false} RestNoStatus(r: SearchRequest)
    ensures OnColumn(TextConstraints(r) + TagConstraints(r) + RangeConstraints(r), "status") == []
  {
    var rest := TextConstraints(r) + TagConstraints(r) + RangeConstraints(r);
    forall k | k in rest
      ensures k.IlikeAny? || k.column != "status"
    {
      if k in RangeConstraints(r) {
        assert k.column in {"duration_hours", "players_min", "players_max", "age"};
      }
    }
    OnColumnNone(rest, "status");
  }

  /** Only the status part of the constraints speaks about `status`. */
  lemma {:induction false} StatusColumn(r: SearchRequest)
    ensures OnColumn(Constraints(r), "status") == StatusConstraints(r)
  {
    var rest := TextConstraints(r) + TagConstraints(r) + RangeConstraints(r);
    assert Constraints(r) == StatusConstraints(r) + rest;
    OnColumnAppend(StatusConstraints(r), rest, "status");
    RestNoStatus(r);
    OnColumnAll(StatusConstraints(r), "status");
  }

  /** Visibility: with no `statuses` parameter (or an empty one) only published
      campaigns are asked for; a list restricts to exactly the listed statuses;
      a list that trims to nothing puts no condition on the status at all. */
  lemma {:induction false} StatusVisibility(ps: seq<Entry>)
    ensures var ks := OnColumn(Constraints(ParseRequest(ps)), "status");
      && (OrElse(Get(ps, "statuses"), "") == "" ==> ks == [Eq("status", Published)])
      && (OrElse(Get(ps, "statuses"), "") != "" && TrimmedList(Get(ps, "statuses").value) != [] ==>
            ks == [In("status", TrimmedList(Get(ps, "statuses").value))])
      && (OrElse(Get(ps, "statuses"), "") != "" && TrimmedList(Get(ps, "statuses").value) == [] ==> ks == [])
  {
    var r := ParseRequest(ps);
    assert r.statuses == Get(ps, "statuses");
    StatusesVisible(r);
  }

  /** The same, for a request already read from the parameters. */
  lemma {:induction false} StatusesVisible(r: SearchRequest)
    ensures var ks := OnColumn(Constraints(r), "status");
      && (OrElse(r.statuses, "") == "" ==> ks == [Eq("status", Published)])
      && (OrElse(r.statuses, "") != "" && TrimmedList(r.statuses.value) != [] ==>
            ks == [In("status", TrimmedList(r.statuses.value))])
      && (OrElse(r.statuses, "") != "" && TrimmedList(r.statuses.value) == [] ==> ks == [])
  {
    StatusColumn(r);
  }

  /** A non-empty query asks for it anywhere in the title or the short
      description; that is the only `or` condition, and an empty query puts
      none. */
  lemma {:induction false} TextSearch(r: SearchRequest, k: Constraint)
    requires k.IlikeAny?
    ensures k in Constraints(r) <==> r.query != [] && k == IlikeAny(["title", "short_description"], "%" + r.query + "%")
  {
    var rest := TagConstraints(r) + RangeConstraints(r);
    assert Constraints(r) == StatusConstraints(r) + TextConstraints(r) + rest;
    assert k !in StatusConstraints(r);
    assert k !in rest by {
      assert k !in TagConstraints(r);
      NoIlikeInRange(r, k);
    }
  }

  lemma {:induction false} NoIlikeInRange(r: SearchRequest, k: Constraint)
    requires k.IlikeAny?
    ensures k !in RangeConstraints(r)
  {
    forall j | j in RangeConstraints(r)
      ensures !j.IlikeAny?
    {
    }
  }

  /** The tags condition is the only `contains` one: the trimmed, non-empty
      entries of the `tags` list, and no condition when there are none. */
  lemma {:induction false} TagContains(r: SearchRequest, k: Constraint)
    requires k.Contains?
    ensures k in Constraints(r) <==>
      r.tags.Some? && TrimmedList(r.tags.value) != [] && k == Contains("tags", TrimmedList(r.tags.value))
  {
    assert Constraints(r) == StatusConstraints(r) + TextConstraints(r) + TagConstraints(r) + RangeConstraints(r);
    assert k !in StatusConstraints(r);
    assert k !in TextConstraints(r);
    assert k !in RangeConstraints(r);
    if r.tags.Some? && r.tags.value == [] {
      assert Split([], ',') == [[]];
      assert TrimAll([[]]) == [Trim([])];
      NonEmptyOne([]);
    }
  }

  /** The range and age constraints are the only bounds and the only `age` condition. */
  lemma {:induction false} RangeOnly(r: SearchRequest, k: Constraint)
    requires k.Gte? || k.Lte? || (k.Eq? && k.column == "age")
    ensures k in Constraints(r) <==> k in RangeConstraints(r)
  {
    var rest := StatusConstraints(r) + TextConstraints(r) + TagConstraints(r);
    assert Constraints(r) == rest + RangeConstraints(r);
    assert k !in StatusConstraints(r);
    assert k !in TextConstraints(r);
    assert k !in TagConstraints(r);
  }

  lemma {:induction false} RangeMembers(r: SearchRequest, n: int)
    ensures Gte("duration_hours", n) in RangeConstraints(r) <==> r.durationMin == Int(n)
    ensures Lte("duration_hours", n) in RangeConstraints(r) <==> r.durationMax == Int(n)
    ensures Gte("players_min", n) in RangeConstraints(r) <==> r.playersMin == Int(n)
    ensures Lte("players_max", n) in RangeConstraints(r) <==> r.playersMax == Int(n)
  {
  }

  /** Each bound is a constraint exactly when its parameter parses as an
      integer, and it bounds the column the source names: `playersMin` bounds
      `players_min` from below, `playersMax` bounds `players_max` from above. */
  lemma {:induction false} RangeBounds(ps: seq<Entry>, n: int)
    ensures var ks := Constraints(ParseRequest(ps));
      && (Gte("duration_hours", n) in ks <==> ParseInt(OrElse(Get(ps, "durationMin"), "")) == Int(n))
      && (Lte("duration_hours", n) in ks <==> ParseInt(OrElse(Get(ps, "durationMax"), "")) == Int(n))
      && (Gte("players_min", n) in ks <==> ParseInt(OrElse(Get(ps, "playersMin"), "")) == Int(n))
      && (Lte("players_max", n) in ks <==> ParseInt(OrElse(Get(ps, "playersMax"), "")) == Int(n))
  {
    var r := ParseRequest(ps);
    RangeOnly(r, Gte("duration_hours", n));
    RangeOnly(r, Lte("duration_hours", n));
    RangeOnly(r, Gte("players_min", n));
    RangeOnly(r, Lte("players_max", n));
    RangeMembers(r, n);
  }

  /** The age condition is added exactly when the trimmed `age` is not empty. */
  lemma {:induction false} AgeConstraint(ps: seq<Entry>, a: string)
    ensures Eq("age", a) in Constraints(ParseRequest(ps))
        <==> Get(ps, "age").Some? && a != [] && a == Trim(Get(ps, "age").value)
  {
    var r := ParseRequest(ps);
    RangeOnly(r, Eq("age", a));
    AgeMember(r, a);
    assert r.age == TrimOpt(Get(ps, "age"));
  }

  lemma {:induction false} AgeMember(r: SearchRequest, a: string)
    ensures Eq("age", a) in RangeConstraints(r) <==> r.age.Some? && a != [] && a == r.age.value
  {
  }
}
