/** The facet pass of the catalog search: one walk over the filtered campaigns
    that collects the tag, status and age sets and the duration and player
    ranges, followed by sorting the sets. */
module FacetPass {
  import opened Wrappers
  import opened Strings
  import opened Campaigns

  /** `set.add(x)` on a `Set<string>`, kept as its insertion-ordered contents. */
  function Add(s: seq<string>, x: string): (r: seq<string>)
    ensures forall y :: y in r <==> y in s || y == x
    ensures Distinct(s) ==> Distinct(r)
  {
    if x in s then s else s + [x]
  }

  /** `xs.forEach((t) => set.add(t))`. */
  function AddAll(s: seq<string>, xs: seq<string>): (r: seq<string>)
    ensures forall y :: y in r <==> y in s || y in xs
    ensures Distinct(s) ==> Distinct(r)
  {
    if xs == [] then s
    else
      var r := Add(AddAll(s, xs[..|xs| - 1]), xs[|xs| - 1]);
      assert forall y :: y in xs <==> y in xs[..|xs| - 1] || y == xs[|xs| - 1] by {
        assert xs == xs[..|xs| - 1] + [xs[|xs| - 1]];
      }
      r
  }

  function TagsOf(c: Campaign): seq<string>
  {
    c.tags.GetOr([])
  }

  /** The tag set after the walk has seen `cs`. */
  function TagsSeen(cs: seq<Campaign>): (r: seq<string>)
    ensures Distinct(r)
    ensures forall x :: x in r <==> exists i :: 0 <= i < |cs| && x in TagsOf(cs[i])
  {
    if cs == [] then []
    else
      var r := AddAll(TagsSeen(cs[..|cs| - 1]), TagsOf(cs[|cs| - 1]));
      assert forall x :: x in r ==> exists i :: 0 <= i < |cs| && x in TagsOf(cs[i]) by {
        forall x | x in r ensures exists i :: 0 <= i < |cs| && x in TagsOf(cs[i]) {
          if x !in TagsOf(cs[|cs| - 1]) {
            var i :| 0 <= i < |cs| - 1 && x in TagsOf(cs[..|cs| - 1][i]);
            assert cs[..|cs| - 1][i] == cs[i];
          }
        }
      }
      assert forall i :: 0 <= i < |cs| - 1 ==> cs[..|cs| - 1][i] == cs[i];
      r
  }

  /** `if (typeof v === 'string') set.add(v)`. */
  function AddDefined(s: seq<string>, v: Option<string>): (r: seq<string>)
    ensures forall y :: y in r <==> y in s || v == Some(y)
    ensures Distinct(s) ==> Distinct(r)
  {
    if v.Some? then Add(s, v.value) else s
  }

  /** The status set after the walk has seen `cs`. */
  function StatusesSeen(cs: seq<Campaign>): (r: seq<string>)
    ensures Distinct(r)
    ensures forall x :: x in r <==> exists i :: 0 <= i < |cs| && cs[i].status == Some(x)
  {
    if cs == [] then []
    else
      var r := AddDefined(StatusesSeen(cs[..|cs| - 1]), cs[|cs| - 1].status);
      assert forall i :: 0 <= i < |cs| - 1 ==> cs[..|cs| - 1][i] == cs[i];
      r
  }

  /** The age set after the walk has seen `cs`. */
  function AgesSeen(cs: seq<Campaign>): (r: seq<string>)
    ensures Distinct(r)
    ensures forall x :: x in r <==> exists i :: 0 <= i < |cs| && cs[i].age == Some(x)
  {
    if cs == [] then []
    else
      var r := AddDefined(AgesSeen(cs[..|cs| - 1]), cs[|cs| - 1].age);
      assert forall i :: 0 <= i < |cs| - 1 ==> cs[..|cs| - 1][i] == cs[i];
      r
  }

  /** A numeric field the ranges are taken over; `None` when it is not a number. */
  datatype Field = Duration | PlayersMin | PlayersMax

  function Value(c: Campaign, f: Field): Option<real>
  {
    match f
    case Duration => c.durationHours
    case PlayersMin => c.playersMin
    case PlayersMax => c.playersMax
  }

  /** A running minimum that starts at `Infinity`. */
  datatype Low = Infinity | Finite(value: real)

  /** `Math.min(low, x)`. */
  function MinWith(low: Low, x: real): (r: Low)
    ensures r.Finite? && r.value <= x
    ensures low.Finite? ==> r.value <= low.value
    ensures r.value == x || (low.Finite? && r.value == low.value)
  {
    if low.Infinity? || x < low.value then Finite(x) else low
  }

  /** `Math.max(high, x)`. */
  function MaxWith(high: real, x: real): (r: real)
    ensures r >= high && r >= x && (r == high || r == x)
  {
    if x > high then x else high
  }

  /** The running minimum of field `f` over `cs`: `Infinity` exactly when no
      campaign has a number there, otherwise the least such number. */
  function LowOver(cs: seq<Campaign>, f: Field): (r: Low)
    ensures r.Infinity? <==> forall i :: 0 <= i < |cs| ==> Value(cs[i], f).None?
    ensures r.Finite? ==> forall i :: 0 <= i < |cs| && Value(cs[i], f).Some? ==> r.value <= Value(cs[i], f).value
    ensures r.Finite? ==> exists i :: 0 <= i < |cs| && Value(cs[i], f) == Some(r.value)
  {
    if cs == [] then Infinity
    else
      var init := cs[..|cs| - 1];
      var low := LowOver(init, f);
      assert forall i :: 0 <= i < |cs| - 1 ==> init[i] == cs[i];
      match Value(cs[|cs| - 1], f)
      case None => low
      case Some(x) => MinWith(low, x)
  }

  /** The running maximum of field `f` over `cs`, starting at 0: never below
      0, never below any number there, and either 0 or one of them. */
  function HighOver(cs: seq<Campaign>, f: Field): (r: real)
    ensures r >= 0.0
    ensures forall i :: 0 <= i < |cs| && Value(cs[i], f).Some? ==> Value(cs[i], f).value <= r
    ensures r == 0.0 || exists i :: 0 <= i < |cs| && Value(cs[i], f) == Some(r)
  {
    if cs == [] then 0.0
    else
      var init := cs[..|cs| - 1];
      var high := HighOver(init, f);
      assert forall i :: 0 <= i < |cs| - 1 ==> init[i] == cs[i];
      match Value(cs[|cs| - 1], f)
      case None => high
      case Some(x) => MaxWith(high, x)
  }

  /** `durMinAll === Infinity ? 0 : durMinAll`. */
  function LowOrZero(low: Low): real
  {
    if low.Infinity? then 0.0 else low.value
  }

  /** The `facets` object the search route builds from the filtered campaigns. */
  function FacetsOf(cs: seq<Campaign>): Facets
  {
    Facets(
      tags := SortDistinct(TagsSeen(cs)),
      statuses := SortDistinct(StatusesSeen(cs)),
      ages := SortDistinct(AgesSeen(cs)),
      duration := Range(LowOrZero(LowOver(cs, Duration)), HighOver(cs, Duration)),
      players := Range(LowOrZero(LowOver(cs, PlayersMin)), HighOver(cs, PlayersMax)))
  }

  /** `c.tags?.forEach((t) => tagSet.add(t))`. */
  method AddTags(tagSet: seq<string>, ts: seq<string>) returns (r: seq<string>)
    ensures r == AddAll(tagSet, ts)
  {
    r := tagSet;
    var j := 0;
    while j < |ts|
      invariant 0 <= j <= |ts|
      invariant r == AddAll(tagSet, ts[..j])
    {
      assert ts[..j + 1][..j] == ts[..j];
      r := Add(r, ts[j]);
      j := j + 1;
    }
    assert ts[..|ts|] == ts;
  }

  /** What one more campaign does to each set. */
  lemma {:induction false} StepSets(cs: seq<Campaign>, i: nat)
    requires i < |cs|
    ensures TagsSeen(cs[..i + 1]) == AddAll(TagsSeen(cs[..i]), TagsOf(cs[i]))
    ensures StatusesSeen(cs[..i + 1]) == AddDefined(StatusesSeen(cs[..i]), cs[i].status)
    ensures AgesSeen(cs[..i + 1]) == AddDefined(AgesSeen(cs[..i]), cs[i].age)
  {
    assert cs[..i + 1][..i] == cs[..i];
  }

  /** What one more campaign does to the running bounds of field `f`. */
  lemma {:induction false} StepRange(cs: seq<Campaign>, i: nat, f: Field)
    requires i < |cs|
    ensures LowOver(cs[..i + 1], f)
      == if Value(cs[i], f).Some? then MinWith(LowOver(cs[..i], f), Value(cs[i], f).value) else LowOver(cs[..i], f)
    ensures HighOver(cs[..i + 1], f)
      == if Value(cs[i], f).Some? then MaxWith(HighOver(cs[..i], f), Value(cs[i], f).value) else HighOver(cs[..i], f)
  {
    assert cs[..i + 1][..i] == cs[..i];
  }

  /** The walk's step for one set: `tagSet`, `statusSet` or `ageSet` after
      campaign `i`. */
  method VisitSets(cs: seq<Campaign>, i: nat, tagSet: seq<string>, statusSet: seq<string>, ageSet: seq<string>)
    returns (tags: seq<string>, statuses: seq<string>, ages: seq<string>)
    requires i < |cs|
    requires tagSet == TagsSeen(cs[..i]) && statusSet == StatusesSeen(cs[..i]) && ageSet == AgesSeen(cs[..i])
    ensures tags == TagsSeen(cs[..i + 1]) && statuses == StatusesSeen(cs[..i + 1]) && ages == AgesSeen(cs[..i + 1])
  {
    var c := cs[i];
    StepSets(cs, i);
    tags := tagSet;
    if c.tags.Some? {
      tags := AddTags(tagSet, c.tags.value);
    }
    statuses := AddDefined(statusSet, c.status);
    ages := AddDefined(ageSet, c.age);
  }

  /** The walk's step for the running bounds after campaign `i`: the duration
      sets both of its bounds, the two player fields one each. */
  method VisitRanges(cs: seq<Campaign>, i: nat, durMin: Low, durMax: real, playersMin: Low, playersMax: real)
    returns (durMin': Low, durMax': real, playersMin': Low, playersMax': real)
    requires i < |cs|
    requires durMin == LowOver(cs[..i], Duration) && durMax == HighOver(cs[..i], Duration)
    requires playersMin == LowOver(cs[..i], PlayersMin) && playersMax == HighOver(cs[..i], PlayersMax)
    ensures durMin' == LowOver(cs[..i + 1], Duration) && durMax' == HighOver(cs[..i + 1], Duration)
    ensures playersMin' == LowOver(cs[..i + 1], PlayersMin) && playersMax' == HighOver(cs[..i + 1], PlayersMax)
  {
    var c := cs[i];
    StepRange(cs, i, Duration);
    StepRange(cs, i, PlayersMin);
    StepRange(cs, i, PlayersMax);
    durMin', durMax', playersMin', playersMax' := durMin, durMax, playersMin, playersMax;
    if c.durationHours.Some? {
      durMin' := MinWith(durMin, c.durationHours.value);
      durMax' := MaxWith(durMax, c.durationHours.value);
    }
    if c.playersMin.Some? {
      playersMin' := MinWith(playersMin, c.playersMin.value);
    }
    if c.playersMax.Some? {
      playersMax' := MaxWith(playersMax, c.playersMax.value);
    }
  }

  /** The facet pass as the route runs it: one loop over the campaigns with an
      inner loop over each campaign's tags, then the sets sorted. */
  method ComputeFacets(campaigns: seq<Campaign>) returns (facets: Facets)
    ensures facets == FacetsOf(campaigns)
  {
    var tagSet: seq<string> := [];
    var statusSet: seq<string> := [];
    var ageSet: seq<string> := [];
    var durMinAll := Infinity;
    var durMaxAll := 0.0;
    var playersMinAll := Infinity;
    var playersMaxAll := 0.0;
    var i := 0;
    while i < |campaigns|
      invariant 0 <= i <= |campaigns|
      invariant tagSet == TagsSeen(campaigns[..i])
      invariant statusSet == StatusesSeen(campaigns[..i])
      invariant ageSet == AgesSeen(campaigns[..i])
      invariant durMinAll == LowOver(campaigns[..i], Duration)
      invariant durMaxAll == HighOver(campaigns[..i], Duration)
      invariant playersMinAll == LowOver(campaigns[..i], PlayersMin)
      invariant playersMaxAll == HighOver(campaigns[..i], PlayersMax)
    {
      tagSet, statusSet, ageSet := VisitSets(campaigns, i, tagSet, statusSet, ageSet);
      durMinAll, durMaxAll, playersMinAll, playersMaxAll :=
        VisitRanges(campaigns, i, durMinAll, durMaxAll, playersMinAll, playersMaxAll);
      i := i + 1;
    }
    assert campaigns[..i] == campaigns;
    facets := Facets(
      tags := SortDistinct(tagSet),
      statuses := SortDistinct(statusSet),
      ages := SortDistinct(ageSet),
      duration := Range(if durMinAll == Infinity then 0.0 else durMinAll.value, durMaxAll),
      players := Range(if playersMinAll == Infinity then 0.0 else playersMinAll.value, playersMaxAll));
  }

  lemma {:induction false} SortedMembers(xs: seq<string>, x: string)
    requires Distinct(xs)
    ensures x in SortDistinct(xs) <==> x in xs
  {
    var r := SortDistinct(xs);
    assert x in r <==> x in multiset(r);
  }

  /** `facets.tags`, `facets.statuses` and `facets.ages` are sorted without
      repeats and hold exactly the values the filtered campaigns carry. */
  lemma {:induction false} FacetSets(cs: seq<Campaign>, x: string)
    ensures var f := FacetsOf(cs);
      && StrictlySorted(f.tags) && StrictlySorted(f.statuses) && StrictlySorted(f.ages)
      && (x in f.tags <==> exists i :: 0 <= i < |cs| && cs[i].tags.Some? && x in cs[i].tags.value)
      && (x in f.statuses <==> exists i :: 0 <= i < |cs| && cs[i].status == Some(x))
      && (x in f.ages <==> exists i :: 0 <= i < |cs| && cs[i].age == Some(x))
  {
    SortedMembers(TagsSeen(cs), x);
    SortedMembers(StatusesSeen(cs), x);
    SortedMembers(AgesSeen(cs), x);
  }

  /** The duration range: min is 0 when no campaign has a numeric duration and
      otherwise the least duration; max is at least 0 and at least every duration. */
  lemma {:induction false} DurationFacet(cs: seq<Campaign>)
    ensures var d := FacetsOf(cs).duration;
      && ((forall i :: 0 <= i < |cs| ==> cs[i].durationHours.None?) ==> d.min == 0.0)
      && (forall i :: 0 <= i < |cs| && cs[i].durationHours.Some? ==>
            d.min <= cs[i].durationHours.value <= d.max)
      && ((exists i :: 0 <= i < |cs| && cs[i].durationHours.Some?) ==>
            exists i :: 0 <= i < |cs| && cs[i].durationHours == Some(d.min))
      && d.max >= 0.0
  {
    var low := LowOver(cs, Duration);
    assert forall i :: 0 <= i < |cs| ==> Value(cs[i], Duration) == cs[i].durationHours;
  }

  /** The players range: min over `players_min` as for durations, max over
      `players_max`, at least 0. */
  lemma {:induction false} PlayersFacet(cs: seq<Campaign>)
    ensures var p := FacetsOf(cs).players;
      && ((forall i :: 0 <= i < |cs| ==> cs[i].playersMin.None?) ==> p.min == 0.0)
      && (forall i :: 0 <= i < |cs| && cs[i].playersMin.Some? ==> p.min <= cs[i].playersMin.value)
      && ((exists i :: 0 <= i < |cs| && cs[i].playersMin.Some?) ==>
            exists i :: 0 <= i < |cs| && cs[i].playersMin == Some(p.min))
      && (forall i :: 0 <= i < |cs| && cs[i].playersMax.Some? ==> cs[i].playersMax.value <= p.max)
      && p.max >= 0.0
  {
    assert forall i :: 0 <= i < |cs| ==> Value(cs[i], PlayersMin) == cs[i].playersMin;
    assert forall i :: 0 <= i < |cs| ==> Value(cs[i], PlayersMax) == cs[i].playersMax;
  }
}
