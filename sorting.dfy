/** The sort switch of the catalog search: five comparators over campaign
    records and the in-place sort of the campaigns array. */
module Sorting {
  import opened Wrappers
  import opened Strings
  import opened Numbers
  import opened Campaigns

  /** The keys that sort the campaigns themselves; any other `sort` value
      (`popular` included) takes the order of the vote aggregation. */
  datatype SortKey = New | Title | Duration | Players | Age

  function ParseSort(sort: string): (r: Option<SortKey>)
    ensures r == Some(New) <==> sort == "new"
    ensures r == Some(Title) <==> sort == "title"
    ensures r == Some(Duration) <==> sort == "duration"
    ensures r == Some(Players) <==> sort == "players"
    ensures r == Some(Age) <==> sort == "age"
  {
    if sort == "new" then Some(New)
    else if sort == "title" then Some(Title)
    else if sort == "duration" then Some(Duration)
    else if sort == "players" then Some(Players)
    else if sort == "age" then Some(Age)
    else None
  }

  /** `typeof c.duration_hours === 'number' ? c.duration_hours : 0`. */
  function DurationKey(c: Campaign): real
  {
    c.durationHours.GetOr(0.0)
  }

  /** `typeof c.players_min === 'number' ? c.players_min : 0`. */
  function PlayersKey(c: Campaign): real
  {
    c.playersMin.GetOr(0.0)
  }

  /** `parseInt(String(c.age ?? '0'), 10)`. */
  function AgeKey(c: Campaign): Num
  {
    ParseInt(c.age.GetOr("0"))
  }

  /** `a` may stay before `b`: the comparator's result is not positive. A NaN
      result counts as 0, so a campaign whose age does not parse is "equal"
      to every other one. */
  predicate Le(key: SortKey, a: Campaign, b: Campaign)
  {
    match key
    case New => b.createdAt - a.createdAt <= 0
    case Title => LexLe(a.title, b.title)
    case Duration => DurationKey(a) - DurationKey(b) <= 0.0
    case Players => PlayersKey(a) - PlayersKey(b) <= 0.0
    case Age => AgeKey(a).NaN? || AgeKey(b).NaN? || AgeKey(a).value - AgeKey(b).value <= 0
  }

  /** Every comparator decides every pair one way or the other. */
  lemma {:induction false} LeTotal(key: SortKey, a: Campaign, b: Campaign)
    ensures Le(key, a, b) || Le(key, b, a)
  {
    if key == Title {
      LexLeTotal(a.title, b.title);
    }
  }

  /** Every age parses as an integer, so the age comparator is consistent. */
  predicate AgesParse(cs: seq<Campaign>)
  {
    forall i :: 0 <= i < |cs| ==> AgeKey(cs[i]).Int?
  }

  /** The comparators are transitive; the age one only between parsed ages. */
  lemma {:induction false} LeTransitive(key: SortKey, a: Campaign, b: Campaign, c: Campaign)
    requires Le(key, a, b) && Le(key, b, c)
    requires key == Age ==> AgeKey(a).Int? && AgeKey(b).Int? && AgeKey(c).Int?
    ensures Le(key, a, c)
  {
    if key == Title {
      LexLeTransitive(a.title, b.title, c.title);
    }
  }

  /** The age comparator is not transitive: two parsed ages are each "equal"
      to an age that does not parse, yet the greater may not stay before the
      smaller. */
  lemma {:induction false} AgeNotTransitive(a: Campaign, b: Campaign, c: Campaign, m: int, n: int)
    requires a.age == Some(ToText(Int(m))) && b.age == Some("x") && c.age == Some(ToText(Int(n)))
    requires -MaxSafe <= n < m <= MaxSafe
    ensures Le(Age, a, b) && Le(Age, b, c) && !Le(Age, a, c)
  {
    AgeOfText(a, m);
    AgeOfText(c, n);
    ParseIntNoDigit("x");
  }

  /** A campaign whose age is the text of an integer has that age. */
  lemma {:induction false} AgeOfText(c: Campaign, m: int)
    requires c.age == Some(ToText(Int(m)))
    requires -MaxSafe <= m <= MaxSafe
    ensures AgeKey(c) == Int(m)
  {
    ParseIntToText(m);
  }

  /** Each neighbour pair is in comparator order. */
  predicate AdjacentSorted(key: SortKey, s: seq<Campaign>)
  {
    forall k :: 0 < k < |s| ==> Le(key, s[k - 1], s[k])
  }

  /** Every pair is in comparator order. */
  predicate SortedBy(key: SortKey, s: seq<Campaign>)
  {
    forall i, j :: 0 <= i < j < |s| ==> Le(key, s[i], s[j])
  }

  /** With a consistent comparator, neighbour order is full order. */
  lemma {:induction false} AdjacentIsSorted(key: SortKey, s: seq<Campaign>)
    requires AdjacentSorted(key, s)
    requires key == Age ==> AgesParse(s)
    ensures SortedBy(key, s)
  {
    if |s| > 1 {
      var t := s[..|s| - 1];
      assert AdjacentSorted(key, t);
      AdjacentIsSorted(key, t);
      forall i, j | 0 <= i < j < |s|
        ensures Le(key, s[i], s[j])
      {
        if j < |s| - 1 {
          assert t[i] == s[i] && t[j] == s[j];
        } else if i < j - 1 {
          assert t[i] == s[i] && t[j - 1] == s[j - 1];
          LeTransitive(key, s[i], s[j - 1], s[j]);
        }
      }
    }
  }

  /** The state inside the insertion of `s[i]`: it sits at `j`, every
      neighbour pair up to `i` is ordered except the one ending at `j`, and
      the campaigns on both sides of `j` are ordered with each other. */
  predicate Inserting(key: SortKey, s: seq<Campaign>, i: nat, j: nat)
    requires j <= i < |s|
  {
    && (forall k :: 0 < k <= i && k != j ==> Le(key, s[k - 1], s[k]))
    && (0 < j < i ==> Le(key, s[j - 1], s[j + 1]))
  }

  /** Swapping `s[j]` with a greater left neighbour moves the gap one left. */
  lemma {:induction false} SwapStep(key: SortKey, s: seq<Campaign>, i: nat, j: nat)
    requires 0 < j <= i < |s|
    requires Inserting(key, s, i, j)
    requires !Le(key, s[j - 1], s[j])
    ensures Inserting(key, s[j - 1 := s[j]][j := s[j - 1]], i, j - 1)
  {
    var t := s[j - 1 := s[j]][j := s[j - 1]];
    LeTotal(key, s[j - 1], s[j]);
    forall k | 0 < k <= i && k != j - 1
      ensures Le(key, t[k - 1], t[k])
    {
      if k == j {
        assert t[k - 1] == s[j] && t[k] == s[j - 1];
      } else if k == j + 1 {
        assert t[k - 1] == s[j - 1] && t[k] == s[j + 1];
      } else {
        assert t[k - 1] == s[k - 1] && t[k] == s[k];
      }
    }
    if 0 < j - 1 {
      assert t[j - 2] == s[j - 2] && t[j] == s[j - 1];
      assert Le(key, s[j - 2], s[j - 1]);
    }
  }

  /** Swapping two neighbours keeps the same campaigns. */
  lemma {:induction false} SwapKeeps(s: seq<Campaign>, j: nat)
    requires 0 < j < |s|
    ensures multiset(s[j - 1 := s[j]][j := s[j - 1]]) == multiset(s)
  {
    assert s[j - 1 := s[j]][j := s[j - 1]] == s[..j - 1] + [s[j], s[j - 1]] + s[j + 1..];
    assert s == s[..j - 1] + [s[j - 1], s[j]] + s[j + 1..];
  }

  /** Inserting `s[i]` starts with it at `i`, behind an ordered prefix. */
  lemma {:induction false} InsertStart(key: SortKey, s: seq<Campaign>, i: nat)
    requires i < |s|
    requires forall k :: 0 < k < i ==> Le(key, s[k - 1], s[k])
    ensures Inserting(key, s, i, i)
  {
  }

  /** Inserting ends when `s[j]` is first or may stay after its left
      neighbour: then the prefix up to `i` is ordered. */
  lemma {:induction false} InsertDone(key: SortKey, s: seq<Campaign>, i: nat, j: nat)
    requires j <= i < |s|
    requires Inserting(key, s, i, j)
    requires j == 0 || Le(key, s[j - 1], s[j])
    ensures forall k :: 0 < k < i + 1 ==> Le(key, s[k - 1], s[k])
  {
  }

  /** `campaigns.sort(cmp)`: an insertion sort by neighbour swaps, which
      moves a campaign before its neighbour only when the comparator says the
      neighbour is strictly greater. */
  method SortCampaigns(a: array<Campaign>, key: SortKey)
    modifies a
    ensures multiset(a[..]) == old(multiset(a[..]))
    ensures AdjacentSorted(key, a[..])
  {
    if a.Length == 0 {
      return;
    }
    var i := 1;
    while i < a.Length
      invariant 1 <= i <= a.Length
      invariant multiset(a[..]) == old(multiset(a[..]))
      invariant forall k :: 0 < k < i ==> Le(key, a[k - 1], a[k])
    {
      var j := i;
      InsertStart(key, a[..], i);
      while j > 0 && !Le(key, a[j - 1], a[j])
        invariant 0 <= j <= i
        invariant multiset(a[..]) == old(multiset(a[..]))
        invariant Inserting(key, a[..], i, j)
      {
        ghost var s := a[..];
        SwapStep(key, s, i, j);
        SwapKeeps(s, j);
        a[j - 1], a[j] := a[j], a[j - 1];
        assert a[..] == s[j - 1 := s[j]][j := s[j - 1]];
        j := j - 1;
      }
      InsertDone(key, a[..], i, j);
      i := i + 1;
    }
  }

  /** `new`: newest first, `created_at` never increasing along the list. */
  lemma {:induction false} NewestFirst(s: seq<Campaign>)
    requires AdjacentSorted(New, s)
    ensures forall i, j :: 0 <= i < j < |s| ==> s[i].createdAt >= s[j].createdAt
  {
    AdjacentIsSorted(New, s);
  }

  /** `title`: titles ascending in code-unit order. */
  lemma {:induction false} TitlesAscending(s: seq<Campaign>)
    requires AdjacentSorted(Title, s)
    ensures forall i, j :: 0 <= i < j < |s| ==> LexLe(s[i].title, s[j].title)
  {
    AdjacentIsSorted(Title, s);
  }

  /** `duration` and `players`: ascending, a missing number counting as 0. */
  lemma {:induction false} NumbersAscending(s: seq<Campaign>, t: seq<Campaign>)
    requires AdjacentSorted(Duration, s)
    requires AdjacentSorted(Players, t)
    ensures forall i, j :: 0 <= i < j < |s| ==> s[i].durationHours.GetOr(0.0) <= s[j].durationHours.GetOr(0.0)
    ensures forall i, j :: 0 <= i < j < |t| ==> t[i].playersMin.GetOr(0.0) <= t[j].playersMin.GetOr(0.0)
  {
    AdjacentIsSorted(Duration, s);
    AdjacentIsSorted(Players, t);
  }

  /** `age`: ascending by the parsed age when every age parses. */
  lemma {:induction false} AgesAscending(s: seq<Campaign>)
    requires AdjacentSorted(Age, s)
    requires AgesParse(s)
    ensures forall i, j :: 0 <= i < j < |s| ==> AgeKey(s[i]).value <= AgeKey(s[j]).value
  {
    AdjacentIsSorted(Age, s);
  }
}
