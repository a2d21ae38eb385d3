/** The filter record of the catalog page and the updates the filter bar hands
    to `onChange`: each builds a new record and leaves every other field as it was. */
module FiltersBar {
  import opened Wrappers
  import opened Numbers

  /** `Filters`: `undefined` is `None`. */
  datatype Filters = Filters(
    tags: seq<string>,
    durationMin: Option<Num>,
    durationMax: Option<Num>,
    playersMin: Option<Num>,
    playersMax: Option<Num>,
    age: Option<string>,
    statuses: seq<string>)

  /** `xs.filter((y) => y !== x)`. */
  function Remove(xs: seq<string>, x: string): (r: seq<string>)
    ensures x !in r
    ensures forall y :: y != x ==> (y in r <==> y in xs)
  {
    if xs == [] then []
    else if xs[0] == x then Remove(xs[1..], x)
    else [xs[0]] + Remove(xs[1..], x)
  }

  /** Every other value keeps its number of occurrences. */
  lemma {:induction false} RemoveCounts(xs: seq<string>, x: string)
    ensures multiset(Remove(xs, x)) == multiset(xs)[x := 0]
  {
    if xs != [] {
      RemoveCounts(xs[1..], x);
      assert xs == [xs[0]] + xs[1..];
    }
  }

  /** Filtering keeps the order: it works piece by piece over a concatenation. */
  lemma {:induction false} RemoveAppend(a: seq<string>, b: seq<string>, x: string)
    ensures Remove(a + b, x) == Remove(a, x) + Remove(b, x)
  {
    if a != [] {
      assert (a + b)[1..] == a[1..] + b;
      RemoveAppend(a[1..], b, x);
    } else {
      assert a + b == b;
    }
  }

  /** Filtering out a value that is not there changes nothing. */
  lemma {:induction false} RemoveAbsent(xs: seq<string>, x: string)
    requires x !in xs
    ensures Remove(xs, x) == xs
  {
    if xs != [] {
      RemoveAbsent(xs[1..], x);
    }
  }

  /** `toggleTag(tag)`: remove every occurrence of a selected tag, append an
      unselected one at the end. */
  function ToggleTag(f: Filters, tag: string): (r: Filters)
    ensures tag in r.tags <==> tag !in f.tags
    ensures forall t :: t != tag ==> (t in r.tags <==> t in f.tags)
    ensures tag !in f.tags ==> r.tags == f.tags + [tag]
    ensures tag in f.tags ==> multiset(r.tags) == multiset(f.tags)[tag := 0]
    ensures r == f.(tags := r.tags)
  {
    RemoveCounts(f.tags, tag);
    var next := if tag in f.tags then Remove(f.tags, tag) else f.tags + [tag];
    f.(tags := next)
  }

  /** Toggling an unselected tag twice gives the original filters back. */
  lemma {:induction false} ToggleTagTwice(f: Filters, tag: string)
    requires tag !in f.tags
    ensures ToggleTag(ToggleTag(f, tag), tag) == f
  {
    RemoveAppend(f.tags, [tag], tag);
    RemoveAbsent(f.tags, tag);
    assert Remove([tag], tag) == [];
  }

  /** Removing a selected tag keeps the remaining tags in their order: the
      tags before its first occurrence stay as they are, and the later ones
      lose every copy of it (as with `?tags=x,y,x`). */
  lemma {:induction false} ToggleTagKeepsOrder(f: Filters, before: seq<string>, tag: string, after: seq<string>)
    requires f.tags == before + [tag] + after
    requires tag !in before
    ensures ToggleTag(f, tag).tags == before + Remove(after, tag)
    ensures tag !in after ==> ToggleTag(f, tag).tags == before + after
  {
    assert tag in f.tags;
    calc {
      Remove(f.tags, tag);
      { RemoveAppend(before + [tag], after, tag); }
      Remove(before + [tag], tag) + Remove(after, tag);
      { RemoveAppend(before, [tag], tag); }
      Remove(before, tag) + Remove([tag], tag) + Remove(after, tag);
      { RemoveAbsent(before, tag); assert Remove([tag], tag) == []; }
      before + Remove(after, tag);
    }
    if tag !in after {
      RemoveAbsent(after, tag);
    }
  }

  /** `toggleStatus(status, checked)`: checking appends (a second copy when the
      status is already there), unchecking removes every occurrence. */
  function ToggleStatus(f: Filters, status: string, checked: bool): (r: Filters)
    ensures checked ==> r.statuses == f.statuses + [status]
    ensures !checked ==> status !in r.statuses
    ensures !checked ==> multiset(r.statuses) == multiset(f.statuses)[status := 0]
    ensures r == f.(statuses := r.statuses)
  {
    RemoveCounts(f.statuses, status);
    var next := if checked then f.statuses + [status] else Remove(f.statuses, status);
    f.(statuses := next)
  }

  /** Checking an already checked status duplicates it. */
  lemma {:induction false} ToggleStatusDuplicates(f: Filters, status: string)
    requires status in f.statuses
    ensures multiset(ToggleStatus(f, status, true).statuses)[status] >= 2
  {
    assert multiset(f.statuses)[status] >= 1;
  }

  /** Checking and then unchecking a status that was not selected restores the filters. */
  lemma {:induction false} ToggleStatusTwice(f: Filters, status: string)
    requires status !in f.statuses
    ensures ToggleStatus(ToggleStatus(f, status, true), status, false) == f
  {
    RemoveAppend(f.statuses, [status], status);
    RemoveAbsent(f.statuses, status);
    assert Remove([status], status) == [];
  }

  /** `Number(text) || undefined`: 0 and NaN are falsy, so they clear the field. */
  function InputValue(text: string): (r: Option<Num>)
    ensures r.Some? ==> r.value.Int? && r.value.value != 0
    ensures r.Some? ==> r.value == ToNumber(text)
    ensures r.None? <==> ToNumber(text) == NaN || ToNumber(text) == Int(0)
  {
    match ToNumber(text)
    case NaN => None
    case Int(n) => if n == 0 then None else Some(Int(n))
  }

  /** A number typed as `String` writes it is kept, except 0. */
  lemma {:induction false} InputValueOfText(n: int)
    ensures InputValue(ToText(Int(n))) == if n == 0 then None else Some(Int(n))
  {
    ToNumberToText(Int(n));
  }

  datatype RangeField = DurationMin | DurationMax | PlayersMin | PlayersMax

  /** The `onChange` of one of the four number inputs. */
  function SetRange(f: Filters, field: RangeField, text: string): (r: Filters)
    ensures field == DurationMin ==> r == f.(durationMin := InputValue(text))
    ensures field == DurationMax ==> r == f.(durationMax := InputValue(text))
    ensures field == PlayersMin ==> r == f.(playersMin := InputValue(text))
    ensures field == PlayersMax ==> r == f.(playersMax := InputValue(text))
  {
    match field
    case DurationMin => f.(durationMin := InputValue(text))
    case DurationMax => f.(durationMax := InputValue(text))
    case PlayersMin => f.(playersMin := InputValue(text))
    case PlayersMax => f.(playersMax := InputValue(text))
  }

  /** The age select's `onValueChange`. */
  function SetAge(f: Filters, age: string): (r: Filters)
    ensures r.age == Some(age) && r == f.(age := r.age)
  {
    f.(age := Some(age))
  }
}
