/** The records the catalog search reads and answers with. */
module Campaigns {
  import opened Wrappers
  import opened Numbers

  const PageSize: nat := 10
  const Published: string := "published"

  /** A row of the `campaigns` table. The search reads a field only after a
      `typeof` check, so every field it checks is optional here. JavaScript
      numbers are reals; `created_at` is its time in milliseconds. */
  datatype Campaign = Campaign(
    id: string,
    slug: string,
    title: string,
    shortDescription: string,
    status: Option<string>,
    tags: Option<seq<string>>,
    durationHours: Option<real>,
    playersMin: Option<real>,
    playersMax: Option<real>,
    age: Option<string>,
    coverUrl: Option<string>,
    createdAt: int)

  /** A row of the `aggregate_votes` answer. */
  datatype AggRow = AggRow(campaignId: string, votes: int)

  /** A page item: the campaign's fields spread with `votes30d` added. When the
      id is not among the campaigns, the spread of `undefined` adds nothing and
      the item holds only `votes30d`. */
  datatype Item = Item(record: Option<Campaign>, votes30d: int)

  datatype Range = Range(min: real, max: real)

  datatype Facets = Facets(
    tags: seq<string>,
    statuses: seq<string>,
    ages: seq<string>,
    duration: Range,
    players: Range)

  /** The answer of a datastore call: its data or its error message. */
  datatype Fetch<T> = Ok(value: T) | Err(message: string)

  /** The JSON body of the search: the page, or an error message with status 500. */
  datatype SearchResponse =
    | Found(items: seq<Item>, total: nat, page: Num, pageSize: nat, facets: Facets)
    | Failed(status: int, message: string)

  function Ids(cs: seq<Campaign>): (r: seq<string>)
    ensures |r| == |cs|
    ensures forall i :: 0 <= i < |cs| ==> r[i] == cs[i].id
  {
    if cs == [] then [] else [cs[0].id] + Ids(cs[1..])
  }

  function AggIds(agg: seq<AggRow>): (r: seq<string>)
    ensures |r| == |agg|
    ensures forall i :: 0 <= i < |agg| ==> r[i] == agg[i].campaignId
  {
    if agg == [] then [] else [agg[0].campaignId] + AggIds(agg[1..])
  }
}
