# vtm_vote catalog and voting core, modelled in Dafny

This project models the logic of a campaign catalog with anonymous voting
(a Next.js application backed by a hosted database). It covers five parts:

- **The catalog search route** (`GET /api/campaigns`). The request
  parameters are parsed, with the page clamped to at least 1 and integer
  range bounds. The datastore constraints are chosen, with "published only"
  as the default. Facets come from one accumulating pass over the filtered
  campaigns. A vote map is built from the aggregation rows. The campaigns
  array is sorted in place by one of five keys, or the order of the
  aggregation rows is taken. A page of ten ids is cut and every id is merged
  with its vote count.
- **The vote route** (`POST /api/vote`). The body is checked. The campaign
  must be published. A vote is a duplicate when the pair (campaign,
  hash of the fingerprint) already has a row. The accepted vote is one new
  row holding only hashes. The client IP comes from a chain of header
  fallbacks.
- **Storage paths** (`makePath` and the four URL helpers).
- **Filter toggles** of the filter bar.
- **The catalog page in the browser.** It covers the state read from the
  first URL and the query string `buildQuery` writes. It also covers the
  address-bar update and the list of items, which a first fetch replaces and
  "load more" extends.

Modules follow the source files:

- `SearchQuery`, `FacetPass`, `Sorting` and `CampaignsRoute` model the search route.
- `VoteRoute` models the vote route.
- `Storage` models the storage paths.
- `FiltersBar` models the filter bar.
- `CatalogClient` models the catalog page.
- `Strings`, `Numbers` and `UrlParams` model the JavaScript built-ins the core
  relies on: `trim`, `split`, `join`, `filter(Boolean)`, `parseInt`,
  `Number`, `String` and `URLSearchParams`.

External calls become parameters:

- the datastore queries, the `aggregate_votes` procedure and the insert;
- the storage service;
- `sha256Hex`;
- the `fetch` of the search route from the browser.

The imperative parts are methods with loops and frames:

- the facet loop;
- the vote-map loop;
- the in-place sort of the campaigns array;
- the ten `params.set` calls of `buildQuery`;
- the vote insert;
- the item list of the page.

Each such method is proved against a specification: a function of its
inputs for the loops, and the predicates `AdjacentSorted` and a `multiset`
equality for the in-place sort. The properties the code promises are lemmas
about those functions and predicates.

## Model

| member | source | states |
|---|---|---|
| Strings.Trim | src/app/api/campaigns/route.ts:19 | the result has no white space at either end, and text already without it is unchanged |
| Strings.DropLeading | src/app/api/campaigns/route.ts:19 | removes exactly the longest prefix of characters from the set: everything dropped is in the set, and what is left does not start with one |
| Strings.DropTrailing | src/app/api/campaigns/route.ts:19 | the same at the end: everything dropped is in the set, and what is left does not end with one |
| Strings.Split | src/app/api/campaigns/route.ts:33 | at least one piece, no piece holds the separator, and joining the pieces gives the text back |
| Strings.Join | src/components/catalog-client.tsx:83 | `join(sep)`; no contract of its own: `SplitJoin` and `ParseListJoin` state that splitting undoes it, `Storage.JoinEnds` that a join of non-empty parts starts with the first character of its first part and ends with the last character of its last |
| Strings.NonEmpty | src/app/api/campaigns/route.ts:33 | `filter(Boolean)` keeps exactly the non-empty strings and leaves a list without empty strings as it is |
| Strings.NonEmptyAppend | src/app/api/campaigns/route.ts:33 | `filter(Boolean)` of a concatenation is the concatenation of the filtered parts, so the kept strings stay in their order |
| Strings.NonEmptyOne | src/app/api/campaigns/route.ts:33 | a one-string list keeps its string exactly when it is not empty |
| Strings.ParseList | src/components/catalog-client.tsx:47-51 | every entry of `split(",").filter(Boolean)` is non-empty and comma-free |
| Strings.SplitJoin | src/components/catalog-client.tsx:83 | splitting the join of separator-free parts gives the parts back |
| Strings.ParseListJoin | src/components/catalog-client.tsx:47-51 | every list of non-empty, comma-free entries, the empty list included, survives `join(",")` then `split(",").filter(Boolean)`, and its join is empty exactly when the list is |
| Strings.LexLeIsUnitOrder | src/app/api/campaigns/route.ts:87 | the order `sort()` uses on characters is exactly the lexicographic order of the strings' UTF-16 code units, surrogate pairs included |
| Strings.UnitsDecide | src/app/api/campaigns/route.ts:87 | the first differing character decides the code-unit order, a character below the surrogate range before one above it |
| Strings.LexLeTotal | src/app/api/campaigns/route.ts:87 | the code-unit order of `sort()` compares any two strings |
| Strings.LexLeTransitive | src/app/api/campaigns/route.ts:87 | that order is transitive |
| Strings.LexLeAntisymmetric | src/app/api/campaigns/route.ts:87 | that order is antisymmetric |
| Strings.SortDistinct | src/app/api/campaigns/route.ts:87-89 | `Array.from(set).sort()` gives a permutation of the set's elements, strictly ascending in UTF-16 code-unit order (`LexLeIsUnitOrder`) |
| Numbers.ParseInt | src/app/api/campaigns/route.ts:22-26 | `parseInt(s, 10)` is NaN exactly when no digit follows the leading white space and an optional sign |
| Numbers.LeadingDigits | src/app/api/campaigns/route.ts:22-26 | the digits `parseInt` reads: a prefix made only of digits, followed by the end of the text or by a character that is not a digit |
| Numbers.SignedBody | src/app/api/campaigns/route.ts:22-26 | what follows the sign: the text itself, or the text without its first character when that is `-` or `+` |
| Numbers.ParseIntValue | src/app/api/campaigns/route.ts:22-26 | after white space and an optional sign, `parseInt` reads the run of digits as its signed decimal value, whatever text follows the digits |
| Numbers.ToNumber | src/components/catalog-client.tsx:52-54 | `Number` of blank text is 0 |
| Numbers.ToNumberValue | src/components/catalog-client.tsx:52-54 | `Number` of text that trims to an optionally signed run of digits is that run's signed decimal value |
| Numbers.ParseIntToText | src/app/api/campaigns/route.ts:23-26 | the server's `parseInt` reads back every safe integer (at most 2^53 - 1 in size) the client's `String` wrote |
| Numbers.ToNumberToText | src/components/catalog-client.tsx:52-54 | `Number(String(n))` is `n`, NaN included |
| Numbers.ToText | src/components/catalog-client.tsx:84-91 | `String(n)`; no contract of its own: `ToTextShape` states it is a sign only for negatives followed by the decimal digits, `CatalogClient.ToTextNotEmpty` that it is never empty, `ParseIntToText` and `ToNumberToText` that `parseInt` and `Number` read it back |
| UrlParams.Get | src/app/api/campaigns/route.ts:19-28 | `get` is absent exactly when no entry has the name |
| UrlParams.GetFirst | src/app/api/campaigns/route.ts:19-28 | when some entry has the name, `get` gives the value of the first such entry |
| UrlParams.Set | src/components/catalog-client.tsx:81 | after `set`, `get` gives the new value, every other name reads as before, and a new name is appended at the end |
| UrlParams.Without | src/components/catalog-client.tsx:81 | the entries `set` keeps: every entry not under the name, and no entry under it |
| UrlParams.GetAppend | src/components/catalog-client.tsx:81-95 | an appended entry is seen by `get` only when no earlier entry has its name |
| UrlParams.Serialize | src/components/catalog-client.tsx:96 | `toString()` is empty exactly when there are no entries |
| Campaigns.Ids | src/app/api/campaigns/route.ts:100 | the ids of the campaigns, one for one |
| Campaigns.AggIds | src/app/api/campaigns/route.ts:150 | the ids of the aggregation rows, in their order |
| SearchQuery.OrElse | src/app/api/campaigns/route.ts:21 | `value \|\| fallback`: a missing or empty parameter falls back |
| SearchQuery.AtLeastOne | src/app/api/campaigns/route.ts:22 | `Math.max(n, 1)` is NaN exactly for NaN, and otherwise at least 1 and equal to `n` when `n >= 1` |
| SearchQuery.ParseRequest | src/app/api/campaigns/route.ts:18-28 | the page is `parseInt` of the parameter (1 when absent) raised to 1, NaN exactly when that is NaN; the sort is the parameter, `popular` when absent or empty; the query is the trimmed parameter, empty when absent |
| SearchQuery.PageValue | src/app/api/campaigns/route.ts:22 | a `page` of white space, a sign and digits, with any text after them, is that number raised to 1 (`3abc` is 3, `0` and `-2` are 1) |
| SearchQuery.TrimOpt | src/app/api/campaigns/route.ts:19-27 | `?.trim()`; no contract of its own: `ParseRequest` states the query is the trimmed parameter and `AgeConstraint` that the age is |
| SearchQuery.TrimAll | src/app/api/campaigns/route.ts:33 | every entry trimmed, one for one |
| SearchQuery.TrimmedList | src/app/api/campaigns/route.ts:33 | the trimmed list holds no empty entry |
| SearchQuery.OnColumn | src/app/api/campaigns/route.ts:30-53 | the constraints on one column, exactly those of the list |
| SearchQuery.OnColumnAppend | src/app/api/campaigns/route.ts:30-53 | the constraints on a column of two lists, in order |
| SearchQuery.StatusColumn | src/app/api/campaigns/route.ts:32-53 | only the status part of the constraints names the `status` column |
| SearchQuery.StatusVisibility | src/app/api/campaigns/route.ts:32-37 | with no or an empty `statuses` parameter the only status constraint is `status = published`; a list that trims to entries restricts to exactly those; a list that trims to nothing puts no condition on the status |
| SearchQuery.StatusesVisible | src/app/api/campaigns/route.ts:32-37 | the same three cases for a request already read from the parameters |
| SearchQuery.RangeOnly | src/app/api/campaigns/route.ts:49-53 | the bounds and the age condition come only from the range part |
| SearchQuery.RangeMembers | src/app/api/campaigns/route.ts:49-52 | a bound is present exactly when its parsed parameter is that integer |
| SearchQuery.RangeBounds | src/app/api/campaigns/route.ts:23-52 | each bound is a constraint exactly when its parameter parses as that integer; `playersMin` bounds `players_min` from below and `playersMax` bounds `players_max` from above |
| SearchQuery.AgeMember | src/app/api/campaigns/route.ts:53 | the age condition is present exactly for a non-empty age |
| SearchQuery.AgeConstraint | src/app/api/campaigns/route.ts:27-53 | `age = a` is a constraint exactly when the trimmed `age` parameter is `a` and not empty |
| SearchQuery.StatusConstraints | src/app/api/campaigns/route.ts:32-37 | no contract of its own: `StatusVisibility` and `StatusesVisible` state its three cases and `StatusColumn` that it alone speaks of `status` |
| SearchQuery.TextConstraints | src/app/api/campaigns/route.ts:39-42 | no contract of its own: `TextSearch` states what it contributes |
| SearchQuery.TagConstraints | src/app/api/campaigns/route.ts:44-47 | no contract of its own: `TagContains` states what it contributes |
| SearchQuery.RangeConstraints | src/app/api/campaigns/route.ts:49-53 | no contract of its own: `RangeMembers`, `RangeOnly`, `RangeBounds`, `AgeMember` and `AgeConstraint` state its bounds and its age condition |
| SearchQuery.Constraints | src/app/api/campaigns/route.ts:30-53 | the constraints in the order the builder calls add them; no contract of its own: `StatusVisibility`, `TextSearch`, `TagContains`, `RangeBounds` and `AgeConstraint` state, kind by kind, exactly which constraints it holds |
| SearchQuery.TextSearch | src/app/api/campaigns/route.ts:39-42 | the only `or` condition is the search for `%query%` in the title or the short description, present exactly when the query is not empty |
| SearchQuery.TagContains | src/app/api/campaigns/route.ts:44-47 | the only `contains` condition is on `tags` with the trimmed non-empty entries of the list, present exactly when there is at least one |
| FacetPass.Add | src/app/api/campaigns/route.ts:71 | `Set.add` as an insertion-ordered list: members are the old ones and `x`, still without repeats |
| FacetPass.AddAll | src/app/api/campaigns/route.ts:71 | adding a list keeps the list duplicate-free and holds exactly the old members and the added ones |
| FacetPass.AddDefined | src/app/api/campaigns/route.ts:72-73 | a string field is added only when present |
| FacetPass.TagsSeen | src/app/api/campaigns/route.ts:70-71 | the tag set is duplicate-free and holds exactly the tags of the campaigns |
| FacetPass.TagsOf | src/app/api/campaigns/route.ts:71 | `c.tags` with an absent list as none; no contract of its own: `TagsSeen` and `FacetSets` state what the walk collects from it |
| FacetPass.StatusesSeen | src/app/api/campaigns/route.ts:70-72 | the status set holds exactly the string statuses of the campaigns |
| FacetPass.AgesSeen | src/app/api/campaigns/route.ts:70-73 | the age set holds exactly the string ages of the campaigns |
| FacetPass.MinWith | src/app/api/campaigns/route.ts:75 | `Math.min` with an `Infinity` start is finite, at most both arguments and equal to one of them |
| FacetPass.MaxWith | src/app/api/campaigns/route.ts:76 | `Math.max` is at least both arguments and equal to one |
| FacetPass.LowOver | src/app/api/campaigns/route.ts:74-80 | the running minimum stays `Infinity` exactly when no campaign has the number, and is otherwise the least value present |
| FacetPass.HighOver | src/app/api/campaigns/route.ts:74-83 | the running maximum from 0 is at least 0, at least every value, and either 0 or one of the values |
| FacetPass.AddTags | src/app/api/campaigns/route.ts:71 | the inner `forEach` over a campaign's tags adds them all |
| FacetPass.StepSets | src/app/api/campaigns/route.ts:70-73 | one more campaign adds its tags, its string status and its string age to the three sets |
| FacetPass.StepRange | src/app/api/campaigns/route.ts:74-83 | one more campaign moves a running bound only when it has a number in that field |
| FacetPass.VisitSets | src/app/api/campaigns/route.ts:70-73 | one iteration of the facet loop moves the three sets one campaign further |
| FacetPass.VisitRanges | src/app/api/campaigns/route.ts:74-83 | one iteration of the facet loop moves the four running bounds one campaign further |
| FacetPass.ComputeFacets | src/app/api/campaigns/route.ts:62-98 | the loop with its seven accumulators computes the facets of the campaigns |
| FacetPass.LowOrZero | src/app/api/campaigns/route.ts:91-95 | `Infinity` read as 0; no contract of its own: `DurationFacet` and `PlayersFacet` state the resulting minimum |
| FacetPass.FacetsOf | src/app/api/campaigns/route.ts:62-98 | the `facets` object; no contract of its own: `ComputeFacets` is proved equal to it, and `FacetSets`, `DurationFacet` and `PlayersFacet` state what each field holds |
| FacetPass.SortedMembers | src/app/api/campaigns/route.ts:87-89 | sorting a set keeps exactly its members |
| FacetPass.FacetSets | src/app/api/campaigns/route.ts:62-89 | tags, statuses and ages are strictly ascending in UTF-16 code-unit order and hold exactly the values the filtered campaigns carry |
| FacetPass.DurationFacet | src/app/api/campaigns/route.ts:74-93 | duration min is 0 when no campaign has a numeric duration and otherwise the least duration; max is at least 0 and at least every duration |
| FacetPass.PlayersFacet | src/app/api/campaigns/route.ts:78-97 | players min over `players_min` as for durations; max over `players_max`, at least 0 |
| Sorting.ParseSort | src/app/api/campaigns/route.ts:112-151 | the five keys are chosen by exactly their names; any other sort value takes the aggregation order |
| Sorting.DurationKey | src/app/api/campaigns/route.ts:126-127 | a missing duration counts as 0; no contract of its own: `NumbersAscending` states the order it gives |
| Sorting.PlayersKey | src/app/api/campaigns/route.ts:135-136 | a missing `players_min` counts as 0; no contract of its own: `NumbersAscending` states the order it gives |
| Sorting.AgeKey | src/app/api/campaigns/route.ts:145 | `parseInt` of the age, `0` when absent; no contract of its own: `AgeOfText` states that an integer's text is read as that integer, `AgesAscending` the order it gives |
| Sorting.Le | src/app/api/campaigns/route.ts:111-146 | the five comparators' `<= 0`, a NaN result counting as 0; no contract of its own: `LeTotal`, `LeTransitive` and `AgeNotTransitive` state its laws |
| Sorting.LeTotal | src/app/api/campaigns/route.ts:111-148 | every comparator decides every pair one way or the other |
| Sorting.LeTransitive | src/app/api/campaigns/route.ts:113-148 | the comparators are transitive, the age one when every age parses |
| Sorting.AgeNotTransitive | src/app/api/campaigns/route.ts:141-146 | with an age that does not parse, two safe integer ages are both "equal" to it, yet the greater may not precede the smaller |
| Sorting.AdjacentIsSorted | src/app/api/campaigns/route.ts:111-148 | with a consistent comparator, order of neighbours is order of every pair |
| Sorting.SwapStep | src/app/api/campaigns/route.ts:114 | swapping a campaign with a greater left neighbour keeps the insertion invariant |
| Sorting.SwapKeeps | src/app/api/campaigns/route.ts:114 | a swap keeps the same campaigns |
| Sorting.SortCampaigns | src/app/api/campaigns/route.ts:114-146 | the in-place sort leaves a permutation of the array in comparator order |
| Sorting.NewestFirst | src/app/api/campaigns/route.ts:113-117 | `new`: `created_at` never increases along the list |
| Sorting.TitlesAscending | src/app/api/campaigns/route.ts:118-122 | `title`: titles ascend |
| Sorting.NumbersAscending | src/app/api/campaigns/route.ts:123-140 | `duration` and `players`: ascending, a missing number counting as 0 |
| Sorting.AgesAscending | src/app/api/campaigns/route.ts:141-148 | `age`: ascending by parsed age when every age parses |
| CampaignsRoute.LastVotes | src/app/api/campaigns/route.ts:106-109 | absent exactly when no row has the id; otherwise the votes of the last row with it |
| CampaignsRoute.VoteMap | src/app/api/campaigns/route.ts:106-109 | the map holds exactly the ids of the rows, each with the votes of its last row |
| CampaignsRoute.BuildVoteMap | src/app/api/campaigns/route.ts:106-109 | the `forEach` filling the vote map computes that map |
| CampaignsRoute.SliceIndex | src/app/api/campaigns/route.ts:155 | a `slice` bound lies within the length and is the bound itself when in range |
| CampaignsRoute.Slice | src/app/api/campaigns/route.ts:155 | a slice is no longer than the list |
| CampaignsRoute.PageOf | src/app/api/campaigns/route.ts:153-155 | the page of ids; no contract of its own: `PageContents` and `PagesCover` state which ids it holds |
| CampaignsRoute.PageContents | src/app/api/campaigns/route.ts:153-155 | a NaN page is empty; page `p >= 1` has at most ten ids, is empty past the end, and is otherwise the run from `(p - 1) * 10` |
| CampaignsRoute.PagesCover | src/app/api/campaigns/route.ts:153-155 | pages 1 to n in a row are the first `10 n` ids, without gaps or repeats |
| CampaignsRoute.FindById | src/app/api/campaigns/route.ts:158 | `find` gives the first campaign with the id, and nothing exactly when no campaign has it |
| CampaignsRoute.Items | src/app/api/campaigns/route.ts:157-160 | one item per paged id, in order |
| CampaignsRoute.ItemFields | src/app/api/campaigns/route.ts:157-160 | an item carries the votes of the last aggregation row for its id, or 0, and the campaign with its id when there is one |
| CampaignsRoute.ItemFor | src/app/api/campaigns/route.ts:157-160 | one item; no contract of its own: `ItemFields` states its votes and its record |
| CampaignsRoute.Order | src/app/api/campaigns/route.ts:111-151 | the ids of the sorted campaigns for a known key, otherwise of the aggregation rows; no contract of its own: `AnswerShape` states it is a permutation of the campaign ids or the aggregation ids |
| CampaignsRoute.Answer | src/app/api/campaigns/route.ts:153-162 | the response object; no contract of its own: `AnswerShape` states its total, page size, facets and order |
| CampaignsRoute.Respond | src/app/api/campaigns/route.ts:59-162 | after the campaigns query, the sort leaves a permutation of them in key order, or keeps them for the aggregation order, and the answer is that of the sorted array |
| CampaignsRoute.Get | src/app/api/campaigns/route.ts:17-163 | an error of either datastore call is a 500 with its message; otherwise the answer of the parsed request on the filtered campaigns |
| CampaignsRoute.Handle | src/app/api/campaigns/route.ts:30-163 | for a parsed request: an error of either datastore call is a 500 with its message; otherwise the answer on a sorted permutation of the filtered campaigns |
| CampaignsRoute.MultisetRemove | src/app/api/campaigns/route.ts:114-146 | removing one element from a list removes it from its multiset |
| CampaignsRoute.IdsRemove | src/app/api/campaigns/route.ts:100 | removing a campaign removes its id from the ids |
| CampaignsRoute.IdsPermutation | src/app/api/campaigns/route.ts:111-140 | the ids of a permutation of the campaigns are a permutation of their ids |
| CampaignsRoute.AnswerShape | src/app/api/campaigns/route.ts:153-162 | `total` is the number of filtered campaigns on every page, a page has at most ten items, the facets are those of the filtered set, and the page ids come from a permutation of the filtered ids or from the aggregation rows |
| FiltersBar.Remove | src/components/filters-bar.tsx:45 | `filter((t) => t !== tag)` removes the tag and keeps every other one |
| FiltersBar.RemoveCounts | src/components/filters-bar.tsx:45 | it removes every occurrence and nothing else |
| FiltersBar.RemoveAppend | src/components/filters-bar.tsx:53 | removing distributes over concatenation, so order is kept |
| FiltersBar.RemoveAbsent | src/components/filters-bar.tsx:53 | removing an absent value changes nothing |
| FiltersBar.ToggleTag | src/components/filters-bar.tsx:42-48 | an absent tag is appended at the end; a present one loses every occurrence; no other field changes |
| FiltersBar.ToggleTagTwice | src/components/filters-bar.tsx:42-48 | toggling an absent tag twice restores the filters |
| FiltersBar.ToggleTagKeepsOrder | src/components/filters-bar.tsx:43-45 | unchecking a tag keeps the tags before its first occurrence as they are and drops every later copy, the others keeping their order |
| FiltersBar.ToggleStatus | src/components/filters-bar.tsx:50-55 | checking appends the status even when present; unchecking removes every occurrence; no other field changes |
| FiltersBar.ToggleStatusDuplicates | src/components/filters-bar.tsx:51-52 | checking a present status gives a duplicate |
| FiltersBar.ToggleStatusTwice | src/components/filters-bar.tsx:50-55 | checking then unchecking an absent status restores the filters |
| FiltersBar.InputValue | src/components/filters-bar.tsx:79 | `Number(text) \|\| undefined` is undefined exactly when the number is NaN or 0, and otherwise is that number |
| FiltersBar.InputValueOfText | src/components/filters-bar.tsx:78-80 | a typed integer is kept, except 0 |
| FiltersBar.SetRange | src/components/filters-bar.tsx:75-116 | each number input changes only its own field |
| FiltersBar.SetAge | src/components/filters-bar.tsx:120-123 | the age select changes only the age |
| Storage.CleanPart | src/lib/storage.ts:19 | a cleaned part neither starts nor ends with `/` |
| Storage.CleanParts | src/lib/storage.ts:19 | every part cleaned, one for one |
| Storage.MakePath | src/lib/storage.ts:17-22 | `makePath(...parts)`; no contract of its own: `MakePathEnds`, `MakePathEmpty`, `MakePathSegments`, `MakePathSingle` and `MakePathOfClean` state its shape |
| Storage.MakePathEnds | src/lib/storage.ts:17-22 | a path never starts or ends with `/` |
| Storage.MakePathEmpty | src/lib/storage.ts:17-22 | the path is empty exactly when every part cleans to nothing |
| Storage.BlankPartVanishes | src/lib/storage.ts:19-20 | a part of only white space or only slashes is dropped |
| Storage.MakePathSegments | src/lib/storage.ts:17-22 | with slash-free parts, the segments of the path are the kept parts, none of them empty |
| Storage.MakePathSingle | src/lib/storage.ts:17-22 | a part without outer white space or slashes is its own path |
| Storage.MakePathOfClean | src/lib/storage.ts:17-22 | clean parts are joined with `/` as they are |
| Storage.CoverPublicUrl | src/lib/storage.ts:32-39 | no URL for an empty campaign id; otherwise the public URL of `covers/<id>.<ext>`, `ext` defaulting to `jpg` |
| Storage.GalleryItemPublicUrl | src/lib/storage.ts:49-56 | no URL when either argument is empty; otherwise the public URL of `gallery/<id>/<filename>` |
| Storage.CoverPath | src/lib/storage.ts:35 | `covers/<id>.<ext>`; no contract of its own: `CoverPathsAgree` states that the signed cover path is this one |
| Storage.GalleryPath | src/lib/storage.ts:52 | `gallery/<id>/<filename>`; no contract of its own: `GalleryPathsAgree` states that the signed gallery path is this one |
| Storage.SignedUrl | src/lib/storage.ts:66-85 | a path with no white space or `/` at either end is signed as it is, and one that cleans to nothing is signed as the empty name |
| Storage.PrivateCoverUrl | src/lib/storage.ts:94-105 | no storage request for an empty campaign id; otherwise a signature for the cover path after both `makePath` calls |
| Storage.PrivateGalleryItemUrl | src/lib/storage.ts:114-125 | no storage request when either argument is empty; otherwise a signature for the gallery path after both `makePath` calls |
| Storage.CoverPathsAgree | src/lib/storage.ts:103 | for a clean file name the signed cover path is the public one |
| Storage.GalleryPathsAgree | src/lib/storage.ts:123 | for clean arguments the signed gallery path is the public one |
| CatalogClient.Present | src/components/catalog-client.tsx:41 | a parameter is truthy exactly when present and not empty |
| CatalogClient.ListParam | src/components/catalog-client.tsx:47-51 | the list read from a parameter holds non-empty, comma-free entries |
| CatalogClient.NumberParam | src/components/catalog-client.tsx:52-54 | a number is read exactly when the parameter is truthy |
| CatalogClient.InitialState | src/components/catalog-client.tsx:40-70 | query defaults to empty, sort to `popular`, tag and status lists to empty; the state read is always one the query string can carry |
| CatalogClient.WellFormed | src/components/catalog-client.tsx:40-70 | the states the query string can carry; no contract of its own: `InitialState` states every state read is one, `RoundTrip` that exactly these survive `buildQuery` then a re-read |
| CatalogClient.Slots | src/components/catalog-client.tsx:81-95 | the ten guarded `set` calls name the keys in the fixed order |
| CatalogClient.Emit | src/components/catalog-client.tsx:80-95 | each entry left comes from a call whose condition held |
| CatalogClient.NumText | src/components/catalog-client.tsx:84-91 | `String(n)` of a defined bound; no contract of its own: `QueryValues` states that each defined bound is written as `String(n)`, and `NumberBack` and `BoundBack` state how that is read back |
| CatalogClient.QueryPairs | src/components/catalog-client.tsx:78-97 | the entries `buildQuery` leaves; no contract of its own: `BuildQuery` is proved to serialise them, `QueryOrder` and `QueryValues` state their order and values |
| CatalogClient.SlotsDistinct | src/components/catalog-client.tsx:81-95 | no two calls set the same name |
| CatalogClient.SetStep | src/components/catalog-client.tsx:80-95 | each `set` on a new name appends, so the loop builds the entries in call order |
| CatalogClient.NewKey | src/components/catalog-client.tsx:80-95 | a name no earlier call sets is not among their entries |
| CatalogClient.BuildQuery | src/components/catalog-client.tsx:78-97 | the `URLSearchParams` filled by the guarded `set` calls serialises to the entries of the state |
| CatalogClient.EmitOrder | src/components/catalog-client.tsx:80-95 | entries come out in the order of their calls |
| CatalogClient.QueryOrder | src/components/catalog-client.tsx:81-95 | names appear only in the order query, sort, tags, durationMin, durationMax, playersMin, playersMax, age, statuses, page |
| CatalogClient.EmitGet | src/components/catalog-client.tsx:81-95 | `get` of a name gives the value of its call exactly when its condition held |
| CatalogClient.QueryValues | src/components/catalog-client.tsx:81-95 | each name appears exactly when its value is set (non-empty text, sort other than `popular`, non-empty list, defined number, truthy page) and carries that value |
| CatalogClient.ToTextNotEmpty | src/components/catalog-client.tsx:84-91 | `String(n)` is never empty |
| CatalogClient.ListBack | src/components/catalog-client.tsx:47-51 | a list written with `join(",")` is read back unchanged |
| CatalogClient.NumberBack | src/components/catalog-client.tsx:52-54 | a number written with `String` is read back unchanged |
| CatalogClient.RoundTrip | src/components/catalog-client.tsx:40-97 | the state read from a state's query string is that state, exactly for states the query string can carry |
| CatalogClient.ParseIntOfNaN | src/app/api/campaigns/route.ts:23 | `parseInt("NaN")` is NaN |
| CatalogClient.BoundBack | src/app/api/campaigns/route.ts:23-26 | the server reads a written range filter that is a safe integer as the number itself, or NaN when undefined or NaN |
| CatalogClient.ServerPage | src/components/catalog-client.tsx:95 | the server reads the page `p` (from 1 to 2^53 - 1) of a fetch as `p` |
| CatalogClient.ReadsSort | src/components/catalog-client.tsx:82 | the server reads the sort as the state's, `popular` for an empty one |
| CatalogClient.ReadsQuery | src/components/catalog-client.tsx:81 | the server reads the query as the state's, trimmed |
| CatalogClient.ReadsLists | src/components/catalog-client.tsx:83-94 | the server reads tags and statuses as the joined lists, absent for empty ones |
| CatalogClient.ServerText | src/components/catalog-client.tsx:81-94 | sort, query and lists as the server reads them, together |
| CatalogClient.ServerBounds | src/components/catalog-client.tsx:84-91 | the four range bounds, each a safe integer or NaN, as the server reads them |
| CatalogClient.RouterUrl | src/components/catalog-client.tsx:103 | the URL is `/` exactly for an empty query string, and `/?` followed by it otherwise |
| CatalogClient.Replacement | src/components/catalog-client.tsx:101-111 | the router is sent the URL of the state exactly when it differs from the current one |
| CatalogClient.EmitNone | src/components/catalog-client.tsx:80-96 | with no condition holding, the query string is empty |
| CatalogClient.DefaultAddress | src/components/catalog-client.tsx:101-111 | the page opened at `/` leaves the address as it is |
| CatalogClient.NextItems | src/components/catalog-client.tsx:128 | replace gives the received items; append gives the previous ones followed by the received ones |
| CatalogClient.Apply | src/components/catalog-client.tsx:119-138 | a failed answer changes nothing; a good one sets facets, total, page and the items |
| CatalogClient.Following | src/components/catalog-client.tsx:151 | `page + 1`, with a `null` page counting as 0 |
| CatalogClient.Catalog.constructor | src/components/catalog-client.tsx:40-75 | the page starts from the parsed URL, no items, total 0, page 1, no facets |
| CatalogClient.Catalog.Fetch | src/components/catalog-client.tsx:113-141 | `fetchData(p, replace)` applies the answer for the state's query string with page `p` |
| CatalogClient.Catalog.Update | src/components/catalog-client.tsx:143-149 | a new state fetches page 1 and replaces the items |
| CatalogClient.Catalog.LoadMore | src/components/catalog-client.tsx:151 | `loadMore` fetches the following page and appends |
| CatalogClient.ItemsAppend | src/components/catalog-client.tsx:128 | the items of two id lists in a row are the items of their concatenation |
| CatalogClient.LoadedPages | src/components/catalog-client.tsx:128 | pages 1 to n appended show the items of the first `10 n` ids, in order |
| CatalogClient.NextPageAppends | src/components/catalog-client.tsx:128 | appending page n + 1 to pages 1 to n gives pages 1 to n + 1 |
| CatalogClient.LoadMoreWhileShort | src/components/catalog-client.tsx:182 | for a sort key of the campaigns, the control shows after n pages exactly while `10 n` is short of the total |
| VoteRoute.ClientIp | src/app/api/vote/route.ts:45-47 | the address is never empty |
| VoteRoute.WellFormed | src/app/api/vote/route.ts:19 | both fields present and non-empty; no contract of its own: `Verdict` and `ValidationFirst` state the 400 for any other body |
| VoteRoute.IsPublished | src/app/api/vote/route.ts:23-31 | the lookup finds the campaign only when it exists and is published; no contract of its own: `Verdict` and `NotFoundAlike` state the 404 otherwise |
| VoteRoute.ForwardedFirst | src/app/api/vote/route.ts:45 | the trimmed first entry of `x-forwarded-for` is the address, whatever `x-real-ip` says |
| VoteRoute.IpFallback | src/app/api/vote/route.ts:45-47 | without a usable first hop, `x-real-ip` is the address when set and `0.0.0.0` otherwise; an address taken from `x-forwarded-for` holds no comma |
| Strings.TrimInside | src/app/api/vote/route.ts:45 | trimming keeps only characters of the text |
| VoteRoute.Matches | src/app/api/vote/route.ts:35-40 | the count of rows for a pair is 0 exactly when no row has it |
| VoteRoute.Existing | src/app/api/vote/route.ts:35-43 | `maybeSingle` finds a row only when exactly one matches; no contract of its own: `ExistingIsAny` states that with at most one row per pair it finds a vote exactly when one exists |
| VoteRoute.MatchesAppend | src/app/api/vote/route.ts:50-55 | an inserted row adds one to the count of its own pair only |
| VoteRoute.ExistingIsAny | src/app/api/vote/route.ts:35-43 | with at most one row per pair, the duplicate check finds a vote exactly when there is one |
| VoteRoute.NewRow | src/app/api/vote/route.ts:48-55 | the row holds the campaign id, the hash of the fingerprint, the hash of the address, and the hash of the user agent or `null` for an empty one |
| VoteRoute.Verdict | src/app/api/vote/route.ts:10-61 | 400 for a body that is not JSON or lacks a field; 404 "Campaign not found" for a missing or unpublished campaign; 409 for an existing vote; 500 with the insert error; success otherwise, and only for a well-formed body |
| VoteRoute.VotesAfter | src/app/api/vote/route.ts:50-61 | exactly one row is appended on success and none otherwise |
| VoteRoute.VoteStore.Post | src/app/api/vote/route.ts:10-62 | the handler answers the verdict, leaves the campaigns alone and leaves the votes as `VotesAfter` says |
| VoteRoute.VoteStore.constructor | src/app/api/vote/route.ts:23-43 | the store holds the given campaign table, vote table and hash |
| VoteRoute.KeepsAtMostOne | src/app/api/vote/route.ts:33-55 | the handler keeps the table at one row per pair |
| VoteRoute.SecondVoteConflicts | src/app/api/vote/route.ts:35-55 | the same campaign and fingerprint twice: success, then 409 with nothing inserted |
| VoteRoute.OtherFingerprint | src/app/api/vote/route.ts:35-55 | a vote under another fingerprint hash leaves the answer to a request as it was |
| VoteRoute.ValidationFirst | src/app/api/vote/route.ts:11-21 | a malformed body gets a 400 that depends on neither table |
| VoteRoute.NotFoundAlike | src/app/api/vote/route.ts:23-31 | a missing and an unpublished campaign get the same 404, and no row is written |

## Left out

- Datastore, aggregation, storage service, hash and browser fetch are
  parameters, not models. This covers the query builder, `aggregate_votes`,
  `maybeSingle`, the insert, `getPublicUrl`, `createSignedUrl`, `sha256Hex`
  and `fetch`. The constraints are a list that is handed to the datastore.
  Nothing is proved about how the datastore applies them.
- JavaScript dates: `created_at` is an integer (its time in milliseconds).
  Dates that do not parse, and the NaN comparator result they give, are not
  modelled.
- `localeCompare` (the title sort key) is modelled as the code-unit order of
  plain `sort()`, not as a locale's collation. Any total order serves the
  same proofs.
- Floating point: durations and player counts are reals; NaN and Infinity
  in campaign records are not modelled. In the browser, `Number(...)` is
  modelled only on blank text, signed digit runs and everything else (NaN).
  Decimal and exponent notation are left out (see `Numbers.ToNumber` below).
- Numbers.ToText: integers are unbounded. JavaScript's `String` writes
  exponent form from 1e21 on, and "1e+21" reads back through `parseInt` as
  1. Integers above 2^53 - 1 in size are not all doubles. So
  `ParseIntToText`, `CatalogClient.BoundBack`, `CatalogClient.ServerPage`,
  `CatalogClient.ServerBounds`, `Sorting.AgeOfText` and
  `Sorting.AgeNotTransitive` are stated only for safe integers.
- Numbers.ParseInt: the digit run's value is exact. JavaScript rounds a
  value above 2^53 to the nearest double.
- Numbers.ToNumber: the value is exact, as for `parseInt`. The round trip
  `ToNumberToText` is stated for every integer, which JavaScript also keeps
  for every double. Text that JavaScript reads as a number but the model
  reads as NaN: decimals (`1.5`, `.5`, `5.`), exponent notation (`1e3`), the
  prefixes `0x`, `0o` and `0b` (`Number("0x10")` is 16), and `Infinity` with
  or without a sign. Through `CatalogClient.InitialState` this reaches a
  first URL such as `?durationMin=0x10`, which the model reads as NaN.
- Sorting.SortCampaigns: proved to leave a permutation in neighbour order.
  Stability of `Array.prototype.sort` is not stated. For the age key with
  ages that do not parse, the engine's order is unspecified. The model fixes
  one order (insertion by neighbour swaps), and `AgeNotTransitive` shows why
  no full order can be promised.
- CampaignsRoute.Items: an aggregation id that is not among the campaigns
  makes `find(...)!` return `undefined`. The spread then adds nothing, so the
  item holds only `votes30d` (`record` is `None`). That is what the code does;
  whether it was intended is not stated.
- `data ?? []`: a datastore answer with neither data nor error is modelled
  as an empty list of rows.
- Array-valued search parameters (`?tags=a&tags=b` in the page's
  `initialSearchParams`) and percent-encoding in `URLSearchParams.toString()`
  are not modelled. Parameters are a list of name/value pairs, and `get`
  reads the first.
- VoteRoute.Verdict: body fields that are present but not strings (a number,
  an object), and a JSON body that is `null`, are not modelled. Fields are
  strings or absent.
- The check-then-insert race of the vote route is not modelled, because it
  needs concurrency. Submissions are sequential, so the table keeps at most
  one row per (campaign, fingerprint hash). A duplicate check with two or
  more matching rows is modelled as `maybeSingle` behaves: the lookup fails
  and is read as "no vote yet".
- Errors of the campaign lookup and the duplicate lookup in the vote route
  are discarded by the code. They read as "not found" and "no vote yet", and
  the model does not name them separately.
- VoteRoute.OtherFingerprint: "judged independently" is proved for
  fingerprints whose hashes differ. The hash is uninterpreted, so collisions
  are not excluded.
- React machinery in the catalog page is not modelled: hooks, effect
  scheduling, the abort controller, the loading flag, the toast, the 300 ms
  debounce of the search input and rendering. `Catalog.Update` stands for a
  setter followed by the effect that fetches page 1. `router.replace` is
  the function `Replacement` of the state and the current address.
- CatalogClient.LoadMoreWhileShort: proved for the sort keys of the
  campaigns, where the id order has `total` entries. Under `popular` the
  page ids come from the aggregation rows, whose number the model does not
  relate to `total`.
- Presentation files (cards, sheets, dropdowns, layout, styling) and the
  single-campaign route are not part of this model.
