# Harm-reduction substance database — a Dafny model

This project models the data core of a Discord client plugin that shows
harm-reduction information about psychoactive substances. The plugin has two
parts.

- `database.ts` normalises the raw records of a bundled substance dataset
  (`drugs.json`) into uniform `SubstanceResponse` records:
  - `processSubstanceData` normalises one record;
  - `createPlaceholderSubstance` and `formatSubstanceName` fill in empty records.
- `database.ts` also builds a lazily filled, cached table of those records
  (`loadSubstanceDatabase`):
  - the table is keyed by raw key;
  - it is also keyed by every normalised alias. The first substance to claim
    an alias keeps it, unless a raw key of the dataset is that key; the
    table then holds the raw key's own record (it overwrites an earlier
    alias entry, or blocks a later one).
- Two queries run on that table: `searchSubstances` and `getSubstance`.
- `index.tsx` is the panel. The model covers its two memoised computations
  over the raw dataset (the suggestion list and the category list) and its
  two timing formatters (`formatTimingValue`, `addTimingUnits`).

Modules:

- `Strings`: the JavaScript string operations the sources use. These are
  `toLowerCase`/`toUpperCase` on ASCII letters, `includes`, `split`, `join` and
  `trim`. `trim` and `\s` use the ECMAScript white-space and line-terminator set.
- `Types`:
  - the record shapes. Raw JSON objects are lists of (key, value) pairs in key
    order, and a lookup takes the first pair with the key;
  - `Take`, which models `slice(0, n)`.
- `Normalizer`: `processSubstanceData`, defined twice:
  - `Processed` is the specification function;
  - `ProcessSubstanceData` and `CollectRoutes` are the step-by-step methods;
  - `Placeholder` models `createPlaceholderSubstance`;
  - `FormatSubstanceName` is proved equal to a character-wise title-casing.
- `Database`:
  - the index (`BuildIndex`), with its write-by-key operation (`Put`) and its
    alias loop (`AddAliases`);
  - the class `SubstanceDatabase`, whose `processed` field is the
    module-level cache, with the methods `Load`, `SearchSubstances` and
    `GetSubstance`;
  - the search walk `Search`.
- `Timing`: `formatTimingValue` and `addTimingUnits`.
- `Panel`: the `filteredSubstances` and `categories` memo bodies, as methods
  proved against specification functions.

## Model

| member | source | states |
|---|---|---|
| Strings.IsSpace | database.ts:144 | the white space of `\s` and `trim`; characterised by `TrimStart`, `TrimEnd` and `Trim` |
| Strings.Lower | database.ts:166 | `toLowerCase` on ASCII letters; characterised by `SubstanceNamedIgnoresCase` |
| Strings.Upper | database.ts:74 | ASCII upper-casing, the case folding of `/NOTE:/i`; characterised by `FindMarker` and `SubstanceNamedIgnoresCase` |
| Strings.Contains | database.ts:190 | `includes`; characterised by `ContainsLeft`, `ContainsRight` and `ContainsChar` |
| Strings.Join | database.ts:29 | `join(sep)`; characterised by `SplitJoin`, `JoinContains` and `JoinAvoids` |
| Strings.Split | index.tsx:587 | `split` always yields at least one piece |
| Strings.SplitFrom | index.tsx:587 | the pieces between the leftmost non-overlapping separators; never an empty list |
| Strings.SplitJoin | index.tsx:587 | joining the pieces of a `split` with the same separator gives back the string |
| Strings.TrimStart | database.ts:74 | a suffix of the input whose removed prefix is all white space, not starting with white space |
| Strings.TrimEnd | database.ts:74 | a prefix of the input whose removed suffix is all white space, not ending with white space |
| Strings.Trim | database.ts:74 | `trim` (`TrimEnd` of `TrimStart`): the result has no white space at either end |
| Strings.ContainsLeft | database.ts:73 | a pattern found in a prefix is found in the whole string |
| Strings.ContainsRight | index.tsx:580 | a pattern found in a suffix is found in the whole string |
| Strings.ContainsChar | index.tsx:585 | a one-character pattern is found exactly when the character occurs |
| Strings.JoinAvoids | index.tsx:606 | a character absent from every part and from the separator is absent from the joined string |
| Strings.JoinContains | index.tsx:606 | a pattern found in one part is found in the joined string |
| Types.Lookup | database.ts:167 | `obj[k]`; characterised by `Types.LookupFound`: present iff some pair has the key, then the first such pair's value |
| Types.LookupFound | database.ts:167 | a lookup succeeds iff some pair has the key, and it returns the value of the first such pair |
| Types.Take | database.ts:204 | `slice(0, n)` is a prefix of length `min(n, length)` |
| Normalizer.WordsFrom | database.ts:144 | `split(/[-_\s]/)`: never an empty list; characterised by `WordsFromTitleCase` and `FormatSubstanceNameCharwise` |
| Normalizer.Capitalize | database.ts:145 | `charAt(0).toUpperCase() + slice(1)`; characterised by `FormatSubstanceNameCharwise` |
| Normalizer.FormatSubstanceName | database.ts:142-147 | `formatSubstanceName` by split, capitalise and join; characterised by `FormatSubstanceNameCharwise`, `FormatSubstanceNameLength` and `FormatSubstanceNameIdempotent` |
| Normalizer.FormatSubstanceNameCharwise | database.ts:142-147 | `formatSubstanceName` turns each `-`, `_` or white-space character into one space, upper-cases the first character of each word and leaves every other character unchanged |
| Normalizer.FormatSubstanceNameLength | database.ts:142-147 | the formatted name is as long as the key |
| Normalizer.FormatSubstanceNameIdempotent | database.ts:142-147 | formatting a formatted name changes nothing |
| Normalizer.CommonSubstance | database.ts:91-129 | the curated table of seven substances; characterised by `Placeholder` and `PlaceholderMethamphetamine` |
| Normalizer.Placeholder | database.ts:89-138 | the placeholder has the formatted name (non-empty for a non-empty key), the limited-data source, the caution warning and no routes; for the seven curated keys it has their aliases, categories and summary, and otherwise no aliases, the category `research-chemical` and a non-empty generated summary |
| Normalizer.PlaceholderMethamphetamine | database.ts:92-96 | an empty `methamphetamine` record gets the curated alias `meth`, the category `stimulant` and the limited-data source |
| Normalizer.OnsetAt | database.ts:41 | `data.formatted_onset?.[route]` (also with `route` = `value` at database.ts:56, 59); characterised by `ProcessedRoutes` |
| Normalizer.DurationAt | database.ts:44 | `data.formatted_duration?.[route]` (also with `route` = `value` at database.ts:56, 60-62); characterised by `ProcessedRoutes` |
| Normalizer.RouteEntry | database.ts:36-50 | the route pushed for one `formatted_dose` entry, if its value is an object; characterised by `RouteEntries` |
| Normalizer.RouteNotes | database.ts:40-47 | a route gets notes iff its onset or its duration is a non-empty string, and the notes are then non-empty |
| Normalizer.RouteEntries | database.ts:34-52 | there are no per-route entries iff no `formatted_dose` value is an object; the entries are exactly those built from the object-valued routes |
| Normalizer.FindMarker | database.ts:74 | the marker search returns the leftmost case-insensitive match of `NOTE:` at or after the start position, or nothing when there is none |
| Normalizer.RemoveMarker | database.ts:74 | `replace(/NOTE:\s*/i, "")`: the first marker found by `FindMarker` and the white space after it removed; characterised by `FindMarker`, `MarkerFound` and `ProcessedWarnings` |
| Normalizer.WarningsOf | database.ts:71-75 | warnings appear only when the dose note contains `NOTE:`, and they are then non-empty with no white space at either end |
| Normalizer.RoutesOf | database.ts:33-69 | the routes before the `roas.length > 0` test; characterised by `RouteEntries`, `CollectRoutes` and `ProcessedRoutes` |
| Normalizer.CollectRoutes | database.ts:32-69 | the route loop, with its per-route notes and its "General" fallback, builds exactly the routes of the specification |
| Normalizer.SummaryOf | database.ts:24-30 | the summary before the fallback; characterised by `ProcessedFull` |
| Normalizer.Or | database.ts:78 | the `\|\|` defaults of database.ts:78 and 80 on strings; characterised by `ProcessedFull` |
| Normalizer.Processed | database.ts:15-86 | the specification of `processSubstanceData`; its fields are characterised by `ProcessedEmpty`, `ProcessedFull`, `ProcessedNameAndSummary`, `ProcessedWarnings` and `ProcessedRoutes`, and `ProcessSubstanceData` is proved equal to it |
| Normalizer.ProcessSubstanceData | database.ts:15-86 | the step-by-step normaliser returns exactly `Processed(key, data)` |
| Normalizer.ProcessedNameAndSummary | database.ts:77-85 | every processed substance has a non-empty summary, and a non-empty name unless the key is empty |
| Normalizer.IsEmptyRecord | database.ts:17 | `!data \|\| Object.keys(data).length === 0`; characterised by `ProcessedEmpty` |
| Normalizer.ProcessedEmpty | database.ts:16-19 | empty or null records get the placeholder; all other records get the full-data source |
| Normalizer.ProcessedFull | database.ts:20-80 | name is `pretty_name \|\| name \|\| key`; aliases and categories default to `[]`; the summary is taken from `properties.summary`, else from the joined `formatted_effects`, else it is the generated sentence about `pretty_name \|\| key` |
| Normalizer.ProcessedWarnings | database.ts:71-75 | warnings exist iff the note contains `NOTE:` and something remains once the first marker is removed and the rest trimmed; the warnings are that remainder |
| Normalizer.MarkerFound | database.ts:73-74 | a note that contains `NOTE:` always contains a match of the case-insensitive pattern |
| Normalizer.ProcessedRoutes | database.ts:32-82 | `roas` is undefined iff there is no object-valued route and no scalar onset or duration; otherwise it is the per-route entries, or a single "General" entry, and never empty |
| Database.KeepKeyChars | database.ts:166 | removing non-`[a-z0-9]` characters leaves only such characters and never lengthens the string |
| Database.KeepKeyCharsAppend | database.ts:166 | the removal works piece by piece over a concatenation |
| Database.NormalizeKey | database.ts:166 | `toLowerCase().replace(/[^a-z0-9]/g, "")`, used for alias keys, names and lookups (database.ts:166, 185, 210); characterised by `NormalizeKeyIdempotent`, `SubstanceNamedIgnoresCase` and `SubstanceNamedIgnoresPunctuation` |
| Database.NormalizeKeyIdempotent | database.ts:166 | a normalised key is made of `[a-z0-9]` only, and normalising it again changes nothing |
| Database.Put | database.ts:160 | `processedSubstances[key] = …`; characterised by `PutLookup`, `PutKeys`, `PutDistinct` and `PutAppends` |
| Database.PutLookup | database.ts:160 | after `index[k] = v`, `k` holds `v` and every other key keeps its value |
| Database.PutKeys | database.ts:160 | `index[k] = v` keeps every key in its position and can only add `k` at the end |
| Database.PutDistinct | database.ts:160 | `index[k] = v` never duplicates a key |
| Database.PutAppends | database.ts:160 | `index[k] = v` appends at most one entry, and only when `k` was absent |
| Database.AddAlias | database.ts:166-169 | one pass of the alias loop body; characterised by `AddAliasLookup` |
| Database.AddAliases | database.ts:164-171 | the alias loop over all aliases, in order; characterised by `AddAliasesLookup` and `AddAliasesDistinct` |
| Database.AddAliasLookup | database.ts:166-169 | one alias leaves present keys alone and fills a missing key iff it is the alias's non-empty normalisation |
| Database.AddAliasesLookup | database.ts:164-171 | the alias loop leaves present keys alone; a missing key afterwards holds the substance iff one of its aliases normalises to it |
| Database.AddAliasesDistinct | database.ts:164-171 | the alias loop keeps keys distinct |
| Database.AliasKey | database.ts:166 | the key an alias is stored under; characterised by `AddAliasLookup` and `NormalizeKeyIdempotent` |
| Database.AddEntry | database.ts:158-171 | one step of the dataset walk: the primary write then the alias loop; characterised by `BuildIndexLookup` |
| Database.BuildIndex | database.ts:150-175 | the table the dataset walk builds; characterised by `BuildIndexLookup`, `BuildIndexKeysDistinct`, `PrimaryKeysPresent` and `AliasFirstWriterWins` |
| Database.BuildIndexLookup | database.ts:150-175 | the table holds a raw key's own processed record, and holds a non-raw key for the first substance in dataset order with an alias normalising to it, else nothing |
| Database.BuildIndexKeysDistinct | database.ts:155-172 | the table never holds a key twice |
| Database.PrimaryKeysPresent | database.ts:158-160 | every raw key of the dataset is present with its own processed record |
| Database.FirstOwnerIndex | database.ts:165-168 | for a non-empty key: the substance at the position has an alias normalising to the key and none before it has; the position is the number of substances exactly when none has such an alias |
| Database.FirstAliasOwnerAt | database.ts:158-171 | the first alias owner is the processed record at the first-owner position |
| Database.FirstOwnerBefore | database.ts:165-168 | no substance carrying the alias comes before the first owner |
| Database.AliasFirstWriterWins | database.ts:164-171 | a key that is not a raw key holds the substance at the first-owner position, or nothing |
| Database.AliasOwnerNoLater | database.ts:164-171 | every substance with an alias normalising to the key comes no earlier than the first owner, which is the entry the table keeps when the key is not a raw key |
| Database.MatchesQuery | database.ts:189-193 | name or some alias contains the lower-cased query; characterised by `SearchMatchesSound`, `SearchMatchesComplete` and `EmptyQueryMatchesAll` |
| Database.MatchesCategory | database.ts:195-197 | no category, "all", or one of the substance's; characterised by `SearchMatchesSound` and `SearchMatchesComplete` |
| Database.Selected | database.ts:185-199 | the key test of database.ts:185 with both match tests; characterised by `SearchMatchesSound`, `SearchMatchesComplete`, `RawKeySkipped` and `AliasEntrySelected` |
| Database.SearchMatches | database.ts:183-202 | there are never more matches than table entries |
| Database.SearchMatchesSound | database.ts:183-202 | each match is the value of an entry whose key is its substance's normalised name (an alias entry can qualify; a raw key such as `2c-b` cannot), and it passes the query and category tests |
| Database.SearchMatchesComplete | database.ts:183-202 | every entry whose key is its substance's normalised name and that passes both tests is matched |
| Database.RawKeySkipped | database.ts:185-187 | the raw key `2c-b` holding "2C-B" is skipped although the substance matches "2c" and any category |
| Database.AliasEntrySelected | database.ts:185-200 | for `foo-bar` ("Foo Bar") with alias entry `foobar`, the search for "foo" returns the substance once, from the alias entry |
| Database.SearchMatchesAppend | database.ts:183-202 | matching keeps index order: it distributes over concatenation |
| Database.SearchMatchesDistinct | database.ts:183-202 | with distinct keys no substance is returned twice |
| Database.SearchResults | database.ts:178-205 | what `searchSubstances` returns for a table; characterised by `SearchResultsProperties` |
| Database.SearchResultsProperties | database.ts:178-205 | at most 15 results, the first matches in table order, each the value of an entry keyed by its normalised name that passes both tests, with no repeats, and every match when there are at most 15 |
| Database.EmptyQueryMatchesAll | database.ts:189-193 | an empty query matches every substance |
| Database.Search | database.ts:178-205 | the search walk returns exactly `SearchResults` |
| Database.SubstanceNamed | database.ts:208-213 | what `getSubstance` returns for a table; characterised by `SubstanceNamedFound`, `SubstanceNamedNormalized`, `SubstanceNamedIgnoresCase` and `SubstanceNamedIgnoresPunctuation` |
| Database.SubstanceNamedNormalized | database.ts:208-213 | looking up a normalised name gives the same result as looking up the name |
| Database.SubstanceNamedFound | database.ts:208-213 | a name is found iff some entry has its normalised key, and the result is then that entry's substance |
| Database.SubstanceNamedIgnoresCase | database.ts:210 | an upper-cased name finds what the name finds |
| Database.SubstanceNamedIgnoresPunctuation | database.ts:210 | inserting a character that is not a letter or digit leaves the result unchanged |
| Database.SubstanceDatabase.constructor | database.ts:11-12 | the cache starts empty |
| Database.SubstanceDatabase.Load | database.ts:150-175 | returns the cached table if it is filled; otherwise fills it by the dataset walk; either way the result is `BuildIndex` of the dataset and stays cached |
| Database.SubstanceDatabase.SearchSubstances | database.ts:178-205 | loads the table, then returns `SearchResults` over it |
| Database.SubstanceDatabase.GetSubstance | database.ts:208-213 | loads the table, then returns the entry under the normalised name, or nothing |
| Timing.Spaced | index.tsx:562 | replacing `_` by a space keeps the length and leaves no underscore |
| Timing.TrailingCaps | index.tsx:562 | the longest run of capitals that ends the string: all capitals, and not extendable |
| Timing.FormatTimingValue | index.tsx:546-573 | a string is returned as is; a non-object, or an empty object, gives "Unknown"; an object with a truthy `value` gives that value |
| Timing.IsRouteKey | index.tsx:557 | a key other than `_unit` and `value`; characterised by `RouteFieldsMembers` |
| Timing.RouteFields | index.tsx:557 | `Object.keys(value).filter(key => key !== "_unit" && key !== "value")` with the values; characterised by `RouteFieldsMembers` and `RouteFieldsAppend` |
| Timing.RouteFieldsMembers | index.tsx:557 | the route entries are exactly the entries whose key is not `_unit` or `value` |
| Timing.RouteFieldsAppend | index.tsx:557 | filtering keeps key order |
| Timing.RouteLine | index.tsx:560-564 | `${cleanRoute}: ${value[route]}`; characterised by `RouteKeyedTiming` |
| Timing.RouteLines | index.tsx:560-565 | one line per route entry; characterised by `RouteKeyedTiming` |
| Timing.RouteKeyedTiming | index.tsx:557-566 | an object with some route key and no truthy `value` renders each route as `cleanRoute: value`, in key order, joined by `, ` |
| Timing.FallbackTiming | index.tsx:568-570 | an object with only `_unit`/`value` keys falls back to the value of its first key |
| Timing.MarkTrailingCaps | index.tsx:562 | `replace(/([A-Z]+)$/, " ($1)")` over the run `TrailingCaps` measures; characterised by `TrailingCaps`, `MarkTrailingCapsNoUnderscore` and `CleanRouteOralIR` |
| Timing.CleanRoute | index.tsx:562 | the displayed route name: `Spaced` then the trailing-capitals marking; characterised by `CleanRouteNoUnderscore` and `CleanRouteOralIR` |
| Timing.CleanRouteNoUnderscore | index.tsx:562 | a cleaned route name has no underscore |
| Timing.CleanRouteOralIR | index.tsx:556-562 | `Oral_IR` is displayed as `Oral  (IR)` |
| Timing.RouteTimingExample | index.tsx:556-565 | `{ _unit: "minutes", Oral_IR: "30-120" }` renders as `Oral  (IR): 30-120` |
| Timing.FormatPart | index.tsx:588-605 | a part with a colon rebuilt with the unit, any other part kept; characterised by `AddTimingUnitsRouted` |
| Timing.FormatParts | index.tsx:588-605 | one formatted part per part |
| Timing.HasUnit | index.tsx:580 | the unit-word test; characterised by `UnitIsMarked`, `AddTimingUnits` and `AddTimingUnitsMarked` |
| Timing.AddTimingUnits | index.tsx:576-619 | "Unknown", or a value that already has a unit word, is unchanged; a value without a colon gets the kind's unit appended |
| Timing.UnitOf | index.tsx:592-601 | " minutes" for onset, " hours" for duration and after-effects (also index.tsx:610-615); characterised by `UnitIsMarked` and `AddTimingUnits` |
| Timing.UnitIsMarked | index.tsx:593-601 | every unit the function appends counts as a unit word |
| Timing.AddTimingUnitsMarked | index.tsx:576-619 | every result other than "Unknown" contains a unit word |
| Timing.AddTimingUnitsIdempotent | index.tsx:576-619 | applying `addTimingUnits` twice is the same as applying it once |
| Timing.AddTimingUnitsRouted | index.tsx:585-607 | a value with a colon is cut at every `, `; each part with a colon is rebuilt with the unit, every other part is kept, and the parts are rejoined in order |
| Timing.RebuildPart | index.tsx:589-602 | `${route}: ${timing}${unit}` from the pieces of `split(": ")`; characterised by `RebuildRoutePart` |
| Timing.RebuildRoutePart | index.tsx:589-602 | a well-formed `route: timing` part just gets the unit appended |
| Panel.FilteredSubstances | index.tsx:183-204 | a blank query gives no suggestions; there are never more than 15 |
| Panel.FilterSubstances | index.tsx:183-204 | the memo body returns exactly `FilteredSubstances` |
| Panel.UiMatchesQuery | index.tsx:190-193 | the name, pretty-name and alias test on the lower-cased query; characterised by `UiMatchesMembers` and `FilteredSubstancesProperties` |
| Panel.UiMatchesCategory | index.tsx:195-196 | "all" or one of the record's categories; characterised by `UiMatchesMembers` and `FilteredSubstancesProperties` |
| Panel.UiMatches | index.tsx:189-201 | the entries pushed by the `forEach`; characterised by `UiMatchesMembers` and `UiMatchesAppend` |
| Panel.UiMatchesMembers | index.tsx:189-201 | an entry is a match iff it is in the dataset and passes the query and category tests |
| Panel.UiMatchesAppend | index.tsx:189-201 | matching keeps dataset order |
| Panel.FilteredSubstancesProperties | index.tsx:183-204 | for a non-blank query the suggestions are the first matches of the lower-cased query, all of them when at most 15 match and exactly 15 otherwise, each a dataset entry passing both tests |
| Panel.FirstIndex | index.tsx:180 | the position of the first occurrence |
| Panel.CollectCategories | index.tsx:173-181 | the memo body returns exactly the de-duplicated list of all categories |
| Panel.Dedup | index.tsx:174-180 | `Array.from` of a `Set` filled in order; characterised by `DedupMembers`, `DedupDistinct` and `DedupOrder` |
| Panel.DedupMembers | index.tsx:174-180 | the list holds exactly the collected categories |
| Panel.DedupDistinct | index.tsx:174-180 | no category is listed twice |
| Panel.DedupOrder | index.tsx:174-180 | categories are listed in the order they are first seen |
| Panel.CategoriesProperties | index.tsx:173-181 | the category list has no repeats, the same members as all records' categories, and first-seen order |
| Panel.CategoriesOf | index.tsx:176-177 | a record's `categories` array, or nothing; characterised by `AllCategoriesMembers` |
| Panel.AllCategories | index.tsx:175-178 | every record's `categories`, one record after the other; characterised by `AllCategoriesMembers` and `CategoriesProperties` |
| Panel.AllCategoriesMembers | index.tsx:175-178 | a category is collected iff some record lists it |

## Left out

- Loading `drugs.json`: the dataset is a constructor parameter of
  `SubstanceDatabase`, and the panel functions take it as a parameter.
- React rendering, state hooks and event handlers in `index.tsx`, and the
  rest of the panel (links, settings, plugin definition). These are UI
  outside the modelled core.
- Unicode case conversion: `toLowerCase`/`toUpperCase` are modelled on ASCII
  letters only.
- JavaScript key order for integer-like keys. Keys of the dataset and of the
  index are kept in insertion order, whereas JavaScript lists integer-like
  keys first.
- Prototype keys such as `constructor`, which `obj[k]` would find on an
  ordinary object. They are not modelled.
- Database.SubstanceDatabase.Load: object identity is not captured. An
  alias entry holds an equal value, not the same object as the primary entry.
- Panel.FilterSubstances: the `{ key, ...drug }` spread is modelled as a
  pair. A `key` field inside a raw record would override the dataset key in
  the source, and the model does not capture that.
- Timing.FormatTimingValue: timing fields are modelled as string-valued.
  - A non-string `value` (a number, an array) is not captured.
  - A non-string route value is not captured either; the source would
    render that through string interpolation.
- Panel.FilterSubstances and Panel.CollectCategories require every dataset
  value to be a record. The source throws on a null record as soon as it
  reads a field of it, and for the suggestion list it reads fields only when
  the query is not blank.
- The model follows the code where it is narrower than one might expect:
  - Normalizer.ProcessedNameAndSummary: an empty key gives an empty name
    unless `pretty_name` or `name` is set, so the non-empty name is only
    guaranteed for a non-empty key.
  - The fallback summary of a full record names `pretty_name || key` and
    skips `name`: a record with `name` "Foo", no `pretty_name` and key `k`
    is named "Foo" but summarised as "k is a substance with limited
    available information.".
  - Per-route notes use only routes found in `formatted_dose`.
  - An empty search query matches every substance.
  - The search keeps only entries whose key is the substance's normalised
    name. An alias entry can qualify, and a raw key such as `2c-b` whose
    name normalises to `2cb` cannot, so such a substance is found only
    through an alias or not at all.
  - The panel lower-cases the untrimmed query. Only the blank test trims it.
