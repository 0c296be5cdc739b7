# Property listings front end: a verified model

This project models the logic at the core of a real-estate listings web front
end, a Next.js application that talks to a REST backend. The model covers four
parts:

- **The listings page** (`app/properties/page.jsx`):
  - the filter effect, which narrows the loaded properties stage by stage by price range, category, subcategory, city, builder and record type;
  - the two change handlers, the reset state, and the guards on the price slider and the number inputs;
  - the dropdowns that list the subcategories of the selected category and the localities of the selected city.
- **The API client** (`lib/api.js`):
  - the base URL, and the merge of default and caller options;
  - the retry loop with exponential back-off, and the result object it returns after the last failure;
  - the `getAll` query-string builder, and the endpoint and option templates of every sub-client.
- **The featured-listings section** (`components/featuredbuilder.jsx`):
  - the choice between each response and the built-in fallback data, and the name normaliser;
  - grouping the builder projects by normalised builder name, and indexing the known builders by the same key;
  - the union of both key lists, the merged rows with synthesised ids, and the image-source helper.
- **The property card** (`components/PropertyCard.jsx`): which record fields the card shows for its image, title, location, price, badge, builder logo, possession date and builder line.

JavaScript's value semantics are written out explicitly (`js.dfy`):

- `undefined`/`null` are `None`;
- truthiness of strings and numbers is spelled out, so `"0"` is truthy and `0` is falsy;
- `a || b` returns `b` whenever `a` is falsy.

Record fields that can hold either an id string or an embedded object are the datatype `Records.Ref`. A JavaScript `Map` is `Keyed.OrderedMap`: its keys in insertion order plus a Dafny `map`.

Module layout:

| file | module | contents |
|---|---|---|
| `js.dfy` | `Js` | optional values, truthiness, `||`, decimal rendering of integers |
| `seqs.dfy` | `Seqs` | `filter`, `find`, `Array.from(new Set(…))` and their laws |
| `records.dfy` | `Records` | the listing record and its relational fields |
| `keyed.dfy` | `Keyed` | grouping and indexing loops over a key function |
| `properties_page.dfy` | `PropertiesPage` | the listings page |
| `api.dfy` | `Api` | the API client |
| `featured_builder.dfy` | `FeaturedBuilder` | the featured-listings section |
| `property_card.dfy` | `PropertyCard` | the listing card |

Projects are grouped by the normalised builder *name*: a builder given only by an object with an `_id` and no name falls under the empty key, and a bare id string under itself (`FeaturedBuilder.IdOnlyBuilderHasEmptyKey`).

## Model

| member | source | states |
|---|---|---|
| PropertiesPage.ApplyFilters | app/properties/page.jsx:62-126 | the effect throws, storing nothing, exactly when some loaded record that passes the price and category stages makes the subcategory test throw; otherwise it stores exactly `Select(properties, filters)`, the properties matching every active filter, in their original order |
| PropertiesPage.RunSubcategoryStage | app/properties/page.jsx:95-102 | the subcategory stage throws iff one of its input records makes the test throw; otherwise it keeps exactly the records that pass its gate, in order |
| PropertiesPage.SubcategoryStageAsWritten | app/properties/page.jsx:96-101 | `filter` with the as-written test throws iff some element throws, and otherwise equals the filter by the modelled test |
| PropertiesPage.ThrowingRecords | app/properties/page.jsx:65-102 | a record reaching the subcategory stage that throws is exactly a loaded record passing the price and category conditions that throws |
| PropertiesPage.RunStage | app/properties/page.jsx:65-123 | one stage keeps exactly the records that pass its gate, in order: all of them when its filter is unset, those passing its test otherwise |
| PropertiesPage.SelectIsSubsequence | app/properties/page.jsx:71-123 | the filtered list is a subsequence of the loaded list, and a property is in it iff it is loaded and matches every active filter |
| PropertiesPage.ClearedShowsEverything | app/properties/page.jsx:162-172 | after clearing the filters every loaded property is shown, in order |
| PropertiesPage.StagesCommute | app/properties/page.jsx:86-123 | the order of any two filter stages does not change the result |
| PropertiesPage.LocalityIsIgnored | app/properties/page.jsx:62-126 | the locality filter state takes part in no stage: changing it never changes the shown list |
| PropertiesPage.MinZeroIsUnset | app/properties/page.jsx:66-68 | a typed minimum of "0" shows the same list as no minimum |
| PropertiesPage.CroreIsHundredLakhs | app/properties/page.jsx:67 | a bound in crores keeps the same properties as one hundred times that bound in lakhs |
| PropertiesPage.ComparisonPriceZero | app/properties/page.jsx:72-80 | the compared price is 0 exactly when the record's price fields (minPrice then maxPrice for builder projects, price otherwise) are all absent or 0 |
| PropertiesPage.UnpricedPassesOpenMin | app/properties/page.jsx:66-82 | with no minimum set, a record without a positive price always passes the price stage |
| PropertiesPage.BuilderZeroMinFallsThrough | app/properties/page.jsx:76 | a builder project with minPrice 0 is compared by its maxPrice |
| PropertiesPage.RefStageForms | app/properties/page.jsx:87-91 | with a category selected: a missing, null or empty category excludes a record, and so does a different id string or an embedded object with a different `_id`; a matching record is shown |
| PropertiesPage.SubcategoryTestAsWritten | app/properties/page.jsx:98-100 | the test as written throws exactly when the subcategory is `null` and the subcategory name differs from the selection; whenever it returns a value, that value is `SubcategoryKeeps` |
| PropertiesPage.SubcategoryKeeps | app/properties/page.jsx:98-100 | corrected test: a `null` or missing subcategory is decided by the subcategory name alone; otherwise an id string, an embedded `_id` or the name matches |
| PropertiesPage.ComparisonPrice | app/properties/page.jsx:72-80 | a builder project is compared by a positive minPrice, else a positive maxPrice, else 0; any other record by a positive price, else 0 |
| PropertiesPage.PriceKeeps | app/properties/page.jsx:66-83 | a record passes the price stage iff the minimum times the unit multiplier is at most its compared price and, when a maximum is set, the compared price is at most the maximum times the multiplier |
| PropertiesPage.RefIs | app/properties/page.jsx:87-118 | a missing, null or empty reference never matches; for a non-empty id a reference matches iff it is that id string or an embedded object with that `_id` |
| PropertiesPage.NullSubcategoryThrows | app/properties/page.jsx:95-100 | a record with a null subcategory and no subcategory name makes the test throw for any selected subcategory, and with only that filter set the record reaches the stage, so the filter effect throws |
| PropertiesPage.HandleFilterChange | app/properties/page.jsx:129-134 | the changed filter key holds the new value, every other key and the price range are unchanged |
| PropertiesPage.HandleFilterChangeLaws | app/properties/page.jsx:129-134 | writing a key's current value changes nothing; of two writes to one key the last wins |
| PropertiesPage.SelectCategory | app/properties/page.jsx:421-425 | choosing a category sets it, clears the subcategory (so the subcategory stage is off) and keeps everything else |
| PropertiesPage.HandlePriceRangeChange | app/properties/page.jsx:137-145 | the edited price sub-field takes the new value, the other two and all filter keys are unchanged |
| PropertiesPage.SlideMinAsWritten | app/properties/page.jsx:250-255 | the min slider is accepted iff its value is at most `parseInt(max) \|\| 100`; slider 0 clears the minimum; only the minimum changes |
| PropertiesPage.TypeMinAsWritten | app/properties/page.jsx:301-306 | a typed minimum is accepted iff it is empty or at most `parseInt(max) \|\| 100`; only the minimum changes |
| PropertiesPage.SlideMin | app/properties/page.jsx:250-255 | corrected min slider guard: a set maximum of 0 bounds the minimum at 0; otherwise as written |
| PropertiesPage.TypeMin | app/properties/page.jsx:301-306 | corrected typed-minimum guard, bounded by a set maximum including 0 |
| PropertiesPage.SlideMax | app/properties/page.jsx:264-269 | the max slider is accepted iff its value is at least `parseInt(min) \|\| 0`; slider 100 clears the maximum; only the maximum changes |
| PropertiesPage.TypeMax | app/properties/page.jsx:317-322 | a typed maximum is accepted iff it is empty or at least `parseInt(min) \|\| 0`; only the maximum changes |
| PropertiesPage.GuardsKeepOrdered | app/properties/page.jsx:250-322 | starting from a range with min ≤ max, every guarded edit (with the corrected min guards) keeps min ≤ max |
| PropertiesPage.MinGuardsAgreeUnlessMaxZero | app/properties/page.jsx:252 | the as-written and corrected min guards agree whenever the maximum is not "0" |
| PropertiesPage.MinGuardAcceptsInvertedRange | app/properties/page.jsx:303 | after typing max "0", the as-written guard accepts min "50": the range is inverted and no property is shown, while the corrected guard refuses the edit |
| PropertiesPage.GetSubcategories | app/properties/page.jsx:148-152 | no category selected or no category with that id gives []; otherwise the first category with that id supplies its `deepSubcategories`, or [] when it has none |
| PropertiesPage.GetLocalities | app/properties/page.jsx:155-159 | the same for the selected city and its localities |
| Api.BaseUrl | lib/api.js:2 | the configured base URL when it is truthy, else `http://localhost:3012/api`; never empty |
| Api.Url | lib/api.js:6 | the request URL is the base URL followed by the endpoint |
| Api.Spread | lib/api.js:19-22 | in `{...h, ...o}` a header of `o` overrides, every other header comes from `h` |
| Api.MergeConfigAsWritten | lib/api.js:16-23 | method and body come from the options, the signal defaults to the 2-second timeout, a caller header overrides the default and every other header is the default's |
| Api.MergeConfig | lib/api.js:197-201 | corrected merge: a multipart body carries no Content-Type; otherwise the same config as written, and all other headers the same |
| Api.DefaultConfig | lib/api.js:8-23 | a call without options, merged as the client writes it, is a GET with the JSON Content-Type header and the 2-second timeout; the corrected merge gives the same |
| Api.ApiCall | lib/api.js:5-46 | the request goes to the base URL plus the endpoint with the options merged as written; negative retries make no request and resolve to `undefined`; otherwise 1 to retries+1 requests; data means the last attempt succeeded and returns its document; an error result means all retries+1 attempts failed, with the last attempt's message; the waits are 1000·2^k ms after each failed non-final attempt; one log line per failure |
| Api.TotalBackoff | lib/api.js:44 | n back-off waits add up to (2^n − 1)·1000 ms |
| Api.DefaultRetriesWait | lib/api.js:44 | with the default two retries the waits are 1000 and 2000 ms, 3000 ms in all |
| Api.SharedTimeoutExpires | lib/api.js:13-44 | the third and every later attempt starts at least 3000 ms after the single 2000 ms timeout signal was created |
| Api.BuildParams | lib/api.js:53-58 | the query loop appends exactly the entries whose value is not undefined, null or "", in order, rendered as strings |
| Api.QueryParamsExact | lib/api.js:54-58 | the appended entries are the defined non-empty ones, in order; if none is, no parameter is appended |
| Api.QueryString | lib/api.js:60 | the query string is empty exactly when there are no parameters |
| Api.ListingEndpoint | lib/api.js:60-61 | `/properties` without parameters, `/properties?` followed by the query string otherwise |
| Api.GetAllEndpoint | lib/api.js:52-64 | `getAll` requests the listing endpoint of its filters |
| Api.ErrorMessage | lib/api.js:29-40 | the result's message is the rejection's message, `HTTP error! status: ` followed by the status for a non-OK response, or the parse error's message |
| Api.HttpErrorNamesStatus | lib/api.js:30 | two non-OK responses with the same message have the same status: the message identifies the status |
| Api.CallOf | lib/api.js:66-230 | a read passes no options; exactly the uploads pass a form body and explicit (empty) headers; no operation passes a signal of its own |
| Api.OperationVerbs | lib/api.js:66-230 | reads are GET, create and uploads POST, update PUT, delete DELETE |
| Api.JsonContentType | lib/api.js:8-11 | every non-upload request carries the JSON Content-Type header |
| Api.ItemPaths | lib/api.js:102-115 | update and delete address `/<collection>/<id>`, the same path as get-one; create posts to the list path |
| Api.CollectionCallsInjective | lib/api.js:82-188 | two collection operations that produce the same request are the same operation |
| Api.DropdownPathIsAnIdPath | lib/api.js:66-74 | get-by-id with id `dropdown-data` is the same request as `getDropdownData` |
| Api.UploadKeepsJsonContentType | lib/api.js:197-201 | an upload passes empty headers, the merge as written still sends the JSON Content-Type, the corrected merge sends none |
| Api.BuilderUploadParts | lib/api.js:219-228 | the builder upload form holds a logo part iff a logo is given and a background part iff a background is given, logo first |
| FeaturedBuilder.Trim | components/featuredbuilder.jsx:114 | `trim` has no whitespace at either end and is no longer than its input |
| FeaturedBuilder.TrimSlice | components/featuredbuilder.jsx:114 | `trim` is the slice between the leading and the trailing whitespace: everything it drops is whitespace, and its ends are not |
| FeaturedBuilder.Normalize | components/featuredbuilder.jsx:114 | a falsy name gives the empty key; any key is trimmed, has no upper-case letter and is no longer than the name |
| FeaturedBuilder.Lower | components/featuredbuilder.jsx:114 | `toLowerCase` maps each character and keeps the length |
| FeaturedBuilder.NormalizeIdempotent | components/featuredbuilder.jsx:114 | normalising a normalised name changes nothing |
| FeaturedBuilder.NormalizeIgnoresLeadingSpace | components/featuredbuilder.jsx:113-114 | whitespace before a name does not change its key |
| FeaturedBuilder.NormalizeIgnoresTrailingSpace | components/featuredbuilder.jsx:113-114 | whitespace after a name does not change its key |
| FeaturedBuilder.NormalizeIgnoresCase | components/featuredbuilder.jsx:113-114 | names that differ only in letter case share a key |
| FeaturedBuilder.ImgSrc | components/featuredbuilder.jsx:160-166 | a non-empty path string is used as is, a module with a truthy `src` gives it, anything else gives the fallback logo; never empty |
| FeaturedBuilder.FallbackLogo | components/featuredbuilder.jsx:161 | the fallback logo path is never empty |
| FeaturedBuilder.Choose | components/featuredbuilder.jsx:74-88 | a response with a truthy `error` or `fallback` selects the fallback list; otherwise `data`, a bare array, or a non-iterable object when `data` is missing |
| FeaturedBuilder.FeaturedState | components/featuredbuilder.jsx:90-97 | a `null` response makes both lists the fallback data; otherwise each list is chosen from its own response |
| FeaturedBuilder.FailedCallUsesFallback | components/featuredbuilder.jsx:74-88 | a call that failed with a non-empty message shows the fallback data, one with an empty message an empty list |
| FeaturedBuilder.ProjectKey | components/featuredbuilder.jsx:120-121 | a project's key is the normalised builder name: the embedded object's name, the bare string, or the empty key for a missing or null builder |
| FeaturedBuilder.BuilderKey | components/featuredbuilder.jsx:129 | a known builder's key is the key of a project embedding that builder; a builder without a truthy name has the empty key |
| FeaturedBuilder.DisplayName | components/featuredbuilder.jsx:146-150 | a synthesised row is named after its first project's builder name, or after the key when no project has it |
| FeaturedBuilder.IdOnlyBuilderHasEmptyKey | components/featuredbuilder.jsx:120-121 | a builder given only by `_id` falls under the empty key, a bare id string under itself |
| FeaturedBuilder.CaseInsensitiveGrouping | components/featuredbuilder.jsx:117-124 | projects whose builder names differ in letter case share a group |
| FeaturedBuilder.BuilderMeetsItsProjects | components/featuredbuilder.jsx:127-130 | a known builder and a project naming it with extra whitespace and another case share a key |
| Keyed.GroupBy | components/featuredbuilder.jsx:117-124 | the grouping loop gives one entry per distinct key in first-occurrence order, holding exactly the elements with that key in their original order |
| Keyed.InOwnGroupOnly | components/featuredbuilder.jsx:117-124 | each project is in the group of its own key and in no other |
| Keyed.GroupSizesSum | components/featuredbuilder.jsx:117-124 | the group sizes add up to the number of projects |
| Keyed.IndexBy | components/featuredbuilder.jsx:127-130 | the indexing loop keeps, under each distinct key in first-occurrence order, the last builder with that key; no other key is present |
| Keyed.LastWith | components/featuredbuilder.jsx:128-130 | there is a last element with key k iff some element has key k, and no later element has it |
| Seqs.Dedup | components/featuredbuilder.jsx:136 | `Array.from(new Set(s))` has no repetition and the same members as `s` |
| Seqs.DedupFirstOccurrenceOrder | components/featuredbuilder.jsx:136 | the de-duplicated keys keep the order of their first occurrences |
| FeaturedBuilder.RowKeysUnion | components/featuredbuilder.jsx:136 | the row keys are distinct, exactly the keys of either map, and begin with the project keys in their order |
| FeaturedBuilder.MergeRows | components/featuredbuilder.jsx:140-157 | a key with a known builder gives that builder, any other key a synthesised row `dyn-<idx>-<key>` named after its first project |
| FeaturedBuilder.DynIdInjective | components/featuredbuilder.jsx:152 | two synthesised ids are equal only for the same position and key |
| FeaturedBuilder.FeaturedRows | components/featuredbuilder.jsx:116-157 | the rows follow the union of project and builder keys; each row's normalised name is its key, so the render's lookup finds exactly that key's projects; a row is the last known builder of its key when there is one, otherwise a synthesised row carrying its position and named after the builder of the first project with that key |
| PropertyCard.RenderCard | components/PropertyCard.jsx:6 | a falsy property renders nothing, any other property a card |
| PropertyCard.DisplayImage | components/PropertyCard.jsx:13-15 | a builder project shows a truthy wallpaper, else a truthy display image, else its first project image; any other record a truthy display image, else its first project image |
| PropertyCard.DisplayLocation | components/PropertyCard.jsx:21 | a truthy city name, else a truthy location, else the locality |
| PropertyCard.DisplayImageIsFirstCandidate | components/PropertyCard.jsx:13-15 | the image is the first truthy of wallpaper, display image and first project image for a builder project (display and first project image otherwise), and is falsy iff all are |
| PropertyCard.CardImage | components/PropertyCard.jsx:27 | the card shows an image iff some candidate is truthy |
| PropertyCard.DisplayTitle | components/PropertyCard.jsx:17-19 | a builder project with a truthy project name shows that name, everything else its title |
| PropertyCard.DisplayLocationIsFirstTruthy | components/PropertyCard.jsx:21 | the location is the first truthy of city name, location and locality; it is truthy iff one of the three is |
| PropertyCard.DisplayPrice | components/PropertyCard.jsx:9-11 | a builder project shows its min–max range, a regular property its single price |
| PropertyCard.BadgeClass | components/PropertyCard.jsx:54 | the badge is green iff the action is exactly "Sale", blue otherwise |
| PropertyCard.BuilderLine | components/PropertyCard.jsx:88 | the builder line is the embedded builder's name when truthy, else "Builder Project"; never empty |
| PropertyCard.BuilderParts | components/PropertyCard.jsx:39-91 | the logo shows iff builder project, truthy logo and `showBuilder`; the builder line iff builder project and `showBuilder`; the possession date iff builder project and truthy date |
| PropertyCard.HidingTheBuilder | components/PropertyCard.jsx:39-91 | `showBuilder = false` removes the logo and the builder line and changes nothing else |
| PropertyCard.RegularCardIgnoresProjectFields | components/PropertyCard.jsx:9-21 | a regular property's card does not depend on wallpaper, project name, builder, possession date or min/max price |

## Left out

- Prices typed into the filter are non-negative whole numbers (`PriceField`). `parseFloat` of fractions, negative numbers and non-numeric text are not modelled, and neither is floating-point rounding of `price * multiplier`.
- Record prices (`price`, `minPrice`, `maxPrice`) are `Option<nat>`: fractional, negative or string-typed prices in a record are not modelled.
- `Infinity` as the open upper bound is written as "no upper bound" (`EffectiveMax` returns `None`).
- The loading of the page data (`Promise.all` over four clients, `data || response || []`), the loading flags and the `isMounted` guard are left out. They are effects with no logic beyond the response selection modelled for the featured section.
- `URLSearchParams` percent-encoding is a parameter (`encode`) of the query-string functions. Object and array values of query entries are not modelled; integers, booleans and strings are.
- Api.ApiCall: the timeout signal `AbortSignal.timeout(2000)` is created once, before the loop. With the back-offs of 1000 and 2000 ms, the third attempt and every later one starts after that timer has fired (`SharedTimeoutExpires`), so in the real client it is aborted at once. With the default two retries a third attempt can never succeed, and a call whose first two attempts fail ends with the timeout error. The model does not tie attempts to this timer. The model treats each attempt's outcome as given by the `net` parameter; `fetch`, timers and the console are not modelled.
- PropertyCard.Href: a `null` `_id` renders as `undefined` here, where the page renders `/properties/null`; the record's optional fields do not distinguish `null` from `undefined`.
- `FormData` is a list of (name, file) pairs; file contents and the multipart encoding are not modelled.
- `trim` and `toLowerCase` are modelled on ASCII whitespace and ASCII letters only. Unicode whitespace and case mapping are not.
- A non-iterable `projects` or `builders` state (a response object without `data`) makes the section's grouping loop (featuredbuilder.jsx:118) or its indexing loop (featuredbuilder.jsx:128) throw. The model records the state as `NotIterable` and the rows are only modelled for lists.
- `toLocaleString` number formatting is not modelled: `PriceLine` keeps the numbers and `undefined` for an absent one. JSX markup, CSS classes other than the badge colour, image sizes and `Link` navigation are not modelled either.
- The top-builder component and the backend health route are not part of this model.

## Findings

| source | as written | input that shows it | evidently intended | confidence | as-written member | corrected member |
|---|---|---|---|---|---|---|
| app/properties/page.jsx:303 | the min guards compare against `parseInt(max) \|\| 100`, so a maximum of "0" counts as no maximum | type max "0", then min "50": both edits are accepted, min 50 > max 0 and no property can match (`MinGuardAcceptsInvertedRange`) | a set maximum, 0 included, bounds the minimum | not executed | PropertiesPage.TypeMinAsWritten | PropertiesPage.TypeMin |
| app/properties/page.jsx:100 | `typeof property.subcategory === 'object' && property.subcategory._id` reads `_id` of `null`, because `typeof null` is "object" | a record with `subcategory: null` whose `subcategoryName` differs from the selected subcategory throws a TypeError inside the filter effect (`NullSubcategoryThrows`) | a null subcategory simply does not match | not executed | PropertiesPage.SubcategoryTestAsWritten | PropertiesPage.SubcategoryKeeps |
| lib/api.js:200 | `headers: {}` is spread over the default headers, so uploads still send `Content-Type: application/json` | any `uploadSingle`, `uploadMultiple` or `uploadBuilder` call (`UploadKeepsJsonContentType`) | no Content-Type header, so the browser sets the multipart boundary | not executed | Api.MergeConfigAsWritten | Api.MergeConfig |
