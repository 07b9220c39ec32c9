# AI automation catalog: search and card rendering

The page shows a fixed catalog of six "automation categories". Each has a
title, an accent colour, an icon, a description, five key tools and eight
typical workflow steps. A search box filters the catalog as the user types,
and the page redraws the grid of cards. This project models:

- the `AutomationCategory` record and the `automationData` catalog
  (`Catalog`, in `catalog.dfy`);
- `filterContent`, the search (`Search`, in `search.dfy`). The term is
  lower-cased and trimmed. A blank term shows the whole catalog. Otherwise
  the result keeps, in catalog order, every category whose lower-cased
  name, description or one of its tools contains the term;
- the string operations the search relies on: `toLowerCase`, `trim` and
  `includes` (`Text`, in `text.dfy`);
- `renderCards` (`Render`, in `render.dfy`). An empty list gives the single
  "no results" paragraph. Otherwise the grid gets one card per category, in
  order, with the tool and workflow lists in order. The grid is modelled as
  the list of nodes it ends up holding;
- worked searches over the fixed catalog (`CatalogExamples`, in
  `examples.dfy`): "automatización" in any case keeps all six categories,
  and "GPT" keeps exactly the first and the last category.

`FilterContent` takes the catalog as a parameter, where the source always
reads the global `automationData`. The properties then hold for every
catalog, and the worked examples apply them to `AutomationData`.

The catalog's long texts are written in the Dafny source as concatenations
of short literals. Each value is character for character the one in
`index.tsx`.

The search for "GPT" also keeps the first category, "Automatización de
Soporte al Cliente", because its tool "ChatGPT" (index.tsx:21) contains
"gpt" once lower-cased. It therefore keeps `[CustomerSupport, Analytics]`,
which `CatalogExamples.GptSelectsFirstAndLast` proves.

## Model

| member | source | states |
|---|---|---|
| Text.Lower | index.tsx:122 | the result is never an upper-case letter of the modelled range, and a character changes only if it was one |
| Text.LowerStrIdempotent | index.tsx:122 | lower-casing an already lower-cased text changes nothing |
| Text.TrimSpec | index.tsx:122 | `trim` returns the slice of the text with only whitespace around it; the slice neither starts nor ends with whitespace; it is empty exactly when the text is all whitespace |
| Text.TrimOfTrimmed | index.tsx:122 | a text with no whitespace at either end is its own trim |
| Text.TrimIdempotent | index.tsx:122 | trimming twice is the same as trimming once |
| Text.TrimPadded | index.tsx:122 | whitespace added around a text does not change its trim |
| Text.IncludesIff | index.tsx:131-134 | `includes` holds exactly when the needle occurs at some index of the text |
| Text.IncludesAt | index.tsx:131-134 | an occurrence at a known index gives `includes` |
| Search.SomeToolIncludesIff | index.tsx:130-132 | `some` over the tools holds exactly when one lower-cased tool contains the term |
| Search.MatchesIff | index.tsx:129-136 | the filter callback keeps a category exactly when the term occurs in its lower-cased name, its lower-cased description or one of its lower-cased tools |
| Search.FilterMatching | index.tsx:129-137 | the filtered list is no longer than the input, and holds a category exactly when it is in the input and matches |
| Search.FilterContent | index.tsx:121-140 | the searched list holds a category exactly when it is in the catalog and is selected by the term (blank normal form, or a match) |
| Search.BlankTermIff | index.tsx:122-124 | the normalised term is empty exactly when the typed term is empty or all whitespace |
| Search.BlankTermShowsAll | index.tsx:124-127 | an empty or whitespace-only term gives the whole catalog, unchanged and in order |
| Search.FilterMatchingIsSubsequence | index.tsx:129-137 | the filtered list is an order-preserving subsequence of the input |
| Search.FilterMatchingCounts | index.tsx:129-137 | a matching category occurs in the filtered list as often as in the input, and any other category not at all |
| Search.FilterContentIsSubsequence | index.tsx:121-140 | the search result is an order-preserving subsequence of the catalog; nothing is added or duplicated, and a selected category keeps its multiplicity |
| Search.FilterMatchingKeepsMatching | index.tsx:129-137 | a list whose every element matches passes through the filter unchanged |
| Search.FilterMatchingIdempotent | index.tsx:129-137 | filtering the filtered list again with the same term changes nothing |
| Search.FilterContentIdempotent | index.tsx:121-140 | searching the result again with the same term returns it unchanged |
| Search.SameNormalFormSameResult | index.tsx:122 | two terms with the same lower-cased, trimmed form give the same result |
| Search.CaseInsensitive | index.tsx:122 | two terms that agree once each character is lower-cased give the same result |
| Search.PaddingInsensitive | index.tsx:122 | whitespace typed before or after the term does not change the result |
| Render.ListItems | index.tsx:87-88 | one list item per tool or workflow step, same length, same texts in the same order |
| Render.RenderCards | index.tsx:73-115 | an empty list gives exactly one "no results" placeholder; otherwise one card per category in input order, each with that category's title, description, colour and icon, and tool and workflow items matching its lists in order and length |
| Render.OnSearchInput | index.tsx:121-145 | after a keystroke the grid holds exactly the rendering of the search result (every selected category's full card, in catalog order, or the placeholder); the placeholder appears exactly when no category is selected, and every card shown belongs to a selected category |
| Render.InitialRender | index.tsx:148-150 | the first render holds the full card of every catalog category (title, description, colour, icon, tools and workflow in order), in catalog order |
| CatalogExamples.AutomatizacionSelectsAll | index.tsx:17-57 | every category name begins with "Automatización", so that term keeps the whole catalog |
| CatalogExamples.AutomatizacionUpperSelectsAll | index.tsx:122 | "AUTOMATIZACIÓN", accented capital included, also keeps the whole catalog |
| CatalogExamples.CustomerSupportHasGpt | index.tsx:21 | the first category matches "gpt" through its tool "ChatGPT" |
| CatalogExamples.AnalyticsHasGpt | index.tsx:61 | the last category matches "gpt" through its tool "Tableau con GPT" |
| CatalogExamples.MarketingHasNoGpt | index.tsx:24-31 | "gpt" is in neither the name, the description nor any tool of the marketing category |
| CatalogExamples.SalesHasNoGpt | index.tsx:32-39 | the same for the sales category |
| CatalogExamples.FinanceHasNoGpt | index.tsx:40-47 | the same for the finance category |
| CatalogExamples.HumanResourcesHasNoGpt | index.tsx:48-55 | the same for the human-resources category |
| CatalogExamples.GptSelectsFirstAndLast | index.tsx:121-137 | "GPT" keeps exactly the first and the last category, in that order |

## Left out

- The DOM plumbing is not modelled: `getElementById`, `innerHTML`, `createElement`, `className`, `style.setProperty` and `appendChild` (index.tsx:66-67, 75, 83-86, 113). The grid's final content is modelled as the list of nodes `RenderCards` returns.
- Render.RenderCards: the early return when the grid element is missing (index.tsx:74) is not modelled; the model always has a grid.
- The HTML template (index.tsx:90-112), the CSS class names and the icon font are not modelled; a card holds the values the template puts into it.
- The event wiring (index.tsx:143-145, 148-150) is not modelled as such. `OnSearchInput` and `InitialRender` stand for what the two handlers do.
- Text.Lower: only ASCII A-Z and the Latin-1 capitals U+00C0..U+00DE, except U+00D7, are lower-cased. The rest of Unicode's case mapping is not modelled, including mappings that change a text's length. Every text in the catalog, and every term in the worked examples, stays inside this range.
- JavaScript strings are sequences of UTF-16 code units; the model uses Dafny characters (Unicode scalar values). The two agree on every text outside the astral planes.
