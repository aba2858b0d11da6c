# BALLA item valuation — a verified model of its core

BALLA is a phone-first web app for pricing second-hand items in Iraq. The user picks a
governorate, photographs an item, and gets back a valuation. This project models the logic
behind that flow in Dafny and proves what the code promises about it. The modelled parts are:

- **The screen machine** (`useAppState`, module `AppState`). It has four screens
  (onboarding, upload, analyzing, results), four nullable fields beside the screen, and five operations. It is
  a class with one method per operation. Each method states its whole new state and agrees
  with a pure `Step` function. The file read and the 3000 ms analysis timer are separate
  completion events, counted by two pending counters.
- **The page** (`Index`, module `IndexPage`). It decides which view, if any, a state
  renders and which operations each view hands to the user. A reachability lemma shows
  that every state reachable through handed operations renders a view.
- **The governorate table** (module `Governorates`). It has 18 entries with distinct ids,
  and lookup by id returns the unique entry.
- **The client call** (`analyzeItem`, module `AnalyzeItem`). The request carries the
  image and the governorate's English name. What the one `invoke` returns becomes a
  transport failure, an in-body failure or a success.
- **The edge function** (`analyze-item`, module `AnalyzeFunction`). It is a total function
  of the request, the configured key, the AI gateway and the JSON parser. It covers:
  - input validation and the data-URL prefix;
  - the mapping of gateway statuses 429 and 402;
  - extraction of the first fenced code block;
  - the `not_sellable_item` sentinel;
  - the three `listingLinks`;
  - the catch-all 500.
- **Settings and translations** (`AppProvider`, `useApp`, `getTranslation`, `isRTL`, in
  modules `AppContext` and `I18n`). The two settings are stored in a key/value store and
  mirrored onto the document's direction, language and theme class.
- **Two view rules.** One is the history search (module `HistoryScreen`). The other is the
  confidence tiers and default histogram and sales (module `ConfidenceSection`).

Supporting modules:

- `Wrappers` holds `Option` and `Result`.
- `Text` holds JavaScript's `startsWith`, `indexOf`, `includes`, `trim` and `toLowerCase`, and
  the decimal rendering of integers.
- `JsonValue` models JSON values as JavaScript reads them: property access, optional
  chaining, truthiness and template-string conversion.

Inputs that come from outside are parameters of the model:

- the browser's storage and its colour-scheme preference;
- the transport behind `supabase.functions.invoke`;
- `fetch` to the AI gateway;
- `JSON.parse`;
- the `LOVABLE_API_KEY` environment variable.

The edge function returns the `not_sellable_item` sentinel with status 400
(supabase/functions/analyze-item/index.ts:128-133), and so does the model.

## Model

| member | source | states |
|---|---|---|
| AppState.AppState.constructor | src/hooks/useAppState.ts:20-24 | starts on onboarding with governorate, file, preview and result all null and nothing pending; equals `Initial` |
| AppState.AppState.SelectGovernorate | src/hooks/useAppState.ts:26-29 | stores the id and moves to upload from any screen; file, preview, result and counters unchanged; agrees with `Step` |
| AppState.AppState.UploadImage | src/hooks/useAppState.ts:31-38 | sets the file at once and starts one read; screen, governorate, preview and result unchanged; agrees with `Step` |
| AppState.AppState.ReadCompleted | src/hooks/useAppState.ts:34-36 | a pending read completes: the preview becomes the data URL and nothing else changes |
| AppState.AppState.StartAnalysis | src/hooks/useAppState.ts:40-42 | moves to analyzing at once and starts one timer; the data fields are unchanged |
| AppState.AppState.AnalysisCompleted | src/hooks/useAppState.ts:44-63 | the pending timer fires: the result is stored and the screen becomes results |
| AppState.AppState.Reset | src/hooks/useAppState.ts:66-71 | moves to upload and clears file, preview and result; the governorate is kept |
| AppState.AppState.GoBack | src/hooks/useAppState.ts:73-80 | from upload: onboarding with the governorate cleared; from results: exactly `Reset`; otherwise no change |
| AppState.Step | src/hooks/useAppState.ts:26-80 | the transition function of the five operations and the two completions; each class method's ensures says it agrees with it, and the IndexPage lemmas state what it keeps |
| AppState.Cleared | src/hooks/useAppState.ts:66-71 | what `reset` leaves; `AppState.AppState.Reset` and `GoBack` state their new state through it |
| AppState.Run | src/hooks/useAppState.ts:26-80 | the state after a sequence of events; `IndexPage.RunPreservesInv` and `ReachableRenders` are stated over it |
| AppState.MockResultWellFormed | src/hooks/useAppState.ts:45-60 | the delivered result has lowest ≤ suggested ≤ average ≤ highest, a condition score in 0..100 and three listing links |
| AppState.EntersResultsOnlyOnCompletion | src/hooks/useAppState.ts:40-64 | the only event that enters results is the analysis completion, and it leaves its result stored |
| IndexPage.Render | src/pages/Index.tsx:20-52 | onboarding and analyzing always render; upload renders iff the governorate is set; results renders iff result and governorate are set; otherwise nothing |
| IndexPage.Handed | src/pages/Index.tsx:20-52 | which callbacks each view receives: onboarding `selectGovernorate`; upload `uploadImage`, `startAnalysis`, `goBack`; results `reset`, `goBack`; analyzing none; `ReachableRenders` is stated over it |
| IndexPage.StepPreservesInv | src/pages/Index.tsx:20-52 | an event the rendered view hands out, or a pending completion, keeps the reachable-state invariant |
| IndexPage.RunPreservesInv | src/hooks/useAppState.ts:26-80 | every admissible event sequence keeps the invariant |
| IndexPage.ReachableRenders | src/pages/Index.tsx:20-52 | every state reachable from the initial state through handed operations and pending completions renders a view |
| IndexPage.ResultsOnlyThroughAnalyzing | src/hooks/useAppState.ts:40-64 | in a reachable state, results is entered only from analyzing, by the completion, with its result stored |
| Governorates.FindIn | src/lib/governorates.ts:1-20 | lookup returns the first entry with the id, and fails iff no entry has it |
| Governorates.TableShape | src/lib/governorates.ts:1-20 | 18 entries, "baghdad" first and "duhok" last |
| Governorates.IdsDistinct | src/lib/governorates.ts:2-19 | ids are pairwise distinct |
| Governorates.NamesWellFormed | src/lib/governorates.ts:2-19 | every English and Arabic name is non-empty; English names are pairwise distinct |
| Governorates.Find | src/lib/api/analyzeItem.ts:15 | `GOVERNORATES.find` by id; stated by `FindIn`, `FindUnique` and `FindTotal` |
| Governorates.FindUnique | src/lib/api/analyzeItem.ts:15 | lookup by an id returns the unique entry carrying it |
| Governorates.FindTotal | src/lib/governorates.ts:22 | lookup never fails for a `GovernorateId` |
| Governorates.BaghdadEntry | src/lib/governorates.ts:2 | "baghdad" maps to "Baghdad" / "بغداد" |
| AnalyzeItem.GovernorateName | src/lib/api/analyzeItem.ts:15-16 | the entry's name when found and non-empty, otherwise the id |
| AnalyzeItem.BuildRequest | src/lib/api/analyzeItem.ts:18-23 | the body carries the image unchanged and the resolved governorate name |
| AnalyzeItem.TransportErrorBody | src/lib/api/analyzeItem.ts:29 | an object whose only field `error` is the message, or 'Failed to analyze item' when that is empty |
| AnalyzeItem.Normalise | src/lib/api/analyzeItem.ts:25-40 | the three-way branch on the reply; its cases and payloads are stated by `OutcomeCases` |
| AnalyzeItem.Analyze | src/lib/api/analyzeItem.ts:11-41 | exactly one call, of 'analyze-item' with the built body, and the outcome is the normalisation of its reply |
| AnalyzeItem.RequestCarriesName | src/lib/api/analyzeItem.ts:15-23 | for a table id the request is exactly (image, English name) |
| AnalyzeItem.UnknownIdSentAsName | src/lib/api/analyzeItem.ts:16 | an id without an entry is sent as the name |
| AnalyzeItem.TypedIdResolves | src/lib/api/analyzeItem.ts:15-16 | a typed id always resolves and its English name is sent |
| AnalyzeItem.TransportErrorFirst | src/lib/api/analyzeItem.ts:25-31 | a transport error wins over any data and yields `{error: message or default}` |
| AnalyzeItem.ErrorBodyPassedThrough | src/lib/api/analyzeItem.ts:33-38 | with no transport error, a body with a truthy `error` is the failure, unchanged |
| AnalyzeItem.SuccessPassesData | src/lib/api/analyzeItem.ts:40 | otherwise success with the body unchanged |
| AnalyzeItem.OutcomeCases | src/lib/api/analyzeItem.ts:25-40 | success iff no transport error and no truthy `error`; failure iff either; each failure's payload |
| AnalyzeItem.SingleInvoke | src/lib/api/analyzeItem.ts:18-40 | every transport sees the same single request, and the outcome depends on the transport only through its reply to it (no retry) |
| AnalyzeFunction.Handle | supabase/functions/analyze-item/index.ts:8-167 | the `serve` handler; stated by `ResponseShapes`, `GatewayCalledOnlyWhenValid`, `MissingImageRejected` and `UnconvertibleGovernorateRejected` |
| AnalyzeFunction.HandleReply | supabase/functions/analyze-item/index.ts:88-166 | everything from the gateway's reply to the response; stated by `ReplyShapes`, `GatewayStatusMapped` and `ContentFailures` |
| AnalyzeFunction.FromData | supabase/functions/analyze-item/index.ts:106-159 | the part after a 2xx JSON reply; stated by `DataShape`, `ContentFailures`, `SentinelPassedThrough` and `SuccessEnriched` |
| AnalyzeFunction.Content | supabase/functions/analyze-item/index.ts:107 | `data.choices?.[0]?.message?.content`, through `JsonValue.Member` and `JsonValue.First` |
| AnalyzeFunction.FencedText | supabase/functions/analyze-item/index.ts:119-120 | the text the regular expression captures, or the whole content; stated by `FencedBlockExtracted`, `UnfencedContentParsedWhole`, `UnclosedFenceParsedWhole` and `BacktickBeforeBlock` |
| AnalyzeFunction.ParseContent | supabase/functions/analyze-item/index.ts:115-125 | `JSON.parse` of the trimmed capture; `None` is the inner catch; used by `ContentFailures` |
| AnalyzeFunction.Finish | supabase/functions/analyze-item/index.ts:127-159 | the sentinel check and the `listingLinks` assignment, including the TypeError an unconvertible `itemName` or `averagePrice` throws; stated by `FinishShape` and `EnrichedFinish` |
| AnalyzeFunction.ScaledPrice | supabase/functions/analyze-item/index.ts:144-149 | `Math.round(averagePrice * 1.1)` and `* 0.9`, `None` being the TypeError of an unconvertible average; stated by `ScaledPriceRounds` |
| AnalyzeFunction.ScaledPriceRounds | supabase/functions/analyze-item/index.ts:144-149 | the scaling throws exactly when the average's conversion throws; a numeric price scales to the nearest integer, halves up; the price is `null` exactly for an absent or string average or an array or object that converts |
| AnalyzeFunction.Listing | supabase/functions/analyze-item/index.ts:137-151 | one `{title, price, url: '#'}` entry, with an `undefined` price dropped |
| AnalyzeFunction.ListingLinks | supabase/functions/analyze-item/index.ts:136-152 | the three entries in order, or the TypeError when the item name or the average cannot be converted; `Enrich` states their titles, urls and prices |
| AnalyzeFunction.ToDataUrl | supabase/functions/analyze-item/index.ts:79 | a `data:` URL is kept, anything else gets the JPEG base64 prefix; the result is always a `data:` URL |
| AnalyzeFunction.ToDataUrlIdempotent | supabase/functions/analyze-item/index.ts:79 | normalising twice equals normalising once |
| AnalyzeFunction.CatchAll | supabase/functions/analyze-item/index.ts:160-166 | status 500 with the error's message, or 'Failed to analyze item' for a non-Error |
| AnalyzeFunction.Enrich | supabase/functions/analyze-item/index.ts:136-152 | throws exactly when the item name or the average price cannot be converted; otherwise `listingLinks` replaced by three entries with url "#", titled the item name's text followed by " - مستعمل", " - حالة جيدة" and " - للبيع", priced at the average price and at `ScaledPrice` of it by 1.1 and 0.9; every other field unchanged |
| AnalyzeFunction.UnfencedContentParsedWhole | supabase/functions/analyze-item/index.ts:119-120 | content without a fence is parsed whole |
| AnalyzeFunction.FencedBlockExtracted | supabase/functions/analyze-item/index.ts:119-120 | when no fence starts before a ``` or ```json block and none starts inside it, its inside is what gets parsed, whatever follows it; backticks that form no fence may stand anywhere |
| AnalyzeFunction.UnclosedFenceParsedWhole | supabase/functions/analyze-item/index.ts:119-120 | a fence opened and never closed does not match: the whole content is parsed |
| AnalyzeFunction.BlockFound | supabase/functions/analyze-item/index.ts:119 | in such a block the first fence is the opening one, the capture starts after the tag, and the next fence ends the body |
| AnalyzeFunction.FencedTextAt | supabase/functions/analyze-item/index.ts:119-120 | with the opening fence, the capture's start and the closing fence located, the capture is the text between them |
| AnalyzeFunction.FirstFenceAt | supabase/functions/analyze-item/index.ts:119 | the first fence at or after a position is at `i` when `i` holds one and none starts in between |
| AnalyzeFunction.BlockPieces | supabase/functions/analyze-item/index.ts:119 | in a block, the opening and closing fences occur where they stand, the inside is the body, and "json" follows the opening fence exactly when it is the tag |
| AnalyzeFunction.TagSkipped | supabase/functions/analyze-item/index.ts:119 | the optional `json` is taken exactly when it is the tag, never from an untagged body |
| AnalyzeFunction.BacktickBeforeBlock | supabase/functions/analyze-item/index.ts:119-120 | a single backtick before the block does not hide it: "`x` ```json{}```" yields "{}" |
| AnalyzeFunction.MissingImageRejected | supabase/functions/analyze-item/index.ts:16-21 | a missing or falsy image is a 400 'Image is required' and no gateway call |
| AnalyzeFunction.GatewayCalledOnlyWhenValid | supabase/functions/analyze-item/index.ts:14-86 | the gateway is called iff validation passed and the governorate converts to text, with the normalised image, the governorate's text and the key |
| AnalyzeFunction.UnconvertibleGovernorateRejected | supabase/functions/analyze-item/index.ts:30-41 | a governorate whose conversion throws fails the prompt's template: 500 with the TypeError's message and no gateway call |
| AnalyzeFunction.GatewayStatusMapped | supabase/functions/analyze-item/index.ts:88-104 | 429 and 402 pass through with fixed messages; other non-2xx statuses become 500 'AI gateway error: <status>' |
| AnalyzeFunction.ContentFailures | supabase/functions/analyze-item/index.ts:106-125 | no content gives 500 'No content in AI response'; unparseable content gives 500 'Failed to parse AI response' |
| AnalyzeFunction.SentinelPassedThrough | supabase/functions/analyze-item/index.ts:128-133 | the sentinel comes back with 400 and exactly the parsed object |
| AnalyzeFunction.SuccessEnriched | supabase/functions/analyze-item/index.ts:135-159 | any other parsed object comes back with 200 and the enriched body when its item name and average convert, and otherwise with 500 and the TypeError's message |
| AnalyzeFunction.ParsedContentFinished | supabase/functions/analyze-item/index.ts:106-127 | a 2xx reply whose content is a non-empty string that parses reaches the sentinel check with the parsed value |
| AnalyzeFunction.EnrichedFinish | supabase/functions/analyze-item/index.ts:127-159 | an object other than the sentinel gives 200 with the enriched fields, `listingLinks` being the three entries, when its item name and average convert; otherwise it throws the TypeError |
| AnalyzeFunction.ResponseShapes | supabase/functions/analyze-item/index.ts:8-167 | every response has status 200, 400, 402, 429 or 500, and every 500 carries exactly `{error: text}` |
| AnalyzeFunction.ReplyShapes | supabase/functions/analyze-item/index.ts:88-166 | the same, for everything after the gateway call |
| AnalyzeFunction.DataShape | supabase/functions/analyze-item/index.ts:106-159 | after a 2xx JSON reply the status is 200, 400 or 500, and every 500 carries `{error: text}` |
| AnalyzeFunction.FinishShape | supabase/functions/analyze-item/index.ts:127-159 | after parsing, the status is 200, 400 or 500 |
| JsonValue.Truthy | supabase/functions/analyze-item/index.ts:109 | JavaScript truthiness: `undefined`, `null`, `false`, 0 and "" are falsy, every array and object truthy; used by `MissingImageRejected`, `ContentFailures` and `AnalyzeItem.OutcomeCases` |
| JsonValue.Member | supabase/functions/analyze-item/index.ts:107 | optional chaining `v?.key`: `undefined` for `undefined` or `null`, otherwise the property read |
| JsonValue.First | supabase/functions/analyze-item/index.ts:107 | `v?.[0]`: an array's first element, a string's first character, an object's field "0", otherwise `undefined` |
| JsonValue.Stringify | supabase/functions/analyze-item/index.ts:138 | `String(v)` of a present value inside a template literal, `None` being the TypeError; stated by `StringifyThrows` |
| JsonValue.Get | supabase/functions/analyze-item/index.ts:107 | a property read finds an object's own field and nothing on other values |
| JsonValue.TemplateString | supabase/functions/analyze-item/index.ts:138 | a string converts to itself; `undefined` to "undefined"; the conversion throws exactly for a value `Throws` names |
| JsonValue.StringifyThrows | supabase/functions/analyze-item/index.ts:138 | `String(v)` throws exactly when the value is an object with an own `toString` key or an array holding such a value at any depth |
| JsonValue.JoinThrows | supabase/functions/analyze-item/index.ts:138 | an array's `join` throws exactly when one of its elements' conversion does |
| JsonValue.ToStringKeyThrows | supabase/functions/analyze-item/index.ts:138 | `{toString: 0}` and an array holding it cannot be converted; `{name: "a"}` reads "[object Object]" |
| Text.StartsWith | supabase/functions/analyze-item/index.ts:79 | `s.startsWith(prefix)`; stated through `AnalyzeFunction.ToDataUrl` |
| Text.Contains | src/components/HistoryScreen.tsx:14-15 | `s.includes(p)`; stated by `ContainsEmpty`, `ContainsTransitive` and `LowerKeepsOccurrence` |
| Text.IndexOf | supabase/functions/analyze-item/index.ts:119 | a position it finds is at or after the start and holds an occurrence; an empty pattern searched from past the end is `None`, where JavaScript answers the length, and the model only searches for the non-empty fence |
| Text.IndexOfFirst | supabase/functions/analyze-item/index.ts:119 | the position `IndexOf` finds is the first occurrence at or after the start, and it finds none iff there is no such occurrence |
| Text.Trim | supabase/functions/analyze-item/index.ts:121 | drops exactly the leading and trailing white space: a slice of the input with only white space before and after it, neither starting nor ending with white space |
| Text.TrimStart | supabase/functions/analyze-item/index.ts:121 | drops exactly the leading white space |
| Text.TrimEnd | supabase/functions/analyze-item/index.ts:121 | drops exactly the trailing white space |
| Text.ToLower | src/components/HistoryScreen.tsx:14-15 | same length, each character lowercased |
| Text.LowerIdempotent | src/components/HistoryScreen.tsx:14-15 | lowercasing twice is lowercasing once |
| Text.ContainsEmpty | src/components/HistoryScreen.tsx:14-15 | every string includes the empty query |
| Text.ContainsTransitive | src/components/HistoryScreen.tsx:14-15 | what occurs in an occurrence occurs in the whole |
| Text.LowerKeepsOccurrence | src/components/HistoryScreen.tsx:14-15 | an occurrence survives lowercasing both strings |
| I18n.Translations | src/lib/i18n.ts:3-104 | the two translation tables; stated by `KeysDistinct`, `TablesShareKeys`, `KeyCount` and `AppNameExample` |
| I18n.KeysDistinct | src/lib/i18n.ts:3-104 | no translation key is declared twice |
| I18n.TablesShareKeys | src/lib/i18n.ts:3-106 | the Arabic and English tables define the same keys |
| I18n.KeyCount | src/lib/i18n.ts:3-104 | each table has 33 keys |
| I18n.GetTranslation | src/lib/i18n.ts:108-110 | total over language × key; the language's own entry verbatim |
| I18n.IsRTL | src/lib/i18n.ts:112-114 | true exactly for "ar" |
| I18n.AppNameExample | src/lib/i18n.ts:6-56 | "appName" is "BALLA" in English and "بلّه" in Arabic |
| AppContext.Toggled | src/contexts/AppContext.tsx:43 | the toggled theme differs from the current one |
| AppContext.ToggleInvolutive | src/contexts/AppContext.tsx:42-44 | toggling twice restores the theme |
| AppContext.InitialLanguage | src/contexts/AppContext.tsx:19-22 | the stored language when non-empty, otherwise Arabic |
| AppContext.InitialTheme | src/contexts/AppContext.tsx:24-28 | the stored theme when non-empty, otherwise dark iff the system prefers dark |
| AppContext.Direction | src/contexts/AppContext.tsx:32 | "rtl" exactly for Arabic |
| AppContext.WithThemeClass | src/contexts/AppContext.tsx:38-39 | the theme is the only theme class left; other classes unchanged |
| AppContext.ReloadRestoresSettings | src/contexts/AppContext.tsx:19-40 | what the effects store is what the initialisers read back |
| AppContext.ThemeClassesRestored | src/contexts/AppContext.tsx:36-40 | switching the theme away and back restores the set of classes |
| AppContext.AppProvider.constructor | src/contexts/AppContext.tsx:18-40 | initial settings from the store, then both effects: stored, direction, language attribute, one theme class |
| AppContext.AppProvider.SetLanguage | src/contexts/AppContext.tsx:30-34 | stores the language under 'balla-language' and sets direction and language attribute; theme untouched |
| AppContext.AppProvider.SetTheme | src/contexts/AppContext.tsx:36-40 | stores the theme under 'balla-theme' and leaves it the only theme class; language untouched |
| AppContext.AppProvider.ToggleTheme | src/contexts/AppContext.tsx:42-44 | switches light and dark and runs the theme effect |
| AppContext.AppProvider.T | src/contexts/AppContext.tsx:46-48 | the translation for the current language |
| AppContext.AppProvider.IsRtl | src/contexts/AppContext.tsx:59 | true exactly when the language is Arabic |
| AppContext.ToggleTwice | src/contexts/AppContext.tsx:42-44 | two toggles restore theme, storage and the set of document classes |
| AppContext.UseApp | src/contexts/AppContext.tsx:67-73 | the provider when present, otherwise the error 'useApp must be used within an AppProvider' |
| HistoryScreen.Keeps | src/components/HistoryScreen.tsx:13-16 | the filter's predicate: the lowercased query occurs in the lowercased name or type |
| HistoryScreen.Filter | src/components/HistoryScreen.tsx:13-16 | no longer than the history; every listed item is in it and matches |
| HistoryScreen.FilterMembership | src/components/HistoryScreen.tsx:13-16 | an item is listed iff it is in the history and its lowercased name or type contains the lowercased query |
| HistoryScreen.FilterCounts | src/components/HistoryScreen.tsx:13-16 | every copy of a matching item is listed and no copy of any other: each value occurs as often as in the history when it matches, otherwise never |
| HistoryScreen.FilterIsSubsequence | src/components/HistoryScreen.tsx:13 | the list is an order-preserving subsequence of the history |
| HistoryScreen.EmptyQueryKeepsAll | src/components/HistoryScreen.tsx:11-16 | the initial empty query lists everything |
| HistoryScreen.CaseInsensitive | src/components/HistoryScreen.tsx:14-15 | a query and its lowercased form list the same items |
| HistoryScreen.NarrowingQuery | src/components/HistoryScreen.tsx:13-16 | an item kept for a query is kept for every query contained in it |
| HistoryScreen.EmptyStateShown | src/components/HistoryScreen.tsx:44-55 | the empty-state lines shown instead of the list, if any; stated by `EmptyStateCases` |
| HistoryScreen.EmptyStateCases | src/components/HistoryScreen.tsx:44-55 | the empty state shows iff the list is empty: "no evaluations yet" for an empty history, "no results" otherwise |
| ConfidenceSection.EffectiveScore | src/components/results/ConfidenceSection.tsx:20 | an absent score is 75, a present one is kept |
| ConfidenceSection.TierOf | src/components/results/ConfidenceSection.tsx:64-66 | high iff ≥ 80, medium iff 60..79, low iff < 60 |
| ConfidenceSection.BarClass | src/components/results/ConfidenceSection.tsx:64-67 | the score bar's colour by its own thresholds; `ColourAndCaptionAgree` ties it to the tier |
| ConfidenceSection.Caption | src/components/results/ConfidenceSection.tsx:73-79 | the caption by its own thresholds; `ColourAndCaptionAgree` ties it to the tier |
| ConfidenceSection.ColourAndCaptionAgree | src/components/results/ConfidenceSection.tsx:64-78 | bar colour and caption are both fixed by the tier, and differ between tiers |
| ConfidenceSection.DefaultScoreIsMedium | src/components/results/ConfidenceSection.tsx:20 | the default score is in the medium tier |
| ConfidenceSection.DefaultDistribution | src/components/results/ConfidenceSection.tsx:26-31 | the four default buckets; stated by `DefaultDistributionShape` |
| ConfidenceSection.Distribution | src/components/results/ConfidenceSection.tsx:26 | a supplied distribution is used as given; the default only when absent |
| ConfidenceSection.DefaultDistributionShape | src/components/results/ConfidenceSection.tsx:26-31 | four buckets, counts 12/35/28/6, percentages 15/43/35/7 summing to 100, contiguous spans from 70 % to 130 % |
| ConfidenceSection.Percentages | src/components/results/ConfidenceSection.tsx:40 | the buckets' percentages, in order |
| ConfidenceSection.MaxPercentage | src/components/results/ConfidenceSection.tsx:40 | an element of the list and at least every element |
| ConfidenceSection.BarWidth | src/components/results/ConfidenceSection.tsx:105 | a bucket's share of the largest bucket in percent; stated by `BarWidthsBounded` |
| ConfidenceSection.BarWidthsBounded | src/components/results/ConfidenceSection.tsx:105 | the largest bucket's bar is 100 % and every bar lies in 0..100 % |
| ConfidenceSection.Highlighted | src/components/results/ConfidenceSection.tsx:108 | rows 1 and 2 are highlighted |
| ConfidenceSection.DefaultHighlightsSuggested | src/components/results/ConfidenceSection.tsx:108 | in the default, rows 1 and 2 are highlighted exactly when their span holds the suggested price, and the largest bucket is one of them |
| ConfidenceSection.RoundScaled | src/components/results/ConfidenceSection.tsx:35-37 | the nearest integer to price × percent / 100, halves rounded up |
| ConfidenceSection.DefaultSales | src/components/results/ConfidenceSection.tsx:34-38 | the three default sales; stated by `DefaultSalesOrdered` |
| ConfidenceSection.Sales | src/components/results/ConfidenceSection.tsx:34 | supplied sales are used as given; the default only when absent |
| ConfidenceSection.RoundScaledMonotone | src/components/results/ConfidenceSection.tsx:35-37 | for a non-negative price, rounding after scaling keeps the order of the factors |
| ConfidenceSection.DefaultSalesOrdered | src/components/results/ConfidenceSection.tsx:34-38 | three default sales whose prices are ordered as their factors 85 % ≤ 95 % ≤ 105 % |

## Left out

- Rendering, animation, icons and layout are presentation only. This covers every JSX tree, framer-motion, and the screens other than the page dispatch.
- The text of the prompt sent to the gateway, the model name, the CORS headers and the `console` logging are not behaviour of the modelled core.
- The gateway request is reduced to the image URL, the governorate's text and the key. The rest of the system prompt's text is not built; only the governorate's conversion into it, which can throw, is modelled.
- Numbers are unbounded integers (prices are whole dinars). Non-integer JSON numbers, NaN and infinities are not represented. JavaScript's doubles lose precision above 2^53, which the model does not; and `String(n)` writes exponent notation from 1e21 up, where the model's `DecimalString` writes every digit.
- AnalyzeFunction.ScaledPrice: computes `Math.round(averagePrice * 1.1)` and `* 0.9` with exact rational arithmetic, not IEEE doubles. A product that rounds differently in binary floating point is not captured.
- AnalyzeFunction.ScaledPrice: gives NaN (serialised as `null`) for strings, and for arrays and objects whose conversion does not throw. It does not model JavaScript's numeric coercion of numeric strings (the empty or blank string gives 0), of the empty array (which gives 0) or of one-element arrays.
- ConfidenceSection.RoundScaled: uses the same exact arithmetic for the default sale prices.
- The default range labels keep their endpoints as exact reals. The text that `Intl.NumberFormat` (`formatPrice`) renders from them is not modelled, since it depends on the platform's locale data.
- ConfidenceSection.MaxPercentage: requires a non-empty list. `Math.max()` of an empty list (-Infinity) and the all-zero case (a division by zero in the bar width) are not modelled.
- The wording of the runtime's own TypeError messages (destructuring `null`, calling `startsWith` on a non-string, reading from `null`) is the engine's. These messages are fixed placeholder constants.
- AppContext.WithThemeClass: the document's classes are a set, so their order is not modelled. `classList.remove` followed by `add` moves the theme class to the end of the list.
- JSON object key order is not kept, because objects are maps. The order `JSON.stringify` writes fields in is therefore not modelled.
- AppContext.AppProvider.constructor: requires that the stored language and theme are empty or one of the values the provider writes. A foreign stored value, which the code casts without checking, is not modelled.
- AppContext.InitialLanguage: carries the same requirement on the stored language, for the same reason.
- AppContext.InitialTheme: carries the same requirement on the stored theme, for the same reason.
- Text.ToLower: lowercases ASCII letters only. Unicode case mapping beyond ASCII is not modelled.
- React's batching of state updates and callbacks that fire after the state they closed over has changed are not modelled. Each operation acts on the current state.
- The file read and the analysis timer are completion events that the caller fires. Their timing is not modelled, and neither is the fact that the shown `startAnalysis` always delivers the fixed mock result (`MockResult`): the completion carries any result.
- ScanScreen's enable rule and drop filter are not part of this model.
- Image downscaling, a declared condition or purchase year, and appending to the history do not occur in the modelled files, so none is modelled.
- `supabase.functions.invoke`, `fetch`, `JSON.parse`, `localStorage`, `matchMedia` and `Deno.env` are parameters or fields of the model. Their own behaviour is not modelled.
