# Whipsly search core, modelled in Dafny

Whipsly is a used-car search site. This project models the logic behind it:
- The natural-language query parser (`naturalLanguageSearch.js`). It turns a phrase such as "reliable family SUV under $30k" into structured search parameters, a capped confidence score, explanation notes and an intent.
- Its search-suggestion generator.
- The search dropdown: autocomplete, a spelling helper built on a Levenshtein distance, and the recent-search history.
- The vehicle-data hook: the filter pipeline, sorting, the filter record and the suggested searches.
- Affiliate routing: partner choice by region and vehicle type, vehicle-type detection, tracking links and the click log.
- The lead form's validation and submit gate.
- The favourites toggle.
- The navbar's active-path test.

Layout: one module per source file, plus four helper modules.

| module | models |
|---|---|
| `Wrappers`, `Lists` | `Option`/`Result`, and a bounded `Take` (JavaScript's `slice(0, n)`) |
| `Text` | the string built-ins the source calls: `trim`, `toLowerCase`, `toUpperCase`, `includes`, `startsWith`, `parseInt` over digit runs, number-to-text |
| `RegexScan` | the `/g` regular expressions of the parser as explicit left-to-right matchers |
| `Keywords` | the keyword tables and `findKeywordMatches` |
| `Extraction` | price and year extraction |
| `QueryParser` | `parseNaturalLanguageQuery`, `determineSearchIntent`, `generateSearchSuggestions` |
| `Levenshtein`, `SearchDropdown` | `SearchDropdown.jsx` |
| `VehicleData` | `useVehicleData.js` |
| `AffiliateLink` | `useAffiliateLink.js` over the tables of `src/data/affiliates.js` |
| `LeadForm` | `LeadForm.jsx` |
| `Favorites` | `toggleFavorite` of `VehicleSearch.jsx` |
| `Navbar` | `isActivePath` of `Navbar.jsx` |

How the model is shaped:
- Code that loops over state becomes a method with invariants. Each such method is proved equal to a function that specifies it: `while (regex.exec(...))` scans, the keyword loops, the Levenshtein matrix (an `array2`), the filter chain and an in-place insertion sort over an `array`.
- React components and hooks with state (`useState` fields and `localStorage`) become classes. Their fields are reassigned by methods with `modifies` clauses.
- `localStorage` is a `map` field from key to stored value.
- The parser is an ordered chain of stage functions over an accumulator of parameters, score and notes. Each stage's effect is stated in its contract.
- The whole chain is proved equal to an independent reference definition: `Expected` gives the parameters and `Score` gives the confidence.

Behaviour of the code that the model keeps, although a reader of the parser might not expect it:
- **A bare year is a price candidate.** The comma-grouped price pattern `\$?(\d{1,3}),?(\d{3})` reads "2024" as "2" followed by "024". That is 2024, which is above the 1000 floor (`naturalLanguageSearch.js:67-92`, `Extraction.BareYearIsPrice`).
- **"$30k" gives the range 30000–30000.** Both the `k` pattern and the bare pattern match "$30k". The range test is `prices.length >= 2` and does not ask for distinct values (`naturalLanguageSearch.js:95-107`, `Extraction.DollarKIsRange`).
- **The budget/luxury stage throws.** Lines 255-256 pass plain arrays to `findKeywordMatches`, so every query that passes the early return throws, and so does the suggestion generator that calls the parser. See Findings.
- **Every non-luxury vehicle is typed "electric".** The electric test at `useAffiliateLink.js:154` compares each listed model with itself. See Findings.

## Model

| member | source | states |
|---|---|---|
| Lists.Take | src/components/SearchDropdown.jsx:96 | `slice(0, n)`: the result is a prefix of the input, of length min(n, length); the whole input when it is short enough |
| Text.Trim | src/utils/naturalLanguageSearch.js:156 | `trim()`: the result is no longer than the input and neither starts nor ends with white space |
| Text.TrimStart | src/utils/naturalLanguageSearch.js:156 | the result is a suffix of the input; everything removed is white space; it does not start with white space |
| Text.TrimEnd | src/utils/naturalLanguageSearch.js:156 | the result is a prefix of the input; everything removed is white space; it does not end with white space |
| Text.LowerChar | src/utils/naturalLanguageSearch.js:165 | `toLowerCase` on one character: a capital becomes the lower-case letter 32 code points up; every other character is unchanged |
| Text.UpperChar | src/components/SearchDropdown.jsx:117 | `toUpperCase` on one character: a lower-case letter becomes the capital 32 code points down; every other character is unchanged |
| Text.CaseRoundTrip | src/components/SearchDropdown.jsx:117 | upper-casing undoes lower-casing on capitals and the reverse on small letters; a lowered character is never a capital, and lowering twice is lowering once |
| Text.Lower | src/utils/naturalLanguageSearch.js:165 | `toLowerCase()`: same length, each character lowered position by position |
| Text.MissingCharExcludes | src/utils/naturalLanguageSearch.js:96 | `includes(t)` is false when some character of `t` does not occur in the text at all |
| Text.Includes | src/utils/naturalLanguageSearch.js:96 | `includes(t)`: the empty text is included in every string, and an included text is no longer than the string |
| Text.StartsWith | src/components/Navbar.jsx:35 | `startsWith(t)`: a string that starts with `t` includes `t` |
| Text.DigitsValue | src/utils/naturalLanguageSearch.js:80 | `parseInt` of a digit run, read left to right; its properties are stated by `Text.NatToStringRoundTrip`, `Text.DigitsValueBelow` and `Text.DigitsValueRoundTrip` |
| Text.DigitValue | src/utils/naturalLanguageSearch.js:80 | `parseInt` of one digit gives a value below 10 |
| Text.DigitChar | src/utils/naturalLanguageSearch.js:183 | printing one digit gives a digit character |
| Text.NatToString | src/utils/naturalLanguageSearch.js:183 | a number's decimal text is non-empty, all digits, and has no leading zero unless the number is 0 |
| Text.NatToStringRoundTrip | src/utils/naturalLanguageSearch.js:183 | `parseInt` of the printed decimal text of n is n |
| Text.DigitsValueBelow | src/utils/naturalLanguageSearch.js:80 | a k-digit run has a value below 10^k; with a leading zero, below 10^(k-1); without one, at least 1 |
| Text.DigitsValueRoundTrip | src/utils/naturalLanguageSearch.js:80 | printing `parseInt` of a digit run without a leading zero gives back the run |
| RegexScan.DigitRun | src/utils/naturalLanguageSearch.js:69 | the greedy `\d+` run from a position is all digits, stays in the text and stops at a non-digit or the end |
| RegexScan.DigitRunCovers | src/utils/naturalLanguageSearch.js:69 | the greedy run is at least as long as any digit stretch starting at the same position |
| RegexScan.BodyAt | src/utils/naturalLanguageSearch.js:67-70 | a match body of a price pattern is non-empty, has digit groups only, and has a 3-digit second group exactly for the comma-grouped pattern |
| RegexScan.MatchAt | src/utils/naturalLanguageSearch.js:67-71 | an anchored match (with the optional `$`) has digit groups; for the year pattern of line 114 it spans exactly four digits |
| RegexScan.NextMatch | src/utils/naturalLanguageSearch.js:76 | `exec` from `lastIndex` returns a match lying at or after `lastIndex` |
| RegexScan.NextMatchIsMatchAt | src/utils/naturalLanguageSearch.js:76 | the match `exec` returns is the anchored match at its start |
| RegexScan.NextMatchLeftmost | src/utils/naturalLanguageSearch.js:76 | `exec` returns the leftmost match: no anchored match starts between `lastIndex` and it; when it finds none, none exists |
| RegexScan.ScanFromAt | src/utils/naturalLanguageSearch.js:74-92 | each match of the `while (exec)` loop is an anchored match inside the text, and matches do not overlap |
| RegexScan.ScanFrom | src/utils/naturalLanguageSearch.js:74-92 | every match a `/g` exec loop visits from `lastIndex`; `RegexScan.ScanFromAt` and `RegexScan.ScanFromSound` state that each is a real match and that the next one starts at the leftmost match past the previous |
| RegexScan.ScanFromSound | src/utils/naturalLanguageSearch.js:74-92 | all matches of the global scan are anchored matches, in order and non-overlapping |
| RegexScan.ScanStep | src/utils/naturalLanguageSearch.js:76 | one `exec` step: the scan is the next match followed by the scan from that match's end |
| RegexScan.BodyAtSound | src/utils/naturalLanguageSearch.js:67-70 | every body the matcher returns is a word of the pattern's language (digits, optional comma, `k`) |
| RegexScan.MatchAtSound | src/utils/naturalLanguageSearch.js:67-71 | every anchored match is a word of the regular expression, including the year pattern of line 114 |
| RegexScan.CommaBodyComplete | src/utils/naturalLanguageSearch.js:68 | whenever `\d{1,3},?\d{3}` matches at a position, the matcher finds a match there |
| RegexScan.KSuffixBodyComplete | src/utils/naturalLanguageSearch.js:69 | whenever `\d+k` matches at a position, the matcher finds a match there |
| RegexScan.BodyAtComplete | src/utils/naturalLanguageSearch.js:67-70 | the body matcher misses no match of any price pattern |
| RegexScan.MatchAtComplete | src/utils/naturalLanguageSearch.js:67-71 | the anchored matcher misses no match of any pattern, the year pattern included |
| Extraction.KeptPrices | src/utils/naturalLanguageSearch.js:77-91 | every price kept from a list of matches is above 1000 |
| Extraction.PatternPrices | src/utils/naturalLanguageSearch.js:74-92 | every price one regular expression contributes is above 1000 |
| Extraction.CandidatePrices | src/utils/naturalLanguageSearch.js:66-92 | every candidate price of the three expressions is above 1000 |
| Extraction.SeqMax | src/utils/naturalLanguageSearch.js:97 | `Math.max(...prices)` is a member of the list and no member exceeds it |
| Extraction.SeqMin | src/utils/naturalLanguageSearch.js:101 | `Math.min(...prices)` is a member of the list and no member is below it |
| Extraction.ClassifyPrices | src/utils/naturalLanguageSearch.js:95-107 | no bound iff no candidate; "under/below/max" gives only an upper bound, the largest candidate; otherwise "over/above/min" gives only a lower bound, the largest candidate; two or more candidates without such words give smallest..largest; one gives an upper bound; bounds are candidates |
| Extraction.CollectPrices | src/utils/naturalLanguageSearch.js:74-92 | the `while (exec)` loop over one expression collects exactly the kept prices of its global scan |
| Extraction.KeptPricesAppend | src/utils/naturalLanguageSearch.js:88-90 | one more match adds its price exactly when the price is above 1000 |
| Extraction.ScanAdvance | src/utils/naturalLanguageSearch.js:76 | the matches visited so far plus the scan still to come make up the whole scan, after each `exec` |
| Extraction.ScanDone | src/utils/naturalLanguageSearch.js:76 | when `exec` returns null, the visited matches are the whole scan |
| Extraction.ExtractPriceInfo | src/utils/naturalLanguageSearch.js:61-110 | `extractPriceInfo` returns the classification of the candidate prices of the lower-cased query |
| Extraction.KMultiplier | src/utils/naturalLanguageSearch.js:78-86 | a comma-grouped match is worth its two groups read together; every other match is worth its digits, times 1000 whenever the query contains a `k` anywhere |
| Extraction.BareYearIsPrice | src/utils/naturalLanguageSearch.js:67-92 | the comma-grouped expression alone turns the year "2024" into the price 2024 |
| Extraction.DollarKTwoCandidates | src/utils/naturalLanguageSearch.js:67-92 | "$30k" yields the candidate 30000 twice: once from `\d+k`, once from `\d+` |
| Extraction.DollarKIsRange | src/utils/naturalLanguageSearch.js:95-107 | "$30k" alone is classified as the range 30000–30000, not as a ceiling |
| Extraction.KInsideWord | src/utils/naturalLanguageSearch.js:81-83 | the `k` of "truck" multiplies the bare number: "truck 30" yields the candidate 30000 |
| Extraction.KInsideWordCapsPrice | src/utils/naturalLanguageSearch.js:95-107 | "truck 30" gets the price ceiling 30000 |
| Extraction.KeptYears | src/utils/naturalLanguageSearch.js:118-123 | every kept year lies within 1990..current year + 1 |
| Extraction.CandidateYears | src/utils/naturalLanguageSearch.js:114-123 | every year found lies within 1990..current year + 1 |
| Extraction.ClassifyYears | src/utils/naturalLanguageSearch.js:125-135 | null iff no year; "newer/after" gives the largest as minimum; otherwise "older/before" gives the smallest as maximum; otherwise the first year as exact |
| Extraction.CollectYears | src/utils/naturalLanguageSearch.js:114-123 | the `exec` loop collects exactly the in-range years of the global scan |
| Extraction.KeptYearsAppend | src/utils/naturalLanguageSearch.js:119-122 | one more match adds its year exactly when it lies within 1990..current year + 1 |
| Extraction.ExtractYearInfo | src/utils/naturalLanguageSearch.js:113-136 | `extractYearInfo` returns the classification of the candidate years |
| Keywords.BrandMake | src/utils/naturalLanguageSearch.js:217-223 | the brand map sends "gm" to "Chevrolet" and "mercedes" to "Mercedes-Benz" |
| Keywords.Pushes | src/utils/naturalLanguageSearch.js:144-148 | one table entry pushes only its own key, and pushes something iff one of its synonyms occurs in the query |
| Keywords.RawMatches | src/utils/naturalLanguageSearch.js:143-149 | everything pushed is a key of the table |
| Keywords.Dedupe | src/utils/naturalLanguageSearch.js:151 | `[...new Set(matches)]` keeps exactly the same members |
| Keywords.FindKeywordMatches | src/utils/naturalLanguageSearch.js:139-152 | the loop returns the de-duplicated pushes over the lower-cased query |
| Keywords.PushMatches | src/utils/naturalLanguageSearch.js:144-148 | the inner `forEach` pushes exactly what `Pushes` specifies |
| Keywords.DistinctInOrder | src/utils/naturalLanguageSearch.js:151 | the `Set` loop returns the de-duplicated list, first occurrences in order |
| Keywords.DedupeIsDistinct | src/utils/naturalLanguageSearch.js:151 | the de-duplicated list has no repeated element |
| Keywords.DedupeAppendBlock | src/utils/naturalLanguageSearch.js:143-151 | de-duplicating after a block of copies of one key adds that key once, and only if it is new |
| Keywords.FindMatchesIsKeyMatches | src/utils/naturalLanguageSearch.js:139-152 | with distinct table keys, the result is the keys whose synonyms occur, in table order |
| Keywords.LastKeyIsNew | src/utils/naturalLanguageSearch.js:143-149 | with distinct keys, earlier entries never push the last entry's key |
| Keywords.KeyMatchesMembership | src/utils/naturalLanguageSearch.js:139-152 | a key is returned iff some entry with that key has a synonym occurring in the query |
| Keywords.KeyMatches | src/utils/naturalLanguageSearch.js:139-152 | reference definition of `findKeywordMatches`: the keys, in table order, with a synonym in the query; `Keywords.FindMatchesIsKeyMatches` ties the loop to it and `Keywords.KeyMatchesMembership` states membership |
| Keywords.FirstKeyMatch | src/utils/naturalLanguageSearch.js:198-226 | the first key returned (the one stages 3–5 use) belongs to the first entry with a hit; no earlier entry has one |
| Keywords.KeyMatchesEmpty | src/utils/naturalLanguageSearch.js:139-152 | nothing is returned iff no entry has a synonym in the query |
| Keywords.TablesHaveDistinctKeys | src/utils/naturalLanguageSearch.js:5-59 | the vehicle-type, fuel, quality and brand tables have pairwise distinct keys |
| Keywords.RankedKeysAreDistinct | src/utils/naturalLanguageSearch.js:5-59 | a table whose keys each map to their own position has distinct keys |
| QueryParser.PriceStage | src/utils/naturalLanguageSearch.js:171-177 | no bound leaves the state unchanged; otherwise the bounds found are set, 30 is added and a price note is appended; consistency is kept |
| QueryParser.YearStage | src/utils/naturalLanguageSearch.js:180-195 | exact year sets `year` (as text), +20, and appends a "year is" note; a minimum sets `yearMin`, +15, with a "or newer" note; a maximum sets `yearMax`, +15, with a "or older" note; none changes nothing |
| QueryParser.BodyStage | src/utils/naturalLanguageSearch.js:198-203 | the first matched body style is set, +25, and a vehicle-type note naming it is appended; no match changes nothing |
| QueryParser.FuelStage | src/utils/naturalLanguageSearch.js:206-211 | the first matched fuel type is set, +20, and a fuel-type note naming it is appended; no match changes nothing |
| QueryParser.BrandStage | src/utils/naturalLanguageSearch.js:214-226 | the first matched brand group, mapped through the brand map, is set as `make`, +35, and a brand note naming that make is appended; no match changes nothing |
| QueryParser.QualityStage | src/utils/naturalLanguageSearch.js:229-252 | "family" fills an unset body style with suv, "efficient" an unset fuel with hybrid, "reliable" an unset make with Toyota; nothing else changes; the score rises by 15/15/10 per quality present, whether or not it filled anything; a note is appended only for a field it filled, in that order |
| QueryParser.BudgetStage | src/utils/naturalLanguageSearch.js:258-268 | budget words fill an unset ceiling with 25000, luxury words an unset floor with 40000, +10 and a note each time a bound is filled; nothing else changes |
| QueryParser.ModelNotes | src/utils/naturalLanguageSearch.js:281 | one model note per model hit, in order |
| QueryParser.ModelHitsMembers | src/utils/naturalLanguageSearch.js:271-283 | a model is hit iff it is in the common-model list and occurs in the query |
| QueryParser.ModelStageEffect | src/utils/naturalLanguageSearch.js:277-283 | the model scan sets `model` to the last hit, adds 40 per hit and appends one note per hit |
| QueryParser.ModelStageKeeps | src/utils/naturalLanguageSearch.js:277-283 | the model scan keeps the accumulator consistent |
| QueryParser.ModelStage | src/utils/naturalLanguageSearch.js:277-283 | the `forEach` over the model list; its effect (last present model kept, +40 and a note per present model) is stated by `QueryParser.ModelStageEffect` |
| QueryParser.Clamp | src/utils/naturalLanguageSearch.js:288 | `Math.min(confidence, 100)`: at most 100, equal to the score when the score is at most 100 |
| QueryParser.Parse | src/utils/naturalLanguageSearch.js:155-292 | the original query is echoed; the intent is absent iff the trimmed query is shorter than 3; then nothing is found, confidence is 0, no suggestions; confidence never exceeds 100 |
| QueryParser.EarlyResult | src/utils/naturalLanguageSearch.js:156-163 | the object returned for a query of fewer than 3 trimmed characters: no parameters, confidence 0, no notes and no intent (`QueryParser.Parse`) |
| QueryParser.Stages | src/utils/naturalLanguageSearch.js:171-283 | every stage after the early return, in source order (`QueryParser.StagesEffect`) |
| QueryParser.FindingsOf | src/utils/naturalLanguageSearch.js:165-256 | what the price and year scans and the keyword matcher find in a query; the budget/luxury findings are "a term occurs" (`QueryParser.ParseFields`) |
| QueryParser.ParseAsWritten | src/utils/naturalLanguageSearch.js:155-292 | the parser as written, with lines 255-256 throwing; `QueryParser.ParseAsWrittenThrows` states when it fails and that otherwise it agrees with `QueryParser.Parse` |
| QueryParser.FindKeywordMatchesOnArray | src/utils/naturalLanguageSearch.js:139-152 | called with an array, `findKeywordMatches` throws iff the array is non-empty (each entry's value is a string, whose `forEach` is undefined) |
| QueryParser.NormalizedIsLower | src/utils/naturalLanguageSearch.js:165 | the trimmed, lower-cased query is unchanged by the second `toLowerCase` in `findKeywordMatches` |
| QueryParser.TermTableMatches | src/utils/naturalLanguageSearch.js:255-256 | the corrected budget/luxury test: a one-entry table matches iff one of its terms occurs |
| QueryParser.MatchKeys | src/utils/naturalLanguageSearch.js:198-229 | the keyword loop on the lower-cased query returns the matched keys in table order |
| QueryParser.Gather | src/utils/naturalLanguageSearch.js:165-256 | the extraction calls together produce exactly the findings the stages consume |
| QueryParser.ApplyPriceAndYear | src/utils/naturalLanguageSearch.js:171-195 | the imperative price and year blocks equal the price then year stage from the empty state |
| QueryParser.ApplyPicks | src/utils/naturalLanguageSearch.js:198-226 | the body, fuel and brand blocks equal the three stages in that order |
| QueryParser.ApplyQualities | src/utils/naturalLanguageSearch.js:229-252 | the quality block equals the quality stage |
| QueryParser.ApplyBudget | src/utils/naturalLanguageSearch.js:258-268 | the budget/luxury block equals the budget stage |
| QueryParser.ApplyModels | src/utils/naturalLanguageSearch.js:271-283 | the model loop equals the model stage |
| QueryParser.ParseNaturalLanguageQuery | src/utils/naturalLanguageSearch.js:155-292 | the imperative parser returns exactly `Parse` (with the budget/luxury test corrected) |
| QueryParser.DetermineSearchIntent | src/utils/naturalLanguageSearch.js:295-309 | each intent holds iff its rule is the first that fires: compare/vs, then best/top/recommend, then deal/sale/discount, then any parameter, else general |
| QueryParser.PriceYearEffect | src/utils/naturalLanguageSearch.js:171-195 | after the price and year stages the parameters are exactly the bounds and year found, the score is 30 and 15/20 by what was found, and the state is consistent |
| QueryParser.PicksEffect | src/utils/naturalLanguageSearch.js:198-226 | the three pick stages overwrite body style, fuel and make with the first hits, adding 25/20/35 per category with a hit |
| QueryParser.DefaultsEffect | src/utils/naturalLanguageSearch.js:229-268 | the quality and budget stages fill only unset fields, with suv/hybrid/Toyota/25000/40000, and add the stated weights |
| QueryParser.KeywordStagesParams | src/utils/naturalLanguageSearch.js:171-268 | the stages before the model scan produce the reference parameters `Expected` with no model hit |
| QueryParser.KeywordStagesPicks | src/utils/naturalLanguageSearch.js:198-252 | make, body style and fuel after those stages agree with the reference |
| QueryParser.KeywordStagesPrices | src/utils/naturalLanguageSearch.js:171-268 | the price bounds after those stages agree with the reference |
| QueryParser.KeywordStagesYears | src/utils/naturalLanguageSearch.js:180-195 | the year fields after those stages agree with the reference, and no model is set |
| QueryParser.KeywordStagesScore | src/utils/naturalLanguageSearch.js:171-268 | the score after those stages is the reference score, and the state is consistent |
| QueryParser.StagesEffect | src/utils/naturalLanguageSearch.js:171-283 | the full stage chain yields the reference parameters and score for the model hits, and stays consistent |
| QueryParser.ParseFields | src/utils/naturalLanguageSearch.js:165-292 | for queries of 3+ trimmed characters the parameters are the reference ones, confidence is the clamped reference score and the explanation list is the reference note list; the budget/luxury flags are exactly "a term occurs" |
| QueryParser.NothingFoundIffZeroConfidence | src/utils/naturalLanguageSearch.js:155-292 | no parameters iff confidence 0 iff no explanation notes; a general-search intent has confidence 0 |
| QueryParser.YearFields | src/utils/naturalLanguageSearch.js:180-195 | some year field is set iff a year was found; exact is the first year; a minimum is the largest and excludes a maximum; a maximum is the smallest |
| QueryParser.Score | src/utils/naturalLanguageSearch.js:171-288 | reference definition of the unclamped confidence, summed from the findings alone (`QueryParser.StagesEffect` proves the stages compute it) |
| QueryParser.Expected | src/utils/naturalLanguageSearch.js:171-283 | reference definition of the parameters, field by field and without the stage order (`QueryParser.StagesEffect`) |
| QueryParser.KeywordNotes | src/utils/naturalLanguageSearch.js:171-268 | reference definition of the explanation lines of the keyword stages: one per rule that fired, a quality default only when no keyword filled its field, a budget cap or luxury floor only where the price rule set no bound |
| QueryParser.ExpectedNotes | src/utils/naturalLanguageSearch.js:171-283 | reference definition of all explanation lines: the keyword lines, then one per present model |
| QueryParser.KeywordStagesNotes | src/utils/naturalLanguageSearch.js:171-268 | the stages before the model scan append exactly the reference keyword lines |
| QueryParser.DefaultsNotes | src/utils/naturalLanguageSearch.js:229-268 | the quality and budget stages explain exactly the defaults and bounds they filled, in source order |
| QueryParser.ParseAsWrittenThrows | src/utils/naturalLanguageSearch.js:255-256 | the parser as written throws iff the trimmed query has 3+ characters; when it returns, it returns the corrected result |
| QueryParser.GenerateSearchSuggestions | src/utils/naturalLanguageSearch.js:312-349 | fewer than 2 characters give the 7 canned queries; with no trigger word, the 3 templates; with triggers, exactly the completions of the completion table whose trigger word occurs, in table order (2, 4 or 6 of them); never empty |
| QueryParser.Templates | src/utils/naturalLanguageSearch.js:344-348 | the three templates built from the partial query |
| QueryParser.CompletionsFor | src/utils/naturalLanguageSearch.js:329-342 | table-driven reference for the completions: those whose trigger word occurs, in table order (`QueryParser.CompletionsForMembers`) |
| QueryParser.TriggerCompletions | src/utils/naturalLanguageSearch.js:329-342 | the three `if` blocks; `QueryParser.TriggerCompletionsFollowTable` proves they offer exactly the completion table's entries whose trigger occurs |
| QueryParser.CompletionsForMembers | src/utils/naturalLanguageSearch.js:329-342 | a completion is offered exactly when some table entry with that text has its trigger word in the input |
| QueryParser.TriggerCompletionsFollowTable | src/utils/naturalLanguageSearch.js:329-342 | the three `if` blocks equal the table-driven reference, in table order |
| QueryParser.GenerateSearchSuggestionsAsWritten | src/utils/naturalLanguageSearch.js:312-349 | the generator as written, failing when its parser call throws (`QueryParser.SuggestionsAsWrittenThrows`) |
| QueryParser.TrimKeeps | src/utils/naturalLanguageSearch.js:156 | trimming keeps every character between two non-space characters |
| QueryParser.WordDefeatsEarlyReturn | src/utils/naturalLanguageSearch.js:156 | a query containing a 3+ letter word without outer spaces passes the length guard |
| QueryParser.SuggestionsAsWrittenThrows | src/utils/naturalLanguageSearch.js:324-325 | as written, suggestion generation throws iff the trimmed input has 3+ characters |
| QueryParser.SuggestionsAsWrittenNeverComplete | src/utils/naturalLanguageSearch.js:312-349 | as written, it only ever returns the canned list or the templates, never a completion |
| QueryParser.ShortInputHasNoTrigger | src/utils/naturalLanguageSearch.js:329-342 | input trimmed below 3 characters contains no trigger word, so gives no completions |
| QueryParser.TriggerDefeatsEarlyReturn | src/utils/naturalLanguageSearch.js:156 | an input containing a trigger word always passes the parser's length guard |
| QueryParser.NoTriggerNoCompletions | src/utils/naturalLanguageSearch.js:329-342 | without a trigger word no completion is pushed |
| QueryParser.CorrectedSuggestionsComplete | src/utils/naturalLanguageSearch.js:329-348 | with a trigger word the corrected generator returns the completions, while the as-written one throws |
| Levenshtein.Min3 | src/components/SearchDropdown.jsx:141-145 | `Math.min` of three costs is one of them and no larger than any |
| Levenshtein.Cell | src/components/SearchDropdown.jsx:130-148 | reference definition of one matrix entry by the recurrence; bounds and symmetry are stated by `Levenshtein.CellBounds` and `Levenshtein.CellSymmetric` |
| Levenshtein.Distance | src/components/SearchDropdown.jsx:128-150 | the bottom-right entry; `Levenshtein.LevenshteinDistance` computes it, and the Distance* lemmas state its properties |
| Levenshtein.LevenshteinDistance | src/components/SearchDropdown.jsx:128-150 | the matrix computation returns the edit distance `Distance` |
| Levenshtein.FillRow | src/components/SearchDropdown.jsx:136-148 | filling row i makes every cell of rows 0..i equal to the recurrence |
| Levenshtein.DistanceToEmpty | src/components/SearchDropdown.jsx:130-135 | the distance between a string and the empty string is its length |
| Levenshtein.CellDiagonalZero | src/components/SearchDropdown.jsx:138-139 | diagonal cells for a string against itself are 0 |
| Levenshtein.DistanceToSelf | src/components/SearchDropdown.jsx:128-150 | a string is at distance 0 from itself |
| Levenshtein.CellSymmetric | src/components/SearchDropdown.jsx:136-148 | swapping the two strings transposes the matrix |
| Levenshtein.DistanceSymmetric | src/components/SearchDropdown.jsx:128-150 | the distance is symmetric |
| Levenshtein.CellBounds | src/components/SearchDropdown.jsx:136-148 | each cell lies between the difference and the maximum of its prefix lengths |
| Levenshtein.DistanceBounds | src/components/SearchDropdown.jsx:128-150 | the distance lies between the length difference and the longer length |
| SearchDropdown.MakeSuggestions | src/components/SearchDropdown.jsx:61-69 | make suggestions are all of kind make, at most one per make |
| SearchDropdown.ModelsOf | src/components/SearchDropdown.jsx:73-81 | one make's model suggestions are all of kind model |
| SearchDropdown.ModelSuggestions | src/components/SearchDropdown.jsx:72-82 | all model suggestions are of kind model |
| SearchDropdown.YearSuggestion | src/components/SearchDropdown.jsx:85-94 | at most one suggestion, of kind year |
| SearchDropdown.Autocomplete | src/components/SearchDropdown.jsx:50-96 | a missing or 1-character term gives nothing; never more than 6 suggestions |
| SearchDropdown.CollectMakeSuggestions | src/components/SearchDropdown.jsx:61-69 | the `forEach` loop yields exactly the make suggestions |
| SearchDropdown.CollectModelsOf | src/components/SearchDropdown.jsx:73-81 | the inner loop yields exactly one make's model suggestions |
| SearchDropdown.CollectModelSuggestions | src/components/SearchDropdown.jsx:72-82 | the nested loops yield exactly the model suggestions |
| SearchDropdown.AutocompleteFor | src/components/SearchDropdown.jsx:57-96 | makes, then models, then the year, cut to 6 |
| SearchDropdown.AllSuggestions | src/components/SearchDropdown.jsx:57-94 | every row the effect pushes, makes then models then the year, before the cap of 6 (`SearchDropdown.AutocompleteOrder`) |
| SearchDropdown.Capitalize | src/components/SearchDropdown.jsx:117 | same length; first character upper-cased, the rest unchanged |
| SearchDropdown.SpellingHits | src/components/SearchDropdown.jsx:111-122 | hits are spelling suggestions; a term of 2 or fewer characters gets none |
| SearchDropdown.SpellingSuggestions | src/components/SearchDropdown.jsx:104-125 | at most 3 spelling suggestions |
| SearchDropdown.Offered | src/components/SearchDropdown.jsx:113-115 | a common term is offered within distance 2 of the lowered term, for terms longer than 2, unless it equals the lowered term (`SearchDropdown.SpellingHitsMembership`) |
| SearchDropdown.GenerateSpellingSuggestions | src/components/SearchDropdown.jsx:104-125 | the method returns exactly the specified suggestions |
| SearchDropdown.CollectSpellingHits | src/components/SearchDropdown.jsx:111-122 | the `forEach` loop yields exactly the specified hits |
| SearchDropdown.Without | src/components/SearchDropdown.jsx:154-156 | the filter never lengthens the history |
| SearchDropdown.NewHistory | src/components/SearchDropdown.jsx:157 | the new history has 1 to 10 entries |
| SearchDropdown.CommonTermsStartWithMakes | src/components/SearchDropdown.jsx:105-109 | the common terms begin with the lower-cased makes, position by position |
| SearchDropdown.MakeSuggestionsMembership | src/components/SearchDropdown.jsx:61-69 | a make is suggested iff it is a known make whose lower-cased name contains the term |
| SearchDropdown.ModelsOfMembership | src/components/SearchDropdown.jsx:73-81 | "make model" is suggested iff the model or the make contains the term |
| SearchDropdown.ModelSuggestionsMembership | src/components/SearchDropdown.jsx:72-82 | a model suggestion appears iff some make and model of the table produce it and one of them contains the term |
| SearchDropdown.AutocompleteOrder | src/components/SearchDropdown.jsx:57-96 | makes come before models before the year, and the result is the first min(6, all) suggestions |
| SearchDropdown.YearSuggestionEchoesTerm | src/components/SearchDropdown.jsx:85-94 | a year is suggested iff the term is 4 digits starting 19/20 and within 1990..2024; the suggestion is the term itself |
| SearchDropdown.SpellingHitsMembership | src/components/SearchDropdown.jsx:111-122 | a spelling hit appears iff it is a capitalised common term within distance 2, different from the term, with the term longer than 2 |
| SearchDropdown.WithoutMembership | src/components/SearchDropdown.jsx:154-156 | the filtered history holds exactly the old entries other than the clicked one |
| SearchDropdown.WithoutKeepsOrder | src/components/SearchDropdown.jsx:154-156 | the filtered history is an order-preserving sub-list of the old one |
| SearchDropdown.HistoryUpdate | src/components/SearchDropdown.jsx:152-163 | the clicked suggestion comes first and only once; the rest is an ordered sub-list of the old history; with fewer than 10 old entries nothing else is lost |
| SearchDropdown.Dropdown.constructor | src/components/SearchDropdown.jsx:36-47 | recent searches are the first 5 stored entries (or none), popular searches the fixed list, no suggestions yet |
| SearchDropdown.Dropdown.OnSearchTerm | src/components/SearchDropdown.jsx:50-101 | the effect sets the autocomplete and spelling suggestions for the term and changes nothing else |
| SearchDropdown.Dropdown.HandleSuggestionClick | src/components/SearchDropdown.jsx:152-163 | the stored history becomes the new history, the shown recent searches its first 5; nothing else changes |
| VehicleData.KeepWhere | src/hooks/useVehicleData.js:72-111 | `filter` never lengthens the list |
| VehicleData.MatchesQuery | src/hooks/useVehicleData.js:72-80 | the query test: the lower-cased query occurs in the make, the model, the trim or "year make model" |
| VehicleData.Selected | src/hooks/useVehicleData.js:68-111 | the vehicles passing the first k filter steps, in input order (`VehicleData.SelectedMembership`, `VehicleData.SelectedAll`) |
| VehicleData.SelectedStep | src/hooks/useVehicleData.js:72-111 | applying filter k+1 to the result of the first k is the result of the first k+1 |
| VehicleData.KeepWhereAppend | src/hooks/useVehicleData.js:72-111 | `filter` distributes over concatenation |
| VehicleData.SelectedNone | src/hooks/useVehicleData.js:69 | with no filter applied the list is unchanged |
| VehicleData.SelectedMembership | src/hooks/useVehicleData.js:68-111 | a vehicle survives the chain iff it was in the list and passes every active filter |
| VehicleData.SelectedAll | src/hooks/useVehicleData.js:68-111 | when every vehicle passes, the chain returns the list unchanged |
| VehicleData.DefaultsKeepEverything | src/hooks/useVehicleData.js:12-20 | with the default filters and a blank query every vehicle is kept, in order |
| VehicleData.QueryFilterRule | src/hooks/useVehicleData.js:72-80 | with a non-blank query every kept vehicle matches it: the lower-cased query occurs in the make, the model, the trim or the "year make model" text |
| VehicleData.AdmittedBounds | src/hooks/useVehicleData.js:83-111 | a kept vehicle meets each active filter: make (case-insensitive), price range, mileage cap, year, fuel, transmission |
| VehicleData.FilterVehicles | src/hooks/useVehicleData.js:68-111 | the chain of `if (...) filtered = filtered.filter(...)` blocks returns exactly the specified selection |
| VehicleData.ApplyStep | src/hooks/useVehicleData.js:72-111 | each filter block extends the selection by one step |
| VehicleData.KeepInactive | src/hooks/useVehicleData.js:72-111 | a filter whose guard is off keeps the list unchanged |
| VehicleData.SortVehicles | src/hooks/useVehicleData.js:119-148 | the result is a permutation of the input; sorted by key for price/mileage/year orders; unchanged for an unknown order |
| VehicleData.OutOfOrder | src/hooks/useVehicleData.js:121-146 | the comparator is positive, for each sort key; best deals by exact cross-multiplied savings, then price |
| VehicleData.Rank | src/hooks/useVehicleData.js:121-132 | the key each keyed sort orders by, negated for the descending ones; `VehicleData.SortVehicles` states the result sorted by it |
| VehicleData.InsertionSort | src/hooks/useVehicleData.js:121-146 | sorting the copy in place permutes it, and sorts it by key for a keyed order |
| VehicleData.InsertOne | src/hooks/useVehicleData.js:121-146 | inserting element i into the sorted prefix keeps a permutation and a sorted prefix one longer |
| VehicleData.InsertingStart | src/hooks/useVehicleData.js:121-146 | the insertion invariant holds when element i starts at its own position |
| VehicleData.InsertingStep | src/hooks/useVehicleData.js:121-146 | swapping an out-of-order pair preserves the insertion invariant |
| VehicleData.InsertingDone | src/hooks/useVehicleData.js:121-146 | when no swap is due, the prefix up to i is sorted |
| VehicleData.Merge | src/hooks/useVehicleData.js:156-158 | `{...prev, ...newFilters}`: each field takes the patch's value when given, the old one otherwise |
| VehicleData.MergeIdempotent | src/hooks/useVehicleData.js:156-158 | applying the same patch twice equals applying it once |
| VehicleData.MatchingMakes | src/hooks/useVehicleData.js:185-187 | the matching makes are no more than the makes |
| VehicleData.MatchingNames | src/hooks/useVehicleData.js:190-195 | the "make model" names of vehicles whose make or model contains the query (`VehicleData.MatchingNamesMembership`) |
| VehicleData.SuggestedSearches | src/hooks/useVehicleData.js:178-201 | at most 8 suggestions (the order and the contents are stated by the three lemmas below) |
| VehicleData.MatchingNamesMembership | src/hooks/useVehicleData.js:190-196 | a "make model" text is listed iff some vehicle's make or model matches the query and yields it |
| VehicleData.MatchingMakesMembership | src/hooks/useVehicleData.js:185-187 | a make is listed iff it is known and contains the query case-insensitively |
| VehicleData.ShortQuerySuggestsPopular | src/hooks/useVehicleData.js:179-181 | a missing or 1-character query yields the first 8 popular searches |
| VehicleData.SuggestionsMakesFirst | src/hooks/useVehicleData.js:183-201 | matching makes come first, in order, then at most 5 distinct vehicle names |
| VehicleData.SuggestionsListNames | src/hooks/useVehicleData.js:183-201 | the list has length min(8, matching makes + min(5, distinct names)), and the first five distinct matching names follow the makes in order until the cap |
| VehicleData.MatchingVehicleSuggested | src/hooks/useVehicleData.js:183-201 | when at most five distinct names match and they fit with the makes under 8, every matching vehicle's name is suggested |
| VehicleData.SuggestionsMatchQuery | src/hooks/useVehicleData.js:183-201 | every suggestion is a matching make or the name of a matching vehicle |
| VehicleData.VehicleStore.constructor | src/hooks/useVehicleData.js:11-22 | the hook starts with the given vehicles, nothing filtered, an empty query, the default filters and price-asc order |
| VehicleData.VehicleStore.ApplyFilters | src/hooks/useVehicleData.js:68-117 | the filtered list is a permutation of the selection, sorted for keyed orders and equal to it for unknown ones; inputs unchanged |
| VehicleData.VehicleStore.SearchVehicles | src/hooks/useVehicleData.js:150-154 | only the query changes |
| VehicleData.VehicleStore.UpdateFilters | src/hooks/useVehicleData.js:156-158 | the filters become the merge with the patch; nothing else changes |
| VehicleData.VehicleStore.ClearFilters | src/hooks/useVehicleData.js:160-172 | filters, query and order return to their defaults; vehicles and results are kept |
| AffiliateLink.RegionalFor | src/hooks/useAffiliateLink.js:87 | `REGIONAL_PREFERENCES[state] \|\| DEFAULT`: the state's list when present, the default list otherwise |
| AffiliateLink.FirstShared | src/hooks/useAffiliateLink.js:79-83 | reference for the loop: the first type preference, in preference order, that the regional list also holds (`AffiliateLink.FirstSharedIsFirst`) |
| AffiliateLink.TypePreferences | src/hooks/useAffiliateLink.js:74-75 | the type's preference list, looked up by the lower-cased type, when the type is truthy and listed |
| AffiliateLink.FirstSharedIsFirst | src/hooks/useAffiliateLink.js:77-84 | the partner chosen is the first type preference that is also regionally preferred; none iff no preference is shared |
| AffiliateLink.GetBestAffiliate | src/hooks/useAffiliateLink.js:68-89 | the method returns the specified partner choice |
| AffiliateLink.BestAffiliate | src/hooks/useAffiliateLink.js:68-89 | `getBestAffiliate`: the default without a location; else the first of the vehicle type's preferred partners that the region lists; else the region's first partner (`AffiliateLink.BestAffiliateChoice`) |
| AffiliateLink.NoLocationGivesDefault | src/hooks/useAffiliateLink.js:69-71 | without a location the default partner is chosen |
| AffiliateLink.BestAffiliateChoice | src/hooks/useAffiliateLink.js:74-88 | with a location: the first shared type preference if one exists, otherwise the first regional partner, or the default when that is empty |
| AffiliateLink.ChoiceIsConfigured | src/data/affiliates.js:2-60 | with the shipped tables the chosen partner is always a configured partner |
| AffiliateLink.RegionalListsConfigured | src/data/affiliates.js:34-41 | every regional list is non-empty and names configured partners only |
| AffiliateLink.ShadowedElectricTestHolds | src/hooks/useAffiliateLink.js:154 | the shadowed test `model.includes(model.toLowerCase())` holds for the first listed model |
| AffiliateLink.AsWrittenNonLuxuryIsElectric | src/hooks/useAffiliateLink.js:150-156 | as written, every non-luxury vehicle with make and model is "electric" |
| AffiliateLink.FordF150Counterexample | src/hooks/useAffiliateLink.js:154-160 | a Ford F-150 is "electric" as written and "truck" once the test reads the vehicle's model |
| AffiliateLink.VehicleTypeLuxury | src/hooks/useAffiliateLink.js:143-152 | both versions: no type iff make or model is missing; "luxury" iff the lower-cased make is a luxury brand |
| AffiliateLink.VehicleTypeHasPreferences | src/data/affiliates.js:44-50 | every detected type has a preference list |
| AffiliateLink.VehicleTypeTruck | src/hooks/useAffiliateLink.js:158-160 | a non-luxury, non-electric model naming a truck is a "truck" |
| AffiliateLink.VehicleTypeAsWritten | src/hooks/useAffiliateLink.js:140-165 | `determineVehicleType` as written (`AffiliateLink.AsWrittenNonLuxuryIsElectric`) |
| AffiliateLink.VehicleType | src/hooks/useAffiliateLink.js:140-165 | `determineVehicleType` with the electric test reading the vehicle's model (`AffiliateLink.VehicleTypeLuxury`, `AffiliateLink.VehicleTypeTruck`) |
| AffiliateLink.Split | src/hooks/useAffiliateLink.js:105 | `split` yields at least one piece |
| AffiliateLink.SplitJoin | src/hooks/useAffiliateLink.js:105-106 | joining the pieces with the separator gives back the string; no piece contains the separator |
| AffiliateLink.TrackingPairs | src/hooks/useAffiliateLink.js:105-108 | one key/value pair per `&`-separated piece |
| AffiliateLink.KeyValueRoundTrip | src/hooks/useAffiliateLink.js:106-107 | a piece with exactly one `=` is its key, `=`, its value, and neither part contains `=` |
| AffiliateLink.KeyValue | src/hooks/useAffiliateLink.js:106-107 | `param.split('=')` into key and value; a piece without '=' has value "undefined" |
| AffiliateLink.ParamMembership | src/hooks/useAffiliateLink.js:126-129 | a parameter is set iff its value is truthy, with that value |
| AffiliateLink.SearchParamsContents | src/hooks/useAffiliateLink.js:126-129 | the search parameters are exactly the truthy make, model, year and the location's zip |
| AffiliateLink.SearchParams | src/hooks/useAffiliateLink.js:124-129 | the appended search parameters in order, present only when truthy (`AffiliateLink.SearchParamsContents`) |
| AffiliateLink.BuildSearchParams | src/hooks/useAffiliateLink.js:124-129 | the method builds exactly those parameters |
| AffiliateLink.ChosenPartner | src/hooks/useAffiliateLink.js:93-95 | the partner configured for the chosen key (`AffiliateLink.ChoiceIsConfigured`) |
| AffiliateLink.GetAffiliateLink | src/hooks/useAffiliateLink.js:92-137 | no partner: the custom URL or "#"; a custom URL: it, tracked, or unchanged when unparseable; otherwise a link on the partner's base URL ending in its tracking parameters, with `/cars/?` and the search parameters when vehicle details exist |
| AffiliateLink.BaseUrlsHaveNoQuery | src/data/affiliates.js:2-31 | no configured base URL contains `?` |
| AffiliateLink.AppendBoundedKeepsNewest | src/hooks/useAffiliateLink.js:191-199 | the log gains the click at the end and keeps the most recent 100 entries |
| AffiliateLink.AppendBounded | src/hooks/useAffiliateLink.js:191-199 | the click log after `push` and the splice to the newest 100 |
| AffiliateLink.AffiliateTracker.constructor | src/hooks/useAffiliateLink.js:9-11 | the tracker holds the given location and storage |
| AffiliateLink.AffiliateTracker.TrackAffiliateClick | src/hooks/useAffiliateLink.js:170-203 | the stored click log becomes the bounded append of the new click |
| LeadForm.AllPlainIff | src/components/LeadForm.jsx:73 | `[^\s@]+` holds iff every character is neither space nor `@` |
| LeadForm.EmailPattern | src/components/LeadForm.jsx:73 | the e-mail regex test: an '@' and a later '.' cut the text into three non-empty runs without white space or '@' (`LeadForm.EmailPatternIff` gives the field-by-field reading) |
| LeadForm.EmailPatternHasShape | src/components/LeadForm.jsx:73 | every string the e-mail pattern accepts has the shape local@domain.tld with non-empty plain parts |
| LeadForm.EmailShapeMatchesPattern | src/components/LeadForm.jsx:73 | every string of that shape is accepted by the pattern |
| LeadForm.EmailPatternIff | src/components/LeadForm.jsx:73 | the e-mail pattern accepts exactly the strings of that shape |
| LeadForm.DigitsOnly | src/components/LeadForm.jsx:79 | `replace(/\D/g, '')` never lengthens the text |
| LeadForm.DigitsOnlyKeepsDigits | src/components/LeadForm.jsx:79 | the result is all digits, and holds exactly the digits of the input |
| LeadForm.PhonePattern | src/components/LeadForm.jsx:79 | the phone regex test: an optional '+', a digit 1-9, then at most 15 digits (`LeadForm.PhoneValidIff`) |
| LeadForm.PhoneValidIff | src/components/LeadForm.jsx:79 | after removing non-digits, the phone pattern accepts iff 1–16 digits remain and the first is not 0 |
| LeadForm.BlankIff | src/components/LeadForm.jsx:67 | a field is blank iff it is all white space |
| LeadForm.BlankTrimsAway | src/components/LeadForm.jsx:67 | a blank field trims to nothing |
| LeadForm.BlankIsEmptyTrim | src/components/LeadForm.jsx:67 | `!value.trim()` holds iff the field is blank |
| LeadForm.Blank | src/components/LeadForm.jsx:67 | `!value.trim()`: nothing but white space (`LeadForm.BlankIff`, `LeadForm.BlankIsEmptyTrim`) |
| LeadForm.ValidateForm | src/components/LeadForm.jsx:64-84 | no errors iff all fields pass; only name/email/phone errors; each present iff its field fails, with "required" for blank and "invalid" otherwise |
| LeadForm.Errors | src/components/LeadForm.jsx:64-84 | the errors `validateForm` collects, rule by rule, in source order |
| LeadForm.ErrorsByField | src/components/LeadForm.jsx:64-84 | the collected errors hold a key exactly for each failing field, with its message ("required" when blank, else "invalid"), no other key, and are empty exactly when every field passes |
| LeadForm.Form.constructor | src/components/LeadForm.jsx:13-26 | the form starts with the initial fields, no errors and not submitting |
| LeadForm.Form.HandleInputChange | src/components/LeadForm.jsx:48-62 | the field takes the new value; its error is cleared only if it was set; nothing else changes |
| LeadForm.Form.HandleSubmit | src/components/LeadForm.jsx:86-95 | submits iff all fields pass; a submit sets the submitting flag; otherwise the errors found are shown and the flag is kept |
| Favorites.RemoveAll | src/components/VehicleSearch.jsx:61 | the filter never lengthens the list |
| Favorites.Toggled | src/components/VehicleSearch.jsx:60-62 | the new favourites list (`Favorites.ToggleAbsent`, `Favorites.TogglePresent`, and the toggle-twice lemmas) |
| Favorites.RemoveAllAppend | src/components/VehicleSearch.jsx:61 | the filter distributes over concatenation |
| Favorites.RemoveAllCounts | src/components/VehicleSearch.jsx:61 | removing an id drops all its copies and keeps every other id's count |
| Favorites.RemoveAllAbsent | src/components/VehicleSearch.jsx:61 | removing an absent id changes nothing |
| Favorites.ToggleAbsent | src/components/VehicleSearch.jsx:60-62 | toggling an absent id appends it at the end |
| Favorites.TogglePresent | src/components/VehicleSearch.jsx:60-62 | toggling a present id removes every copy and keeps the rest |
| Favorites.ToggleTwiceAbsent | src/components/VehicleSearch.jsx:59-66 | toggling an absent id twice restores the list |
| Favorites.ToggleTwicePresent | src/components/VehicleSearch.jsx:59-66 | toggling a present id twice moves one copy of it to the end |
| Favorites.FavoritesList.constructor | src/components/VehicleSearch.jsx:42-45 | favourites are loaded from storage, or empty |
| Favorites.FavoritesList.ToggleFavorite | src/components/VehicleSearch.jsx:59-66 | the list becomes the toggled list and storage holds it |
| Navbar.RootIsExact | src/components/Navbar.jsx:34 | "/" is active only on exactly "/" |
| Navbar.OtherPathsArePrefixes | src/components/Navbar.jsx:35 | any other path is active iff it is a prefix of the location |
| Navbar.SearchActiveOnSearchResults | src/components/Navbar.jsx:33-37 | "/search" is active on "/searchresults" (prefix, not segment, matching); "/" is not active on "/search" |
| Navbar.ActiveOnExtensions | src/components/Navbar.jsx:35 | a non-root path active on a location stays active on every extension of it |
| Navbar.OnlySearchActive | src/components/Navbar.jsx:26-37 | under "/search/…" the only active navigation item is Search |
| Navbar.IsActivePath | src/components/Navbar.jsx:33-37 | an active link's path always begins the pathname |

## Left out

- String length: Dafny strings are sequences of Unicode scalar values, while JavaScript's `length`, `charAt`, `slice` and `includes` count UTF-16 code units. A character outside the Basic Multilingual Plane (an emoji, say) counts 1 here and 2 in the source. This moves the length tests `searchTerm.length < 2` and `term.length > 2` (SearchDropdown.jsx), `partialQuery.length < 2` and `query.trim().length < 3` (naturalLanguageSearch.js), and the Levenshtein distance. For example "😀v" has length 3 and is within distance 2 of "suv" in the source, which offers "Suv"; the model counts length 2 and offers nothing.
- Network, timers and analytics are not modelled: the location lookup (`fetchUserLocation`, `refreshLocation`), its cache, `window.gtag`, the lead POST, the submit timers and auto-close, and the `isSubmitted` screen.
- Clock and mock data are parameters: `new Date().getFullYear()` is `currentYear`, `Date.now()` is `now`, and the mock vehicles, makes, models and popular searches are inputs or constants.
- `loadVehicles` (a timer over mock data), `getVehicleById`, `getFilteredCount`, `getBestDeals` and `getFeaturedVehicles` are not modelled; the filtering and sorting they wrap are.
- VehicleData.SortVehicles: for "best-deals" only a permutation is stated. The ratio price/marketPrice is compared by cross-multiplication, which is exact only for positive market prices; floating point is not modelled.
- VehicleData.SortVehicles: stability of `Array.prototype.sort` is not stated for equal keys.
- VehicleData.VehicleStore.ApplyFilters: states only a permutation for "best-deals", as `SortVehicles` does; React's effect scheduling, which calls it after state changes, is not modelled.
- Explanation notes are kept abstract. `toLocaleString` currency text and the exact suggestion strings of the parser are a datatype (`PriceRange`, `ModelIs`, …), not text.
- The `range` field of `priceInfo` is never set by the source and is not modelled.
- Text.Lower: ASCII-only case mapping; Unicode case rules are not modelled. Text.UpperChar likewise.
- Numbers are unbounded integers. JavaScript doubles lose precision above 2^53, and `parseInt` of very long digit runs is not modelled.
- A missing (`null`) query to the parser is not modelled; the model takes a string, and an empty string takes the same early-return path.
- Storage failures are not modelled: `JSON.parse` errors, `try/catch` around storage, and an empty stored string counting as absent.
- AffiliateLink.ChosenPartner: picks the partner with the corrected vehicle type (`AffiliateLink.VehicleType`), not the as-written one, which types every non-luxury vehicle "electric". So its choice differs from the source's wherever the two types differ; see Findings.
- AffiliateLink.GetAffiliateLink: the partner is chosen through `AffiliateLink.ChosenPartner`, that is with the corrected vehicle type, so the link does not reproduce the source's routing. A Ford F-150 with a Texas location goes to "cars" in the source (typed "electric") and to "autotrader" in the model (typed "truck"); see Findings.
- SearchDropdown.Dropdown.HandleSuggestionClick: history entries stored as objects (`item.text`) are not modelled; the history holds strings.
- The `onSelectSuggestion` callback of the dropdown, and all rendering, icons and styling.
- URL handling is a parameter of `GetAffiliateLink`: `new URL`, `searchParams.set` and `URLSearchParams.toString` are the functions `withTracking` and `encode`.
- JavaScript prototype keys in object lookups (a state named "constructor", say) are not modelled; the tables are maps.
- `COMMISSION_RATES`, the partners' names, priorities and regions, and `src/constants/affiliates.js` are not used by the modelled logic and are not modelled.
- The key order of `parsedParams` objects is not modelled; parameters are a record.
- FinancingCalculator, the pages, HeroSection, EnhancedSearchBar and the other presentation components are not part of this model.

## Findings

| source | as written | input that shows it | evidently intended | confidence | as-written member | corrected member |
|---|---|---|---|---|---|---|
| src/utils/naturalLanguageSearch.js:255-256 | the budget and luxury term arrays are passed to `findKeywordMatches`, which calls `synonyms.forEach` on each array element (a string), so `parseNaturalLanguageQuery` throws a TypeError for every query whose trimmed length is 3 or more | "budget cars" | test whether any budget (or luxury) term occurs in the query | not executed | QueryParser.ParseAsWritten | QueryParser.Parse |
| src/utils/naturalLanguageSearch.js:324-325 | `generateSearchSuggestions` calls the parser first, so every input of 3+ trimmed characters throws before any completion is pushed | "reliable" | return the trigger completions ("reliable family SUV under $30k", …) | not executed | QueryParser.GenerateSearchSuggestionsAsWritten | QueryParser.GenerateSearchSuggestions |
| src/hooks/useAffiliateLink.js:154 | the arrow parameter `model` shadows the vehicle's model, so the electric test checks each listed name against itself and always holds: every non-luxury vehicle is "electric" | make "Ford", model "F-150" | test whether the vehicle's lower-cased model contains an electric model name | not executed | AffiliateLink.VehicleTypeAsWritten | AffiliateLink.VehicleType |

The as-written behaviour is shown by `QueryParser.ParseAsWrittenThrows`, `QueryParser.SuggestionsAsWrittenThrows`, `QueryParser.SuggestionsAsWrittenNeverComplete`, `AffiliateLink.AsWrittenNonLuxuryIsElectric` and `AffiliateLink.FordF150Counterexample`. The corrected behaviour is stated by `QueryParser.ParseFields`, `QueryParser.CorrectedSuggestionsComplete`, `AffiliateLink.VehicleTypeLuxury` and `AffiliateLink.VehicleTypeTruck`. The rest of the model uses the corrected members; "## Left out" says what that changes in the affiliate routing.
