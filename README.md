# Matching engine of the outsourcing assistant, modelled in Dafny

This project models the deterministic core of a tool that helps a buyer send a part drawing out to machining shops. The core has five pieces:

- **Task taxonomy** (`TaskMapping`). It holds six ordered categories (drilling, milling, turning, cutting, finishing, inspection). Each category has Japanese and English synonym phrases and equipment names, and comes with an alias table. Built on the table are:
  - the key normalizer and the keyword lists;
  - the two-pass machine classifier (equipment names first, then synonyms, first category wins);
  - the step classifier;
  - the two loops that count and group steps by category.
- **Company matching** (`CompanyMatching`). Every catalog company is scored against the required process steps:
  - a machine-coverage term;
  - two text bonuses per step;
  - a category-keyword boost per step, capped at 0.15.

  The score is capped at 1 and rounded to hundredths. The matches are then sorted stably, by descending score. When no match covers every step, companies are picked greedily in rank order until every required machine is held, and that alliance is attached to the top match.
- **Category view of the matching screen** (`MatchUi`). This covers:
  - coercion of posted step records, skipping the ones that raise;
  - selection of the task category, defaulting to drilling;
  - narrowing the steps to that category;
  - re-sorting the category's matches by (keyword hits, score).
- **Process planning** (`ProcessBreakdown`). Steps proposed by a language model (an optional JSON reply) come first. Then comes a fixed three-step rule sequence, chosen by whether the material names stainless steel. An inspection step ends the list when dimensions were detected.
- **Drawing heuristics** (`DiagramAnalysis`). First-match substring rules over the extracted text and the file name fill in:
  - material and part type;
  - a dimension marker;
  - tolerances;
  - the recommended process and machine.

Supporting modules:

- `Text`: Python's `strip`; `lower` on ASCII letters; `upper` on ASCII letters and on the four characters whose upper case holds an ASCII S (ß, ſ, ﬅ, ﬆ); the substring test; `split`/`join`; integer rendering.
- `Json`: posted and model-supplied JSON values, with Python truthiness, `dict.get`, `str()` and `int()`.
- `Ranking`: Python's stable `sort(reverse=True)`, given as the permutation of positions it applies.
- `Seqs`: in-order subsequences.
- `Wrappers`: `Option` and `Result`; `Raised` stands for an exception.

Form of the model:

- **Loops.** Loops that build lists, maps and sums are methods with loop invariants. Each is proved equal to a specification function, and the properties are proved about those functions.
- **Parameters instead of globals.** The classifier and the per-step boost are parameters of the counting, grouping, scoring and ranking layers, so lemmas about those layers hold for every classifier and every boost. The program's own classifier is `ClassifyStep` and its boost is `StepBoost`. The methods that stand for program entry points (`CategoriesForSteps`, `StepsByCategory`, `MatchCompanies`) instantiate them.
- **Scores.** Raw scores are reals. A stored score is an integer count of hundredths, so 0.73 is 73.

The comment above the full-cover test (`app/services/company_matching.py:84`) says an alliance is proposed when no single company can cover the steps. The test itself (`app/services/company_matching.py:85`) compares a match's distinct covered step names with `len(process_steps)`, which counts repeats, and the model follows the test as written. With pairwise distinct step names the two agree: `CompanyMatching.SoleCoverNoAlliance` proves that a company holding every required machine then rules out any alliance. With a step listed twice they part: a company that holds its machine and takes on both listings is still not a full cover, and an alliance is proposed anyway. `CompanyMatching.RepeatedStepStillAllies` states this consequence.

## Model

| member | source | states |
|---|---|---|
| Text.UpperAppend | app/services/process_breakdown.py:46 | `str.upper()` works character by character: the upper case of `a + b` is that of `a` followed by that of `b` |
| Text.UpperPlain | app/services/process_breakdown.py:46 | on text without ß, ſ, ﬅ or ﬆ, upper-casing keeps the length and turns each ASCII lower-case letter into its capital, leaving every other character alone |
| Text.UpperIdempotent | app/services/process_breakdown.py:46 | upper-casing twice gives the same text as upper-casing once |
| Text.Strip | app/services/company_matching.py:17 | definition of `str.strip()`: the text between the leading and the trailing run of `isspace` characters |
| Text.Lower | app/services/task_mapping.py:108 | definition of `str.lower()` on ASCII letters: each capital A-Z becomes its small letter, every other character stays |
| Text.Upper | app/services/process_breakdown.py:46 | definition of `str.upper()`: each character's upper case in turn, ASCII letters plus ß to SS, ſ to S, ﬅ and ﬆ to ST |
| Text.Contains | app/services/company_matching.py:38 | definition of `needle in hay` on strings: the needle occurs at some position of the hay |
| Text.Split | app/services/company_matching.py:17 | definition of `s.split(sep)`: the maximal separator-free pieces between separators, at least one |
| Text.Join | app/services/company_matching.py:35 | definition of `sep.join(parts)`: the pieces with one separator between neighbours |
| Text.StripSpec | app/services/company_matching.py:17 | `str.strip()` leaves no whitespace at either end of its result |
| Text.StripBlank | app/services/company_matching.py:17 | the stripped text is empty exactly when every character is whitespace, which is what `if x.strip()` tests |
| Text.StripTrimmed | app/services/task_mapping.py:108 | stripping text that has no whitespace at its ends changes nothing |
| Text.JoinSplit | app/services/company_matching.py:17 | `s.split(',')` loses nothing: joining the pieces with the separator rebuilds `s` |
| Text.SplitAtSeparator | app/services/company_matching.py:17 | splitting `a + sep + b` gives the pieces of `a` followed by the pieces of `b` |
| Text.ShortLexStrictTotal | app/services/task_mapping.py:102 | the sort key `(len(s), s)` is irreflexive, total on distinct strings, asymmetric and transitive |
| Json.Truthy | app/server.py:202 | definition of Python truthiness: null, false, 0, 0.0, the empty string, list and object are falsy, everything else truthy |
| Json.Or | app/server.py:200 | definition of `a or b`: `a` when it is truthy, else `b` |
| Json.PyStr | app/server.py:207-208 | definition of `str()` on strings, integers, booleans and null (`'None'`, `'True'`/`'False'`, decimal digits) |
| Json.Get | app/server.py:166-170 | `v.get(k)` raises exactly when `v` is not an object; otherwise it yields the field's value, or the default when the key is missing |
| Json.PyInt | app/server.py:168 | `int()` raises on null, lists and objects, and keeps an integer unchanged |
| Json.IntStrRoundTrip | app/server.py:166-168 | reading back a rendered integer gives it again: `int(str(n)) == n` |
| ProcessBreakdown.AcceptedItems | app/services/process_breakdown.py:32-44 | definition of the reply loop: the conversions of the items that convert, in reply order, skipping those that raise |
| ProcessBreakdown.ModelSteps | app/services/process_breakdown.py:31-44 | definition of the model's contribution: the accepted items when the reply is a list, else none |
| ProcessBreakdown.IsStainless | app/services/process_breakdown.py:46-47 | definition of the material test: the upper-cased material, `""` when absent, contains "SUS" |
| ProcessBreakdown.Plan | app/services/process_breakdown.py:14-58 | definition of the plan: the model's steps, the stainless or standard three steps, then inspection when `dims_text` is truthy |
| ProcessBreakdown.CoerceModelItem | app/services/process_breakdown.py:36-44 | a reply item that is not an object raises; a missing `minutes` defaults to 10; an item converts exactly when its minutes do; name and machine are the `str()` of the item's values |
| ProcessBreakdown.BreakdownProcess | app/services/process_breakdown.py:14-58 | the plan is the accepted reply items, then the stainless or the standard three rule steps (chosen by the upper-cased material containing "SUS"), then the inspection step only when dimensions were detected; so its length is accepted + 3 + (1 if dimensions) |
| ProcessBreakdown.AcceptedItemsSound | app/services/process_breakdown.py:31-44 | every planned model step is the conversion of some reply item, and there are never more of them than items |
| ProcessBreakdown.AcceptedItemsAll | app/services/process_breakdown.py:31-44 | when every item converts, each gives exactly one step, in reply order |
| ProcessBreakdown.AcceptedItemsAppend | app/services/process_breakdown.py:31-44 | the loop filters item by item: the steps of `a + b` are the steps of `a` followed by those of `b` |
| ProcessBreakdown.AcceptedItemsOne | app/services/process_breakdown.py:32-44 | one item gives its conversion, or nothing when converting it raises |
| ProcessBreakdown.AcceptedItemsSkip | app/services/process_breakdown.py:43-44 | an item that raises (`except Exception: pass`) is skipped, and the steps of the items before and after it are all kept, in order |
| ProcessBreakdown.StainlessUpperInvariant | app/services/process_breakdown.py:46-47 | a material that was upper-cased already is judged stainless exactly as the original spelling is |
| ProcessBreakdown.StainlessSpellings | app/services/process_breakdown.py:46-47 | "sus", "suß" and "ſus" name stainless steel (their upper cases contain "SUS"), while "S4C" does not |
| ProcessBreakdown.InspectionLastIffDimensions | app/services/process_breakdown.py:56-57 | the plan ends with the inspection step exactly when `dims_text` is truthy |
| DiagramAnalysis.FirstSeen | app/services/diagram_analysis.py:105-112 | the result is the first token seen in the text or the file name, with no earlier token seen; there is no result exactly when no token is seen |
| DiagramAnalysis.FoundTokens | app/services/diagram_analysis.py:127-130 | the kept tokens are exactly the listed tokens occurring in the text, in list order |
| DiagramAnalysis.ScanFirstSeen | app/services/diagram_analysis.py:105-112 | the scan with `break` yields the first token seen, or keeps the prior value when none is seen |
| DiagramAnalysis.DetectDimensions | app/services/diagram_analysis.py:114-118 | the marker is set exactly when the text holds one of φ, ±, R, mm, +0, -0 |
| DiagramAnalysis.CollectTolerances | app/services/diagram_analysis.py:127-130 | the tolerance loop collects exactly the tokens found, in list order |
| DiagramAnalysis.SurfaceFinishFor | app/services/diagram_analysis.py:121-126 | the model's surface finish stays unless it is empty, a roughness cue occurs and the pattern matched; then it is the match |
| DiagramAnalysis.TolerancesFor | app/services/diagram_analysis.py:127-132 | a model-supplied list is kept; otherwise the result is the tokens found, or none when none are found |
| DiagramAnalysis.Recommend | app/services/diagram_analysis.py:134-144 | the process is filled only when empty (旋盤 for a フランジ part or a φ in the text, else フライス for a プレート part); the machine is filled only when empty (旋盤 gives NC旋盤, フライス gives VMC) |
| DiagramAnalysis.ApplyHeuristics | app/services/diagram_analysis.py:105-159 | every field of the features record: first-seen material and part type over the model's values, the dimension marker, surface finish, tolerances, recommendations, and the first 500 characters as notes (none for empty text) |
| DiagramAnalysis.StainlessSeenWins | app/services/diagram_analysis.py:105-108 | once "SUS" is seen, the material is SUS, whatever the model said |
| DiagramAnalysis.GuessKeptIffUnseen | app/services/diagram_analysis.py:105-112 | a model value that is not itself a token survives exactly when no token is seen |
| TaskMapping.KeysOfCats | app/services/task_mapping.py:16-87 | there are six categories, whose keys, in declaration order, are pairwise distinct |
| TaskMapping.FindCategory | app/services/task_mapping.py:113-115 | `TASK_CATEGORIES.get(key)` finds a category exactly for a declared key, and then the category with that key |
| TaskMapping.AliasTargetsAreKeys | app/services/task_mapping.py:91-98 | every alias points at a declared key, and every declared key is its own alias |
| TaskMapping.NormalizeCategoryKey | app/services/task_mapping.py:105-109 | None and empty input give None; any other result is a declared key |
| TaskMapping.KeyIsNormal | app/services/task_mapping.py:16-84 | every declared key is already trimmed and lowercase |
| TaskMapping.CanonicalKeyFixed | app/services/task_mapping.py:105-109 | a declared key normalizes to itself |
| TaskMapping.NormalizeIdempotent | app/services/task_mapping.py:105-109 | normalizing twice is the same as normalizing once |
| TaskMapping.InsertWord | app/services/task_mapping.py:102 | inserting into a list strictly sorted by `(len, text)` keeps it strictly sorted and adds exactly the word |
| TaskMapping.LcWords | app/services/task_mapping.py:101-102 | `_lc_words` is strictly sorted by `(len, text)`, hence free of duplicates |
| TaskMapping.LcWordsMembers | app/services/task_mapping.py:101-102 | a word is in `_lc_words(xs)` exactly when it is the trimmed, lowered form of some phrase of `xs` that is not blank |
| TaskMapping.LcWordsSound | app/services/task_mapping.py:101-102 | every word comes from a phrase that is not blank |
| TaskMapping.LcWordsComplete | app/services/task_mapping.py:101-102 | every phrase that is not blank contributes its normalized form |
| TaskMapping.LcWordsNormalized | app/services/task_mapping.py:101-102 | every word is non-empty, trimmed and lowercase |
| TaskMapping.NormWordNormal | app/services/task_mapping.py:102 | the normalized form of a phrase that is not blank is non-empty, trimmed and lowercase |
| TaskMapping.KeywordsForCategory | app/services/task_mapping.py:112-116 | an unknown key gives []; a declared key gives a duplicate-free `(len, text)`-sorted list of exactly the normalized synonyms and equipment names that are not blank |
| TaskMapping.KeywordsNormalized | app/services/task_mapping.py:112-116 | every keyword is non-empty, trimmed and lowercase |
| TaskMapping.FirstHit | app/services/task_mapping.py:124-131 | a pass's result is the first category whose lowered token occurs, with none before it; there is no result exactly when no category hits |
| TaskMapping.ClassifyMachine | app/services/task_mapping.py:119-132 | blank input gives None; every result is a declared key; there is a result exactly when the trimmed lowered text is non-empty and some category hits in some pass |
| TaskMapping.MachinesBeforeSynonyms | app/services/task_mapping.py:123-127 | an equipment hit anywhere decides: the result is the first category with an equipment hit, even when earlier categories have synonym hits |
| TaskMapping.SynonymsWhenNoMachine | app/services/task_mapping.py:128-131 | without any equipment hit, the first category with a synonym hit wins |
| TaskMapping.ClassifyStep | app/services/task_mapping.py:135-141 | the machine's category when it has one; only otherwise the normalized lowered step name; always a declared key or None |
| TaskMapping.ClassifyStepIntoKeys | app/services/task_mapping.py:135-141 | the step classifier only ever yields declared keys |
| TaskMapping.FallbackTabs | app/services/task_mapping.py:158-161 | the suggested tabs are drilling, milling, cutting, finishing, each with count 0 |
| TaskMapping.CategoriesForSteps | app/services/task_mapping.py:144-162 | the tabs are the present categories in taxonomy order, or the four suggested tabs when none are present |
| TaskMapping.TabsFor | app/services/task_mapping.py:144-162 | the same for any classifier |
| TaskMapping.CountIn | app/services/task_mapping.py:146-151 | definition of `cnt[k]`: the number of steps the classifier puts under `k` |
| TaskMapping.PresentTabs | app/services/task_mapping.py:153-156 | definition of the ordered tabs: one `(key, label, count)` per category with a positive count, in taxonomy order |
| TaskMapping.CountSteps | app/services/task_mapping.py:146-151 | each counted key maps to its positive number of classified steps; keys not counted have none |
| TaskMapping.OrderedTabs | app/services/task_mapping.py:153-156 | the second loop emits one tab per counted category, in taxonomy order |
| TaskMapping.SuggestedTabs | app/services/task_mapping.py:158-161 | the fallback loop builds the suggested tabs |
| TaskMapping.PresentTabsSound | app/services/task_mapping.py:153-156 | every tab carries the key and label of a category and that key's positive step count |
| TaskMapping.PresentTabsComplete | app/services/task_mapping.py:153-156 | every category with a classified step has its tab |
| TaskMapping.CatTotalIsClassified | app/services/task_mapping.py:146-151 | over the whole taxonomy, the per-key counts add up to the number of classifiable steps |
| TaskMapping.TabsCountClassified | app/services/task_mapping.py:144-162 | the tab counts add up to the number of classifiable steps, and the fallback is used exactly when no step classifies |
| TaskMapping.Group | app/services/task_mapping.py:165-172 | definition of `res[k]`: the `(index, step)` pairs of the steps classified under `k`, in step order |
| TaskMapping.StepsByCategory | app/services/task_mapping.py:165-172 | a key is in the map exactly when some step classifies under it, and maps to exactly that key's group; every key is a declared key |
| TaskMapping.GroupsFor | app/services/task_mapping.py:165-172 | the same for any classifier into the taxonomy |
| TaskMapping.GroupExtend | app/services/task_mapping.py:167-171 | one more step joins its own group and leaves every other group unchanged |
| TaskMapping.GroupSound | app/services/task_mapping.py:167-171 | every grouped entry is a step at its own original index, classified under the group's key |
| TaskMapping.GroupComplete | app/services/task_mapping.py:167-171 | every step classified under a key is in that key's group |
| TaskMapping.GroupIncreasing | app/services/task_mapping.py:167-171 | indices strictly increase within a group, so no step appears twice |
| TaskMapping.GroupSize | app/services/task_mapping.py:167-171 | a group has one entry per step classified under its key |
| Ranking.StableSortDesc | app/services/company_matching.py:82 | definition of `sort(reverse=True)` as the positions it puts first: an insertion sort by descending key that places a later position after equal keys |
| Ranking.StableSortCorrect | app/services/company_matching.py:82 | the sort is a permutation of the positions; higher keys come first, and equal keys keep their original order |
| Ranking.SortedStaysPut | app/server.py:239 | sorting keys already in descending order leaves every position where it was |
| CompanyMatching.SplitCsv | app/services/company_matching.py:16-17 | definition of `_split_csv`: the stripped comma-separated pieces that are not blank, in order |
| CompanyMatching.RequiredMachines | app/services/company_matching.py:25 | definition of `required_machines`: the set of the steps' machines |
| CompanyMatching.NonBlankTrimmed | app/services/company_matching.py:17 | every kept piece is non-empty and trimmed, and there are no more kept pieces than pieces |
| CompanyMatching.NonBlankFrom | app/services/company_matching.py:17 | every kept piece is the stripped form of some piece, so it has no comma when the pieces have none |
| CompanyMatching.SplitCsvPieces | app/services/company_matching.py:16-17 | every field of `_split_csv` is non-empty, trimmed and comma-free |
| CompanyMatching.SplitCsvAtComma | app/services/company_matching.py:16-17 | a comma splits the field list in two: the fields of each side, in order |
| CompanyMatching.SplitCsvJoin | app/services/company_matching.py:16-17 | joining trimmed, non-empty, comma-free names with commas and splitting them gives the names back |
| CompanyMatching.CoverageTerm | app/services/company_matching.py:32-33 | the coverage term lies in [0, 0.6]; it is 0, not a division error, for no required machines, and 0.6 when every required machine is held |
| CompanyMatching.BonusTotal | app/services/company_matching.py:36-41 | the two text bonuses add at most 0.2 per step and never subtract |
| CompanyMatching.KeywordHits | app/services/company_matching.py:55 | the hit count is at most the number of keywords |
| CompanyMatching.KeywordBoost | app/services/company_matching.py:55-58 | the keyword boost lies in [0, 0.15], and is 0 without hits |
| CompanyMatching.StepBoost | app/services/company_matching.py:49-58 | a step's boost lies in [0, 0.15], and a step with an unclassifiable machine adds nothing |
| CompanyMatching.StepBoostBounded | app/services/company_matching.py:57-58 | every step boost is capped at 0.15 |
| CompanyMatching.BoostTotalBounds | app/services/company_matching.py:48-58 | capped boosts add up to at most 0.15 per step |
| CompanyMatching.StoredScore | app/services/company_matching.py:81 | the stored score is within half a hundredth of the capped score, and lies in [0, 100] hundredths for a non-negative raw score |
| CompanyMatching.CoverNames | app/services/company_matching.py:43-45 | definition of `cover`: the names of the steps whose machine the company has, in step order, repeats kept |
| CompanyMatching.CoverNamesSelects | app/services/company_matching.py:43-45 | there is an increasing list of positions that holds exactly the steps whose machine the company has, and the covered names are those steps' names, one per position (so repeats are kept); in particular they are an in-order selection of the step names |
| CompanyMatching.CoverNamesAllOrNone | app/services/company_matching.py:43-45 | when every machine is held, every step name is listed; when none is, none is |
| CompanyMatching.RawScore | app/services/company_matching.py:29-58 | definition of the score before capping: coverage term plus text bonuses plus (capped) keyword boosts |
| CompanyMatching.RawScoreBounds | app/services/company_matching.py:29-58 | the raw score is non-negative and at most 0.6 plus 0.35 per step, so the stored score lies in [0, 100] |
| CompanyMatching.FullCoverage | app/services/company_matching.py:32-45 | a company holding every step's machine gets the full coverage term and is listed for every step |
| CompanyMatching.ScoreCompany | app/services/company_matching.py:27-58 | the three per-step loops give the raw score and the covered names |
| CompanyMatching.AddBonuses | app/services/company_matching.py:36-41 | the bonus loop adds up the per-step text bonuses |
| CompanyMatching.CoveredSteps | app/services/company_matching.py:43-45 | the assignment loop lists the names of the steps whose machine is held |
| CompanyMatching.AddBoosts | app/services/company_matching.py:48-58 | the boost loop adds up the per-step boosts |
| CompanyMatching.UnrankedAt | app/services/company_matching.py:26-81 | before sorting there is one match per company, scoring the company at its own position |
| CompanyMatching.ScoreOne | app/services/company_matching.py:27-81 | one loop iteration builds the company's unranked match |
| CompanyMatching.ScoreCatalog | app/services/company_matching.py:26-81 | the scoring loop gives one unranked match per catalog company, in catalog order |
| CompanyMatching.HasFullCover | app/services/company_matching.py:85 | definition of `have_full_cover`: some match has a non-empty set of covered names as large as the number of steps |
| CompanyMatching.Greedy | app/services/company_matching.py:87-100 | definition of the alliance loop: each ranked company that holds a still-needed machine joins, and its machines stop being needed |
| CompanyMatching.AttachAlliance | app/services/company_matching.py:84-103 | definition of the attachment: when there is no full cover and the greedy pick is non-empty, it becomes the top match's alliance |
| CompanyMatching.MatchSpec | app/services/company_matching.py:20-104 | definition of `match_companies`: score every company, rank stably by score, attach the alliance |
| CompanyMatching.BuildAlliance | app/services/company_matching.py:87-100 | the alliance loop with its early exit picks what the greedy cover picks over all ranked companies |
| CompanyMatching.MatchCompanies | app/services/company_matching.py:20-104 | `match_companies` scores, ranks and attaches the alliance exactly as the specification function does |
| CompanyMatching.MatchWith | app/services/company_matching.py:24-103 | the same for any per-step boost |
| CompanyMatching.GreedyDone | app/services/company_matching.py:99-100 | once nothing is needed, later companies change nothing, so the `break` is safe |
| CompanyMatching.GreedyNeeded | app/services/company_matching.py:87-98 | the machines left needed are the required ones no listed company has; nobody is picked exactly when no company has a required machine |
| CompanyMatching.GreedyCovers | app/services/company_matching.py:87-100 | nothing is left needed exactly when the companies together hold every required machine |
| CompanyMatching.GreedyInOrder | app/services/company_matching.py:90-93 | the alliance lists companies in rank order |
| CompanyMatching.GreedyUseful | app/services/company_matching.py:92-93 | every member held a machine still needed when it was picked |
| CompanyMatching.RankSorted | app/services/company_matching.py:82 | the ranking holds every match once, higher scores first, equal scores in catalog order |
| CompanyMatching.AttachOnlyTop | app/services/company_matching.py:102-103 | attaching changes only the top match's alliance, and no company, score or cover |
| CompanyMatching.SetTopAlliance | app/services/company_matching.py:103 | setting the top match's alliance changes that field alone, so the full-cover test still gives the same answer |
| CompanyMatching.RankedFrom | app/services/company_matching.py:81-103 | each final match is the company, score and cover of the unranked match the sort put there |
| CompanyMatching.UnrankedScores | app/services/company_matching.py:26-81 | each unranked match holds its company, a stored score in [0, 100] and the steps it can take on |
| CompanyMatching.MatchScores | app/services/company_matching.py:24-82 | there is exactly one match per company; each scores its own company, in [0, 100], with the steps that company can take on |
| CompanyMatching.MatchesRanked | app/services/company_matching.py:81-82 | each catalog company appears exactly once; scores descend; equal scores stay in catalog order |
| CompanyMatching.RankedInOrder | app/services/company_matching.py:82-103 | ranking then attaching keeps every position once, scores descending, ties in original order |
| CompanyMatching.AllianceOnTop | app/services/company_matching.py:85-103 | only the top match can carry an alliance; it carries one exactly when no match is a full cover and the greedy pick is non-empty, and then it is that pick |
| CompanyMatching.UnrankedNoAlliance | app/services/company_matching.py:81 | no match carries an alliance before ranking |
| CompanyMatching.AttachOnTop | app/services/company_matching.py:85-103 | for matches without alliances, only the top one can get one, exactly when the program attaches it |
| CompanyMatching.NoStepsNoAlliance | app/services/company_matching.py:85-103 | an empty step list never yields an alliance |
| CompanyMatching.SingleCompanyRank | app/services/company_matching.py:81-82 | a one-company catalog ranks that company's match alone |
| CompanyMatching.GreedySingle | app/services/company_matching.py:90-98 | a lone company is picked exactly when it holds a needed machine |
| CompanyMatching.CoveredTwice | app/services/company_matching.py:43-45 | a step listed twice whose machine is held is covered twice, while it requires one machine |
| CompanyMatching.RepeatedNameNotFull | app/services/company_matching.py:85 | a match listing one step name twice is no full cover of two steps |
| CompanyMatching.AttachSingle | app/services/company_matching.py:85-103 | a lone match that is no full cover and holds a needed machine gets itself as the alliance |
| CompanyMatching.SoleCoverNoAlliance | app/services/company_matching.py:84-103 | with a non-empty list of steps whose names are pairwise distinct, and a company holding every required machine, some match is a full cover and no match carries an alliance |
| CompanyMatching.RepeatedStepStillAllies | app/services/company_matching.py:85 | with one step listed twice and a company that takes on both listings, that company alone is still proposed as an alliance |
| MatchUi.PostedSteps | app/server.py:203-216 | definition of the coercion loop: the conversions of the records that convert, in posted order, skipping those that raise |
| MatchUi.CoercePostedItem | app/server.py:205-216 | a record that is not an object raises; name is name, else operation, else ""; machine is machine, else ""; minutes is `int(minutes or 10)`, raising exactly when that conversion raises; tolerance and precision are passed through |
| MatchUi.PostedRecordRoundTrip | app/server.py:207-213 | posting a step back gives the same step, except that zero minutes become the default 10 |
| MatchUi.CoercePosted | app/server.py:203-216 | the coercion loop keeps one step per record that converts, skipping the ones that raise |
| MatchUi.PostedStepsSound | app/server.py:203-216 | every coerced step comes from some record, and there are never more steps than records |
| MatchUi.PostedStepsAll | app/server.py:203-216 | when every record converts, each gives exactly one step, in posted order |
| MatchUi.PostedStepsAppend | app/server.py:203-216 | coercion works record by record: the steps of `a + b` are the steps of `a` followed by those of `b` |
| MatchUi.PostedStepsOne | app/server.py:205-216 | one record gives its conversion, or nothing when converting it raises |
| MatchUi.PostedStepsSkip | app/server.py:215-216 | a record that raises (`continue`) is skipped, and the steps of the records before and after it are all kept, in order |
| MatchUi.MatchRouteSteps | app/server.py:159-176 | definition of the match route's steps: the coerced records of a truthy posted list (possibly none), else the last steps |
| MatchUi.StepsField | app/server.py:200-201 | a falsy body has no steps field; an object body gives its field; any other truthy body raises |
| MatchUi.UiSteps | app/server.py:202-219 | a posted list that leaves at least one step replaces the current steps, and otherwise the current steps stay; steps are never lost |
| MatchUi.PostedMatchSteps | app/server.py:159-176 | on the match route, a posted list gives its coerced steps (possibly none) and anything else the last steps; it raises exactly when reading the body does |
| MatchUi.PostedUiSteps | app/server.py:200-219 | the category view's reading of a posted body, raising exactly when reading the body does |
| MatchUi.SelectCategory | app/server.py:224-225 | the selected category is the normalized task key, or drilling when there is none, and is always a declared key |
| MatchUi.SelectIdempotent | app/server.py:224-225 | selecting the selected key again keeps it |
| MatchUi.Scope | app/server.py:227-229 | definition of `steps_scope`: the steps grouped under the selected key, or all steps when there are none |
| MatchUi.InCategoryExact | app/server.py:228-229 | the category's steps are an in-order selection of the steps: exactly those classified under the key, one per such step |
| MatchUi.ScopeShape | app/server.py:228-233 | the scope is a selection of the steps, empty only for no steps (so matching runs whenever there are steps), and all the steps when the category has none |
| MatchUi.ScopeFor | app/server.py:228-230 | the scope computed through the grouping map is the specified one |
| MatchUi.PriorityKeysAreKeywords | app/server.py:235 | lowering the category keywords again changes nothing |
| MatchUi.PrioCount | app/server.py:236-238 | the priority is at most the number of keywords |
| MatchUi.KeywordHitsCountsFound | app/server.py:238 | with distinct keywords, the hit count is the number of distinct keywords found |
| MatchUi.PrioCountIsFound | app/server.py:235-238 | a company's priority is the number of distinct category keywords its lowered machines, skills and notes mention |
| MatchUi.CategoryView | app/server.py:235-239 | definition of the re-sort: the matches stably sorted by (keyword hits, score), descending |
| MatchUi.CategoryViewSorted | app/server.py:239 | the view holds every match once, ordered by priority and then score, both descending, with equal pairs in their prior order |
| MatchUi.EqualPriorityKeepsRanking | app/server.py:239 | when every match has the same priority, re-sorting a score ranking leaves it as it was |
| MatchUi.NoKeywordsNoReorder | app/server.py:235-239 | without keywords, matches in score order stay put |
| MatchUi.NoKeywordsKeepsRanking | app/server.py:233-239 | a category without keywords shows the matches in their score ranking |
| MatchUi.ViewSteps | app/server.py:198-222 | definition of the steps in effect: the posted steps when some survive, else the current ones, else the plan when features exist |
| MatchUi.TabsOf | app/server.py:241 | definition of `tabs`: `categories_for_steps` of the steps in effect |
| MatchUi.StepsForView | app/server.py:198-222 | the steps in effect are the posted steps of a POST, else the current ones, else the planned ones when features exist; it raises exactly when reading a posted body does |
| MatchUi.ViewFor | app/server.py:224-241 | for the steps in effect, the view shows: the selected key; the full matches (none without steps); the scope's matches re-sorted by priority (none for an empty scope); the tabs |
| MatchUi.MatchView | app/server.py:190-241 | the whole pure part of `match_ui`, from request body, task parameter and catalog to the view |

## Left out

- Language-model calls: the advisory nudge of `match_companies` (`app/services/company_matching.py:60-80`) and the model prompts of process planning and drawing analysis. These are network calls. Their replies enter the model as inputs: `reply` for process planning, `ModelGuess` for drawing analysis. The nudge is dropped, as if no model were configured.
- ProcessBreakdown.BreakdownProcess: the prompt at `app/services/process_breakdown.py:18-21` writes its item schema in single braces inside an f-string. Python reads `{"name": ...}` there as a replacement field with an invalid format spec, so `breakdown_process` raises `ValueError` whenever a model is configured, before any reply exists. The model does not capture that exception: it treats `reply` as the reply the loop at `app/services/process_breakdown.py:31-44` would see. With a model configured, the planned-steps path of `MatchUi.StepsForView` (`app/server.py:220-222`) therefore raises in the program, whereas the model returns a plan. With no model configured (`reply` is `JNull`), the model and the program agree.
- OCR and PDF text extraction: foreign libraries. The extracted text is an input.
- The surface-finish regular expression (`app/services/diagram_analysis.py:124`): its result is the `finishMatch` input. Python `re` semantics are not modelled.
- The SQLite company store: the catalog is an input sequence of company rows, in id order.
- Report rendering, Flask routing, sessions, uploads, redirects and the `app.config` globals: these are I/O. The stored "last steps" and "last features" are inputs. The companies JSON built for the page is not modelled.
- The `cover_steps` accumulator of the alliance loop (`app/services/company_matching.py:89`): nothing reads it.
- CompanyMatching.StoredScore: rounds half up, while Python's `round` rounds floats half to even. Floating-point error is not modelled either, because scores are exact reals.
- Text.Upper: upper-cases ASCII letters and maps ß to SS, ſ to S, and the ligatures ﬅ and ﬆ to ST. Other characters are left as they are, while Python's `str.upper` would also upper-case other scripts (é to É, say). No other character upper-cases to an ASCII S or U, so whether the material contains "SUS" — the only use of `upper` in the core — comes out as in Python, and so does the choice BreakdownProcess makes between the stainless and the standard steps.
- DiagramAnalysis.ModelGuess: every field the model proposes is a string or a list of strings (or absent), as the prompt's schema asks (`app/services/diagram_analysis.py:57-67`). `js.get` (`app/services/diagram_analysis.py:86-93`) can return any JSON value. A reply that breaks the schema is not modelled. Examples: a list `part_type` would make the フランジ test at `app/services/diagram_analysis.py:136` a list-membership test; a numeric `part_type` would make that test raise; a numeric `material` would make `.upper()` raise at `app/services/process_breakdown.py:46`.
- Text.Lower: lowers ASCII letters only. Python's `str.lower` also lowers other scripts, such as full-width Latin letters. None of the taxonomy's tokens is affected. The step, machine and company texts are lowered too (`app/services/company_matching.py:35`, `app/services/company_matching.py:47`, `app/server.py:237`). There a character outside ASCII can lower to ASCII in Python: the Kelvin sign U+212A becomes `k`, and U+0130 becomes `i` followed by a combining dot. On such texts the text bonuses, the keyword boost and the priority count can differ from the program's.
- Json.PyStr: gives `""` for floats, lists and objects, because Python's rendering of those is not modelled. It is exact for strings, integers, booleans and null.
- Json.PyInt: parses an optional sign and ASCII digits after stripping. Python's `int()` also accepts underscores between digits and non-ASCII decimal digits. `JFloat` holds finite reals only: Python's `json.loads` also accepts `NaN` and `Infinity`, for which `int()` raises, so a posted `minutes` of that kind (`app/server.py:210`) is not modelled.
- Ranking.StableSortDesc: the in-place `list.sort` is a library call, so it is modelled as the permutation a stable sort applies. No sorting loop is invented.
- MatchUi.MatchView: the features record's truthiness is modelled as present or absent, `Option`.
- TaskMapping.TabsFor, TaskMapping.GroupsFor, CompanyMatching.MatchWith: these take the classifier or boost as a function parameter. `CategoriesForSteps`, `StepsByCategory` and `MatchCompanies` instantiate them with the program's own.
