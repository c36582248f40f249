# STAR emotion analysis: a verified model

The system classifies a short Japanese account of a moving experience into one
of four STAR categories: SENSE (perceiving), THINK (understanding), ACT (doing)
and RELATE (relationships). It scores the text against keyword tables, adjusts
the scores for negation, repeated keywords, sentence structure (SV or SOV) and
optional morphological tokens, and reports the primary category, a confidence
label, the keywords found, how the emotion moves through the text and whether
several emotions are mixed. A sliding-window keyword index offers a faster
search over the same kind of tables. A configuration manager holds the JSON
settings and keyword files.

The model follows the three core files.

**Text, scoring and the analyzer**
- `Text` has Python's whitespace, `strip`, `lower`, `split`, `in` and `count`.
- `Categories` has the four-score vector, `max`, the second largest score and normalization.
- `KeywordTable` has the analyzer's tables.
- `SentenceTypes` has the SV/SOV rules. Each regular expression is written out as the existence of the positions its groups would occupy.
- `Scoring` has the score pipeline as specification functions.
- `Parts` has the split into parts and the emotion progression.
- `Report` has the confidence label, keyword extraction, the structure pattern, the mixed emotions and the quality assessment.
- `Analyzer` has the class `StarAnalyzer`. Its methods accumulate the way the source's loops do, and each is proved equal to the specification function above.

**Keyword search** (keyword_optimizer.py)
- `KeywordIndex` has the index as a map from normalized keyword to a set of (category, type, weight) triples. It also has the window sums of `fast_search` and the naive scan.
- `KeywordOptimizer` has the classes `KeywordSearchOptimizer` and `AdvancedKeywordMatcher`. They build the index in place and scan the text with nested loops.

**Configuration** (config_manager.py)
- `Config` has JSON values, the dotted-path read and write, the keyword tables without the two pattern entries, the defaults, and `validate_config`.

Scores are real numbers. Dictionaries whose keys are always the four categories become a four-field datatype. The other dictionaries are maps, or sequences where their iteration order matters.

## Model

| member | source | states |
|---|---|---|
| Text.TrimStart | star_analyzer.py:281 | `lstrip` drops exactly the leading whitespace: the result is a suffix that is empty or starts with a non-space, and everything dropped is whitespace |
| Text.TrimEnd | star_analyzer.py:281 | `rstrip` drops exactly the trailing whitespace: the result is a prefix that is empty or ends with a non-space, and everything dropped is whitespace |
| Text.StripSlice | star_analyzer.py:281 | `strip` gives a slice `s[a..b]` with no whitespace at either end, and only whitespace lies outside the slice |
| Text.StripFixpoint | star_analyzer.py:779 | stripping an already stripped part changes nothing |
| Text.CollapseEnds | star_analyzer.py:281 | `re.sub(r'\s+', ' ', ...)` keeps emptiness and whether the first and last characters are whitespace |
| Text.CollapseNoDoubleSpace | star_analyzer.py:281 | after the substitution no two whitespace characters are adjacent |
| Text.CollapseOnlyBlanks | star_analyzer.py:281 | after the substitution the only whitespace character is the blank |
| Text.CollapseNonSpace | star_analyzer.py:281 | the substitution keeps every non-whitespace character, in order |
| Text.CollapseFixpoint | star_analyzer.py:281 | a text already in collapsed form is left unchanged |
| Text.PreprocessShape | star_analyzer.py:278-282 | `_preprocess` leaves no whitespace at the ends, no whitespace run, no whitespace but the blank, and keeps all other characters in order |
| Text.PreprocessIdempotent | star_analyzer.py:278-282 | preprocessing a preprocessed text changes nothing |
| Text.ContainsWithin | star_analyzer.py:294 | a word found in a slice of the text is found in the text |
| Text.CountPositive | star_analyzer.py:464 | `t.count(c) > 0` exactly when `c in t` |
| Text.SplitOn | star_analyzer.py:778 | `str.split` returns at least one piece, and the first piece is a prefix of the text |
| Text.SplitJoin | star_analyzer.py:778 | joining the pieces of `s.split(sep)` with `sep` gives `s` back |
| Text.SplitPiecesAvoid | star_analyzer.py:778 | no piece contains the separator, and no piece contains a word the text does not contain |
| Text.SplitOnAbsent | star_analyzer.py:778 | a text without the separator splits into itself alone |
| Text.SplitOnFirst | config_manager.py:80 | splitting on a one-character separator cuts off everything before its first occurrence as the first piece |
| Text.NoCharNoContains | config_manager.py:80 | a character that occurs at no position is not contained as a one-character string |
| Text.StripAvoids | star_analyzer.py:779 | stripping never introduces a word the text did not contain |
| Text.Lower | keyword_optimizer.py:82 | `lower()` keeps the length, so window positions in the lowered text are positions in the text |
| Categories.AllCategoriesInOrder | star_analyzer.py:286 | the category list has all four categories, each at its declaration index |
| Categories.ArgMax | star_analyzer.py:230 | `max(scores, key=scores.get)` has the largest score, and every category before it in declaration order scores strictly less |
| Categories.ArgMaxOfTie | star_analyzer.py:230 | four equal scores, the all-zero ones among them, give SENSE |
| Categories.MaxScore | star_analyzer.py:336 | `max(scores.values())` bounds every score and is attained |
| Categories.SecondMax | star_analyzer.py:337 | `sorted(..., reverse=True)[1]` is at most the maximum, is the score of a category other than the primary one, and bounds every such category |
| Categories.GapZeroIffTie | star_analyzer.py:336-340 | the score gap is zero exactly when two distinct categories share the maximum |
| Categories.Normalize | star_analyzer.py:317-320 | with a positive total the scores become shares summing to 1, each the old score divided by the total; otherwise they are unchanged |
| Categories.NormalizeKeepsOrder | star_analyzer.py:317-320 | normalization keeps every score's sign, the order between any two scores, and the primary category |
| SentenceTypes.FirstMatch | star_analyzer.py:411-418 | the first rule in list order that matches, and none exactly when no rule matches |
| SentenceTypes.DetermineSentenceType | star_analyzer.py:370-426 | SOV exactly when an SOV pattern matches, or no SV pattern matches and the particle-and-verb fallback holds |
| SentenceTypes.SOVTakesPriority | star_analyzer.py:410-413 | a matching SOV pattern makes the sentence SOV whatever the SV patterns say |
| SentenceTypes.WithoutObjectParticlesIsSV | star_analyzer.py:375-426 | a text without を, に, と and から is SV |
| SentenceTypes.NoChain | star_analyzer.py:377-379 | a subject-particle-object pattern cannot match without its second particle |
| SentenceTypes.NoRun | star_analyzer.py:382-388 | a particle pattern cannot match without its particle |
| SentenceTypes.NoWord | star_analyzer.py:391-392 | a particle-and-verb pattern cannot match when none of its particles occurs |
| SentenceTypes.MarathonIsSOV | star_analyzer.py:387 | "マラソンを完走できて嬉しい" matches the achievement pattern and is SOV |
| Scoring.IntensityFactor | star_analyzer.py:302-305 | the multiplier of the first intensity word, in table order, adjacent to the keyword on either side, or 1.0; positive with positive multipliers |
| Scoring.WordsHitsPositive | star_analyzer.py:293-294 | a word list has hits exactly when one of its words occurs, and at most one per word |
| Scoring.ListsHitsPositive | star_analyzer.py:292-294 | a category has hits exactly when one of its words occurs |
| Scoring.WordsScoreSign | star_analyzer.py:293-307 | a word list's score is non-negative, and positive exactly when it has a hit |
| Scoring.ListsScoreSign | star_analyzer.py:288-309 | a category's score is non-negative, and positive exactly when it has a hit |
| Scoring.FeelScore | star_analyzer.py:451-466 | the FEEL score is within [0, 2], zero exactly when no FEEL marker and no exclamation mark occurs, and at most 0.5 per marker plus 0.2 per mark |
| Scoring.AddFeel | star_analyzer.py:311-315 | the FEEL bonus is added to the categories above zero and to no other |
| Scoring.CalculateScoresShape | star_analyzer.py:284-322 | `_calculate_scores` gives non-negative scores that sum to 1 or are all zero; a category is above zero exactly when one of its words occurs; all are zero exactly when no keyword occurs |
| Scoring.RawScoresSign | star_analyzer.py:286-309 | before the bonus a category's score is non-negative, and positive exactly when one of its words occurs |
| Scoring.AddFeelKeepsSign | star_analyzer.py:311-315 | a non-negative bonus keeps every score non-negative and changes no score's being zero |
| Scoring.NormalizeZero | star_analyzer.py:317-320 | non-negative scores normalize to all zeros exactly when they are all zeros, and otherwise sum to 1 |
| Scoring.NegationLowersKeepingOrder | star_analyzer.py:676-688 | negation multiplies every score by 0.3: no score rises, every positive score falls, nothing changes without a negation pattern, and the primary category is kept |
| Scoring.RepetitionFactor | star_analyzer.py:709-712 | the repetition factor is within [1, 1.8] and is 1 exactly when the category has at most one hit |
| Scoring.RepetitionFactorFormula | star_analyzer.py:710-712 | the factor is `1 + min(count * 0.2, 0.8)` for more than one hit, and 1 otherwise |
| Scoring.FavouredPartition | star_analyzer.py:717-727 | each category is favoured by exactly one of the two sentence types |
| Scoring.RepeatedBounds | star_analyzer.py:709-712 | one repeated score lies between the score and 1.8 times it, is zero exactly when the score is, and is unchanged for at most one hit |
| Scoring.NegationExample | test_star_analyzer.py:148-157 | "美味しくない" carries a negation pattern and lowers a positive SENSE score to 30% of itself, while "美味しい" keeps its scores |
| Scoring.RepetitionBonusBounds | star_analyzer.py:708-712 | the repetition pass raises a score by at most 80%, keeps zero scores exactly, and leaves categories with at most one hit alone |
| Scoring.CongruenceFavours | star_analyzer.py:717-727 | with the analyzer's weights a favoured category is multiplied by 1.2 and any other by 0.8, so a favoured category level with or ahead of an unfavoured one ends strictly ahead |
| Scoring.ContextWeightingBounds | star_analyzer.py:690-729 | context weighting keeps every score's sign and multiplies it by between 0.8 and 1.8 * 1.2 |
| Scoring.PosWeight | star_analyzer.py:659-666 | 1.2 for adjectives, 1.1 for verbs, 0.9 for nouns, chosen by prefix in that order, otherwise 1.0 |
| Scoring.MatchingListsBound | star_analyzer.py:670-671 | a token matches at most every list of a category, and at least one exactly when its base form or surface is listed |
| Scoring.TokenBoostBounds | star_analyzer.py:668-672 | one token adds between 0 and 0.36 per list, and something exactly when it matches a list |
| Scoring.TokensBoostBounds | star_analyzer.py:653-672 | the tokens add a non-negative amount, positive exactly when some token matches some list of the category |
| Scoring.AddMorphology | star_analyzer.py:653-672 | the morphology loop never lowers a score, and raises a category's score exactly when some token matches one of its word lists |
| Scoring.EnhancedScoresShape | star_analyzer.py:641-674 | the final scores are non-negative, and zero exactly when none of the category's words occurs and no token matches its lists, whatever the sentence type |
| Scoring.StarTablesPositive | star_analyzer.py:193-196 | the analyzer's intensity multipliers are positive |
| Parts.SplitEachAvoids | star_analyzer.py:776-778 | every piece avoids the separator and every word no part contained before |
| Parts.StripNonEmptyShape | star_analyzer.py:779 | the kept pieces are non-empty and stripped, and avoid what the pieces avoided |
| Parts.SplitWithShape | star_analyzer.py:774-779 | after the separators so far, every part is non-empty, stripped, and free of them |
| Parts.SplitPartsShape | star_analyzer.py:767-781 | `_split_into_parts` gives non-empty stripped parts that contain none of the separators |
| Parts.StageOfAbsent | star_analyzer.py:776-779 | a stage applied to a part without its separator only strips it |
| Parts.SplitWithAbsent | star_analyzer.py:774-779 | a text without any separator stays whole, stripped, or vanishes when blank |
| Parts.SplitPartsWhole | star_analyzer.py:767-781 | the same for `_split_into_parts` and its eleven separators |
| Parts.PartScores | star_analyzer.py:743-751 | each category's part score counts its keyword entries present in the part, so it is positive exactly when one of its words occurs there |
| Parts.PresentShape | star_analyzer.py:756-763 | the appended entries come from their own positions in rising order, and every produced entry is among them |
| Parts.EntriesIndexed | star_analyzer.py:757-758 | every entry records its part's position |
| Parts.ProgressionEntries | star_analyzer.py:738-765 | each progression entry names its part's position, the part, its scores, the first category with the largest score and that positive score, with positions rising |
| Parts.ProgressionComplete | star_analyzer.py:738-765 | a part has an entry exactly when it is tracked |
| Parts.TrackedIffKeyword | star_analyzer.py:739-756 | a part is tracked exactly when it has at least two characters after stripping and one of the categories' words occurs in it |
| Report.ScoreGap | star_analyzer.py:336-340 | the gap between the two largest scores is non-negative |
| Report.GapExceedsIffLeads | star_analyzer.py:340-357 | the gap exceeds a margin exactly when the primary category leads every other by more than it |
| Report.ConfidenceMeaning | star_analyzer.py:351-357 | "高" exactly when the top score exceeds 0.3 and leads all others by more than 0.5; "中" or better exactly when it exceeds 0.2 and leads by more than 0.2 |
| Report.TieIsLow | star_analyzer.py:351-357 | two categories sharing the top score always give "低" |
| Report.DetailsOf | star_analyzer.py:343-363 | the recorded gap is the maximum minus the second, and the short-text and no-keyword flags are set exactly when length < 10 and count = 0 |
| Report.ExtractKeywordsMeaning | star_analyzer.py:428-438 | the extracted keywords are exactly the dictionary words occurring in the text |
| Report.ExtractKeywordsEmptyIff | star_analyzer.py:428-438 | no keyword is extracted exactly when the keyword count is zero |
| Report.SVStructurePatterns | star_analyzer.py:442-445 | the SENSE and THINK patterns name the SV structure |
| Report.SOVStructurePatterns | star_analyzer.py:446-449 | the ACT and RELATE patterns name the SOV structure |
| Report.SortDescSorted | star_analyzer.py:793 | sorting the categories by score, descending and stable, orders them by falling score with ties in declaration order, and is a permutation |
| Report.SortedSignificant | star_analyzer.py:789-793 | the sorted significant categories hold each category reaching 0.5 exactly once, by falling score |
| Report.MixedEmotionsPresent | star_analyzer.py:791 | mixed emotions are reported only when at least two categories reach 0.5, then one entry for each |
| Report.MixedEntries | star_analyzer.py:795-801 | the entries are those of the sorted significant categories, in order |
| Report.EntriesRanked | star_analyzer.py:795-801 | the entries are ranked 1, 2, ... with each ratio to the first in (0, 1] and the first's equal to 1 |
| Report.MixedEmotionsMembers | star_analyzer.py:783-803 | when reported, every category reaching 0.5 appears, and only those |
| Report.MixedEmotionsRanked | star_analyzer.py:783-803 | when reported, entries run by falling score, ties in declaration order, ranked from 1, ratios in (0, 1], the first 1 |
| Report.AssessQualityMeaning | star_analyzer.py:500-540 | the length class; reliability very low exactly when the top score is under 0.1, low exactly for a short keyword-less text otherwise; each remedy exactly under its condition; one suggestion per remedy |
| Report.WorkedExample | star_analyzer.py:690-729 | for "この料理、本当においしい！" (SENSE words only, two hits, SV), context weighting turns the normalized scores into SENSE 1.68 and zero elsewhere; SENSE is primary and the confidence is "高" |
| Analyzer.StarAnalyzer.constructor | star_analyzer.py:49-213 | the analyzer starts with its keyword, intensity, context and negation tables and no confidence details |
| Analyzer.StarAnalyzer.IntensityMultiplier | star_analyzer.py:302-305 | the loop returns the first adjacent intensity word's multiplier |
| Analyzer.StarAnalyzer.CategoryScore | star_analyzer.py:289-309 | the nested loops over one category's lists give its list score |
| Analyzer.StarAnalyzer.CalculateScores | star_analyzer.py:284-322 | the method computes `Scoring.CalculateScores` |
| Analyzer.StarAnalyzer.CategoryHits | star_analyzer.py:702-706 | the loops count the category's entries present in the text |
| Analyzer.StarAnalyzer.CountKeywordsInText | star_analyzer.py:324-332 | the loops count all entries present in the text |
| Analyzer.StarAnalyzer.ApplyNegationDetection | star_analyzer.py:676-688 | the method computes `Scoring.ApplyNegation` on a copy |
| Analyzer.StarAnalyzer.RepeatedScore | star_analyzer.py:709-712 | one category's score after the repetition bonus |
| Analyzer.StarAnalyzer.RepetitionPass | star_analyzer.py:694-712 | the loop computes `Scoring.RepetitionBonus` |
| Analyzer.StarAnalyzer.CongruencePass | star_analyzer.py:714-727 | the sentence-type pass computes `Scoring.CongruenceWeighting` |
| Analyzer.StarAnalyzer.ApplyContextWeighting | star_analyzer.py:690-729 | both passes, with the sentence type determined again from the text |
| Analyzer.StarAnalyzer.CategoryTokenBoost | star_analyzer.py:669-672 | the lists of one category add `0.3 * pos_weight` for each list naming the token |
| Analyzer.StarAnalyzer.AddTokenBoost | star_analyzer.py:655-672 | one round of the morphology loop adds the token's boosts |
| Analyzer.StarAnalyzer.ApplyMorphology | star_analyzer.py:653-672 | the morphology loop computes `Scoring.AddMorphology` |
| Analyzer.StarAnalyzer.CalculateScoresEnhanced | star_analyzer.py:641-674 | the method computes `Scoring.EnhancedScores` |
| Analyzer.StarAnalyzer.CalculateConfidence | star_analyzer.py:334-368 | the confidence label of the scores, with the details stored in `last_confidence_details` |
| Analyzer.StarAnalyzer.SplitAll | star_analyzer.py:776-778 | the inner loop splits every part on the separator |
| Analyzer.StarAnalyzer.StripAll | star_analyzer.py:779 | the comprehension keeps the stripped non-empty pieces |
| Analyzer.StarAnalyzer.SplitIntoParts | star_analyzer.py:767-781 | the method computes `Parts.SplitParts` |
| Analyzer.StarAnalyzer.PartScoresOf | star_analyzer.py:743-751 | the loops compute a part's scores |
| Analyzer.StarAnalyzer.DominantEntry | star_analyzer.py:753-763 | the loop body's entry for a part |
| Analyzer.StarAnalyzer.TrackEmotionProgression | star_analyzer.py:731-765 | the method computes `Parts.ProgressionOf` of the parts |
| Analyzer.StarAnalyzer.Analyze | star_analyzer.py:215-276 | the result's text is preprocessed; its scores are non-negative and zero exactly for categories without words or matching tokens; its primary category, confidence, sentence type, keywords, pattern, details, tags and stored confidence details are those of the stages |
| KeywordIndex.TypeWeight | keyword_optimizer.py:53-62 | a type weight lies in [0.8, 1.5] |
| KeywordIndex.NormalizeKeyword | keyword_optimizer.py:64-67 | a normalized keyword is no longer than the keyword |
| KeywordIndex.ListPostingsMembers | keyword_optimizer.py:37-46 | the triples of a category are exactly those of its listed keywords |
| KeywordIndex.DictPostingsMembers | keyword_optimizer.py:36-46 | the triples of the dictionary are exactly those of its listed keywords |
| KeywordIndex.IndexOfAppend | keyword_optimizer.py:36-46 | filing two runs of keywords is filing the first, then the second |
| KeywordIndex.IndexOfKeys | keyword_optimizer.py:46 | filing adds exactly the keywords' normalized forms as keys |
| KeywordIndex.IndexOfFiled | keyword_optimizer.py:46 | filing never removes a triple, and adds exactly each keyword's triple under its normalized form |
| KeywordIndex.BuiltIndex | keyword_optimizer.py:32-49 | after the build a triple is under a key exactly when a listed keyword normalizes to that key with that triple, and no key holds an empty set |
| KeywordIndex.LongestMeaning | keyword_optimizer.py:49 | the running maximum bounds every keyword's length, is 0 for none, and is attained |
| KeywordIndex.BuiltLongest | keyword_optimizer.py:49 | `max_keyword_length` bounds the raw length of every listed keyword, is 0 without keywords, and is some keyword's length |
| KeywordIndex.KeysFitWindows | keyword_optimizer.py:49-88 | every index key is no longer than `max_keyword_length`, so the windows reach every key |
| KeywordIndex.CategoryNamed | keyword_optimizer.py:101-102 | a dictionary key names a category exactly when it is one of the four names |
| KeywordIndex.Contribution | keyword_optimizer.py:96-102 | a triple adds its weight to its own category and nothing to the others |
| KeywordIndex.AddWeight | keyword_optimizer.py:96 | `scores[category] += weight` changes only that category |
| KeywordIndex.EntriesWeightsRemove | keyword_optimizer.py:95-96 | the sum over a set of triples does not depend on the order they are visited |
| KeywordIndex.EntriesWeightsSign | keyword_optimizer.py:95-96 | with positive weights a set adds a non-negative amount, positive exactly when it holds a triple of the category |
| KeywordIndex.WindowEnd | keyword_optimizer.py:88 | `min(start + max_len, len)` |
| KeywordIndex.FastSearchSign | keyword_optimizer.py:69-104 | the score of a category is non-negative, and positive exactly when some window of the lowered text no longer than the maximum is a key with a triple of that category |
| KeywordIndex.LinearSamePresence | keyword_optimizer.py:161-163 | the naive scan depends only on which keywords occur, not how often |
| KeywordIndex.LinearSign | keyword_optimizer.py:154-169 | the naive score of a category is non-negative, and positive exactly when a keyword of it occurs |
| KeywordIndex.BuiltWeightsPositive | keyword_optimizer.py:39-62 | every filed triple has its type weight, which is positive |
| KeywordIndex.WindowFoundByLinear | keyword_optimizer.py:94-96 | a window counted for a category is a keyword of it the naive scan finds |
| KeywordIndex.LinearFoundByWindow | keyword_optimizer.py:86-96 | a keyword the naive scan finds is a window the fast scan counts |
| KeywordIndex.FastAgreesWithLinear | keyword_optimizer.py:69-169 | for non-empty stripped keywords the fast and the naive search find the same categories |
| KeywordIndex.ContextualMeaning | keyword_optimizer.py:190-204 | SENSE and ACT are boosted exactly when `！` or `!!` occurs, THINK exactly when `？` or `??` occurs, RELATE never; a boost of at least 1 lowers no score |
| KeywordIndex.PatternMeaning | keyword_optimizer.py:206-225 | SENSE and THINK gain 10% exactly when は, が or を occurs, ACT and RELATE exactly when を, に or で occurs; を alone boosts all four; no score falls |
| KeywordOptimizer.AppendMembers | keyword_optimizer.py:120 | appending a record adds it to its own category's list and nowhere else |
| KeywordOptimizer.AppendWeights | keyword_optimizer.py:120 | appending a record adds its weight to its own category's sum only |
| KeywordOptimizer.WindowRecordsPlaced | keyword_optimizer.py:115-125 | the records of a key window are well placed |
| KeywordOptimizer.AddEntries | keyword_optimizer.py:95-96 | the loop over a key's triples adds their weights |
| KeywordOptimizer.RecordEntries | keyword_optimizer.py:119-125 | the loop over a key's triples appends one record per triple, adding their weights |
| KeywordOptimizer.KeywordSearchOptimizer.constructor | keyword_optimizer.py:18-29 | the index and the maximum length are those the build computes from the dictionary |
| KeywordOptimizer.KeywordSearchOptimizer.IndexKeywords | keyword_optimizer.py:41-49 | the innermost loop files one list's keywords and tracks the longest |
| KeywordOptimizer.KeywordSearchOptimizer.IndexLists | keyword_optimizer.py:37-49 | the middle loop files one category's lists |
| KeywordOptimizer.KeywordSearchOptimizer.BuildSearchIndex | keyword_optimizer.py:32-49 | the build files every listed keyword and tracks the longest |
| KeywordOptimizer.KeywordSearchOptimizer.FastSearch | keyword_optimizer.py:69-104 | the sliding window computes the window sums of the lowered text |
| KeywordOptimizer.KeywordSearchOptimizer.MatchesFrom | keyword_optimizer.py:113-125 | the windows from one start add their records, all well placed |
| KeywordOptimizer.KeywordSearchOptimizer.GetKeywordMatches | keyword_optimizer.py:106-127 | every record is a key window of the lowered text no longer than the maximum, and the record weights of each category sum to `fast_search` |
| KeywordOptimizer.KeywordSearchOptimizer.LinearKeywords | keyword_optimizer.py:161-163 | the innermost loop adds the weights of one list's present keywords |
| KeywordOptimizer.KeywordSearchOptimizer.LinearLists | keyword_optimizer.py:159-163 | the middle loop adds those of one category |
| KeywordOptimizer.KeywordSearchOptimizer.LinearSearch | keyword_optimizer.py:154-169 | the naive scan adds each present keyword's weight once |
| KeywordOptimizer.AdvancedKeywordMatcher.constructor | keyword_optimizer.py:174-176 | the matcher keeps its optimizer, with threshold 0.8 |
| KeywordOptimizer.AdvancedKeywordMatcher.FuzzySearch | keyword_optimizer.py:178-188 | the result is that of `fast_search` |
| KeywordOptimizer.AdvancedKeywordMatcher.ContextualSearch | keyword_optimizer.py:190-204 | `fast_search` then the contextual boost |
| KeywordOptimizer.AdvancedKeywordMatcher.PatternBasedSearch | keyword_optimizer.py:206-225 | `fast_search` then the pattern boost |
| Config.PathOf | config_manager.py:80 | a dotted path has at least one segment |
| Config.DottedPath | config_manager.py:80 | `"a.b".split('.')` is `["a", "b"]` for dot-free names |
| Config.LookupFails | config_manager.py:79-89 | the walk fails, and `get_config` returns its default, exactly when some segment is missing or meets a value that is not a dictionary |
| Config.LookupAppend | config_manager.py:83-84 | walking a path is walking a prefix, then the rest |
| Config.SaveThenGet | config_manager.py:131-142 | after a write through existing dictionaries or missing keys, reading the same path gives the value |
| Config.SaveBlocked | config_manager.py:134-148 | a write that meets a value that is not a dictionary leaves the configuration as it was |
| Config.SaveOffPath | config_manager.py:131-142 | a write leaves every path that parts ways with its own unchanged |
| Config.KeywordTables | config_manager.py:91-98 | the two pattern entries are dropped, and every other entry of the keywords is kept with its value |
| Config.CategoryTables | config_manager.py:91-98 | a category has a table exactly when it has an entry, with the same value |
| Config.RequiredPaths | config_manager.py:227-231 | the segments of the three required keys |
| Config.SaveKeepsValidity | config_manager.py:124-149 | a write whose path parts ways with every required key keeps the verdict of `validate_config` |
| Config.DefaultSystemName | config_manager.py:161-165 | `system.name` in the defaults is "STAR Analysis System" |
| Config.DefaultThresholdsKey | config_manager.py:166-172 | `analysis.confidence_thresholds` in the defaults is the thresholds table |
| Config.DefaultIntensityWordsKey | config_manager.py:173-177 | `analysis.intensity_words` in the defaults is the intensity table |
| Config.DefaultRequiredKeys | config_manager.py:227-236 | every required key leads to a value in the default configuration |
| Config.DefaultCategories | config_manager.py:187-207 | the default keywords have all four categories |
| Config.ValidWhenPresent | config_manager.py:224-250 | validation passes when every required key leads to something not null and every category has an entry |
| Config.DefaultsValid | config_manager.py:224-250 | the defaults pass `validate_config` |
| Config.ConfigManager.constructor | config_manager.py:19-68 | a missing or malformed file is replaced by its defaults, and any other read failure loads both defaults |
| Config.ConfigManager.GetConfig | config_manager.py:70-89 | the loop over the segments returns the walk's value or the default |
| Config.ConfigManager.GetIntensityWords | config_manager.py:108-110 | the table under `analysis.intensity_words` whenever the path leads to one, `{}` otherwise |
| Config.ConfigManager.GetContextWeights | config_manager.py:112-114 | the table under `analysis.context_weights` whenever the path leads to one, `{}` otherwise |
| Config.ConfigManager.SaveConfig | config_manager.py:124-142 | the configuration becomes the walk's result and the keywords are unchanged |
| Config.ConfigManager.GetKeywords | config_manager.py:91-98 | the loop copies every entry but the two pattern entries, without changing the keywords |
| Config.ConfigManager.GetNegationPatterns | config_manager.py:100-102 | the `negation_patterns` entry, `[]` without one |
| Config.ConfigManager.GetSentencePatterns | config_manager.py:104-106 | the `sentence_patterns` entry, `{}` without one |
| Config.ConfigManager.ValidateConfig | config_manager.py:224-250 | false exactly when a required key looks up to None or a category is missing from the tables |
| Config.ConfigManager.HasRequiredKeys | config_manager.py:228-237 | the loop over the required keys passes exactly when every one of them leads to something other than null |
| Config.HasAllCategories | config_manager.py:240-243 | the category check passes exactly when all four category names are keys of the tables |
| Config.ConfigManager.CreateDefaultConfig | config_manager.py:159-185 | the configuration becomes the defaults, the keywords unchanged |
| Config.ConfigManager.CreateDefaultKeywords | config_manager.py:187-212 | the keywords become the defaults, the configuration unchanged |
| Config.ConfigManager.LoadDefaultConfigs | config_manager.py:214-217 | both become the defaults, which pass validation |

## Left out

- Everything outside the three core files is not part of this model: the Tkinter and command-line front ends, the logging setup and the tests.
- The Janome tokenizer (star_analyzer.py:19-28, 63-77, 577-611) is not modelled. `Analyze` takes the token list as a parameter, or `None` when no tokenizer is available. Every token is assumed to carry a base form, as Janome always fills it.
- `_calculate_emotion_intensity`, `_analyze_emotion_intensity`, `_detect_emotion_patterns` and `_detect_feel_indicators` (star_analyzer.py:468-486, 542-575, 613-639) are left out. So are the `emotion_intensity`, `detected_patterns` and `feel_indicators` fields they fill. They feed only the report, never the scores or the category.
- Scores are real numbers. IEEE rounding of the float arithmetic is not modelled.
- `lower()` is a per-character function that folds ASCII and full-width Latin capitals. Python's whitespace is the `str.isspace` character set. Other Unicode case rules are not modelled.
- Analyzer.StarAnalyzer.Analyze: the sentence type is computed twice by the source, once inside context weighting and once for the result. The model does the same, and the two calls agree because the computation is pure.
- `category_matches` in `_apply_context_weighting` (star_analyzer.py:696, 700, 706) is filled but never read, so it is left out.
- The `sentence_type` argument of `_determine_structure_pattern` is unused by the source, so it is not modelled.
- Report.ExtractKeywordsMeaning: `_extract_keywords` returns `list(set)`, whose order Python leaves unspecified. It is modelled as a set.
- `benchmark_search` (keyword_optimizer.py:129-152) only measures time, so it is left out.
- `category_weights` (keyword_optimizer.py:26) and the list `matched_keywords` inside `fast_search` (79, 97) are written but never read, so they are left out.
- KeywordOptimizer.KeywordSearchOptimizer.FastSearch: categories other than the four are dropped as the weights are added, rather than when the four are read out at the end. The result is the same.
- KeywordOptimizer.KeywordSearchOptimizer.GetKeywordMatches: the order of records within a category follows the order of the index's sets, which Python leaves unspecified. The contract states where each record comes from and what the weights sum to, not the order.
- KeywordOptimizer.AdvancedKeywordMatcher.FuzzySearch: the threshold is resolved and then ignored, exactly as in the source.
- The inner loops of the nested loops in `_build_search_index`, `fast_search`, `get_keyword_matches`, `_linear_search` and the analyzer are separate methods, one loop each.
- Config.ConfigManager.constructor: the file reads are left out. The constructor takes what reading config.json and keywords.json produced. A keywords file whose top level is not a JSON object is not modelled.
- Config.ConfigManager.SaveConfig: the nested write is modelled on values, so the sharing of a nested dictionary between the configuration and other references is not captured. `_save_config_file` and the logging are left out.
- JSON objects are maps, so the order of their keys is not modelled. No operation of the configuration manager depends on that order.
- `reload_configs`, the global instance and the module-level helpers (config_manager.py:219-222, 252-264) only call the methods above, so they are left out.
- `get_gui_config` and `get_logging_config` (config_manager.py:116-122) are `get_config` with a default of `{}`, like the two getters that are modelled. They are not modelled separately.
