# mana-vox: a Dafny model of the source bookkeeping core

mana-vox is a pipeline for finding sources that report human-rights and
environmental incidents involving companies. It does four things:

- It reads the Twitter timelines of curated *reference* entities.
- Every account, web site and feed they cite becomes an *origin*, owned by an *entity*.
- It groups entities that are the same real-world source. Some are merged; the others get merge suggestions.
- It promotes entities to *source candidate* and *trusted* once the evidence about them passes the configured thresholds.

An admin API imports and exports the curated sources and companies. It also merges entities on request.

This project models that core in Dafny and proves properties of the model.
It has one module per source file:

| module | file | models |
|---|---|---|
| `Wrappers`, `PyStrings` | `wrappers.dfy`, `pystrings.dfy` | Python's `None`, and the `str` operations used: `split`, `join`, `replace`, `lower`, `strip`, `startswith`, `endswith`, `str(n)` |
| `Orm` | `orm.dfy` | `mana_common/orm.py`: the tables, as class `Session` with a value view `Db`; the evidence rules (distinct origins, occurrence sums, distinct groups, the two promotions, enrichment); `merge_entities`; `find_companies` |
| `Shared` | `shared.dfy` | `mana_common/shared.py`: the URL helpers, the feed path cleaner, the tweet URL, the URL trim, text cleaning, the company-name tolerance, the pattern check |
| `SourceGrouping` | `grouping.dfy` | `source_grouping/main.py`: exact and fuzzy matching, `try_to_match`, `match_entity`, suggestions, and the LIFO pass |
| `SourceTagging` | `tagging.dfy` | `source_tagging/main.py`: the three tagging passes and their order |
| `SourceAcquisition` | `acquisition.dfy` | `source_acquisition/main.py`: the origin upserts, citation edges, tweet processing, the timeline cursor, `init_entity` |
| `ContentAnalysis` | `content_analysis.dfy` | the bookkeeping of `content_analysis/main.py`: intents, the sentence filter, the worth-analysing gate, mime type and truncation, tweet and feed collection, `process_entity`, the per-company fan-out |
| `ApiUtils`, `ApiAuth`, `ApiCompanies`, `ApiSources`, `ApiMain`, `ApiTests` | `api_*.dfy` | the admin API files `api/utils.py`, `auth.py`, `companies.py`, `sources.py`, `main.py` and `tests.py` |

## How the model is built

- **The database is a class.** The SQLAlchemy session becomes the class `Orm.Session`, whose fields are the tables:
  - entities are a map from id to `Entity`, plus the row order;
  - origins are a sequence, each origin carrying the id of its owner;
  - `OriginGroup` edges, groups, contents, companies and synonyms are sequences too.

  `Session.State()` packs these fields into the value `Orm.Db`.
- **Every state change is a method checked against a function.** The method has `modifies s`. Its postcondition equates the new state with a pure function of the old one, for example `s.State() == AddRssOriginSpec(old(s.State()), ...)`. The properties the code promises are then proved as lemmas about that function.
- **Sheets are sequences of rows.** Pandas frames become row sequences. An empty cell is `None`: pandas' NaN and Python's `None` are the same thing here. A database query becomes a lookup or a filter over the tables, in table order.
- **Queries autoflush.** A query sees the rows the same session added earlier.
- **Commits are not modelled.** The model keeps one session in memory and injects no failures. A `finally: commit()` pass is therefore just the state its loop leaves.
- **A missing occurrence count is 0.** The source turns an `occurrences` of None into 1 on the next sighting, which is what 0 + 1 gives.
- **Integers are unbounded**, as Python's are. Ids come from one counter, `nextId`.
- **The outside world is passed in as parameters.** These parameters are:
  - `fuzz.token_set_ratio`: a function `ratio` returning 0 to 100;
  - regular expression search: `search`, and `findall` for the social-keyword pattern;
  - `fuzzysearch.find_near_matches`;
  - feed discovery: `findFeed`;
  - the HEAD request behind `get_full_url`;
  - the Twitter calls: the timeline, `GetUser`, and the profile lookup of `get_twitter_infos`;
  - the feed reader;
  - the NLU relevance check, with the HTML and PDF parsers' output;
  - `analyse_content`, and `str` of a company match in the test endpoint.

  Most of them are grouped in small records such as `Services`, `Readers` and `Config`.
- **Two regexes are modelled exactly.** The ones in `remove_html_tags` and `clean_company_value` are simple lazy patterns, so they are written out as left-to-right scans instead of being parameters.

## Where the code differs from its documented intent

In each of these cases the model does what the code does. Where a fix is evident, a corrected definition sits beside it (see Findings).

- **`flag_source_candidate` can demote.** It does not check the prior status, so a `SOURCE` entity whose evidence reaches the threshold is set back to `SOURCE_CANDIDATE` (`Orm.FlagSourceCandidateDemotesSource`). A merge re-runs this rule, so a merge can lower status. Only the tagging pass restricts the rule to `ENTITY` entities.
- **A merge does not move every origin.** The loop that re-owns the absorbed entity's origins edits the list it iterates over, so only every other origin moves. The others lose their owner when the absorbed entity is deleted (`Orm.MergeOriginsAsWritten`, `Orm.MergeLosesSecondOrigin`). `Orm.MergeSpec`, `Orm.Session.MergeEntities` and the grouping and API steps built on them follow the code; `Orm.MergeIntended` is the merge with every origin moved.
- **The trust pass promotes nothing.** Its query tests `Entity.trusted is False`. `SourceTagging.RunTagging` follows the code (`SourceTagging.TaggingAsWrittenOutcome`); `SourceTagging.RunTaggingAsIntended` and `SourceTagging.TaggingSpec` are the intended pass.
- **A screen name held by another entity breaks the import.** The database keeps Twitter screen names unique (`unique=True` on `TwitterOrigin.screen_name`). Acquisition looks a name up before adding it (`SourceAcquisition.AcquisitionKeepsKeysUnique`). The admin import does not when the entity its row names has no Twitter origin: `update_source` then creates one under a name another origin may hold, and the next flush raises IntegrityError (`ApiSources.UpdateTwitterKeepsScreenNamesUnique`, `ApiSources.ImportClashRaises`). The model ends the import there, as it does for a screen name whose origin has no owner.
- **Suggestions appended to a stored list are lost.** `suggested_merges` is a plain `ARRAY(JSON)` column, so appending to a list an entity was loaded with does not mark it changed, and the commit of `match_entity` drops the append. A list that was None is replaced by a new one, and the kept side of a merge is assigned by `merge_entities`; both are stored. `SourceGrouping.ApplyMatch` follows the code (`SourceGrouping.CommittedSuggestions`, `SourceGrouping.SuggestionLostAsWritten`); `SourceGrouping.ApplyMatchIntended` stores every suggestion (`SourceGrouping.IntendedMatchStoresSuggestion`).
- **The matching loops break in the inner loop only.** In `is_auto_match` and `is_suggested_match`, `break` leaves only the inner loop. The verdict is therefore that of the last comparison made (`SourceGrouping.LastOriginDecides`, `SourceGrouping.InnerOnlyBreakLosesMatch`).
- **The fuzzy URL guard tests `url1` twice**, so a missing second URL is not guarded. `urlsplit(None)` splits an empty bytes value, and the ratio then compares `str(b'')`, the text `b''` (`SourceGrouping.SuggestedUrlsSecondNoneUnguarded`).
- **The companies duplicate check misses shared synonyms.** It compares whole synonym cells and the set of split synonyms, so a synonym in two cells passes (`ApiCompanies.SharedSynonymPassesCheck`). `process_companies` then inserts it twice under the primary key `CompanySynonym.name`.

## Model

| member | source | states |
|---|---|---|
| Orm.NewEntity | code/src/mana_common/orm.py:492-515 | a new entity row takes the column defaults: status ENTITY, NOT_VERIFIED, not trusted, no merges, not matched |
| Orm.DefaultConfig | code/src/mana_common/orm.py:464-478 | the config defaults: source candidate threshold 3, trusted thresholds 10 occurrences and 2 groups, 20 tweets |
| Orm.OriginsOf | code/src/mana_common/orm.py:501 | `entity.origins` holds exactly the origins whose owner is the entity |
| Orm.DistinctOriginsMembers | code/src/mana_common/orm.py:137-143 | the distinct origins are exactly the entity's origins other than RSS feeds attached to a web origin |
| Orm.DistinctOriginsOrdered | code/src/mana_common/orm.py:139-143 | standalone RSS feeds come first, then web sites, then Twitter accounts |
| Orm.DistinctSumExcludesDerivedFeeds | code/src/mana_common/orm.py:124-143 | the distinct occurrence sum is the total minus the occurrences of feeds derived from a web origin |
| Orm.WebWithItsFeedCountsOnce | code/src/mana_common/orm.py:137-143 | a web site seen 3 times plus its derived feed seen 5 times counts 3 |
| Orm.GroupsCiting | code/src/mana_common/orm.py:159-167 | a group is counted iff some edge cites one of the distinct origins for it |
| Orm.TwoGroupsCounted | code/src/mana_common/orm.py:159-167 | citations by two different groups give a distinct-group count of at least 2 |
| Orm.DistinctGroupsIgnoresOtherOrigins | code/src/mana_common/orm.py:159-167 | an edge about an origin outside the evidence leaves the count unchanged |
| Orm.FlagSourceCandidateRule | code/src/mana_common/orm.py:146-155 | the status becomes SOURCE_CANDIDATE iff the evidence reaches the threshold; no other field changes |
| Orm.FlagSourceCandidateDemotesSource | code/src/mana_common/orm.py:146-155 | the rule does not test the current status: a SOURCE with enough evidence is lowered to SOURCE_CANDIDATE |
| Orm.FlagSourceCandidateIdempotent | code/src/mana_common/orm.py:146-155 | flagging twice is flagging once |
| Orm.FlagTrustedRule | code/src/mana_common/orm.py:170-181 | trusted afterwards iff trusted before or both thresholds are met; trust is never withdrawn; nothing else changes |
| Orm.TrustedWithTwoGroups | code/src/mana_common/orm.py:170-181 | with the default thresholds, ten occurrences cited by two groups make the entity trusted |
| Orm.EdgesCiting | code/src/mana_common/orm.py:191-192 | the edges the query returns are exactly those citing the origin |
| Orm.ReferencesSpec | code/src/mana_common/orm.py:184-200 | a name is a key of the summary iff an edge of it was visited; its number, contents (in visit order) and group (of the first citation) |
| Orm.Enriched | code/src/mana_common/orm.py:184-200 | enrichment sets `t_occurrences` to the distinct sum and rebuilds the summary; no other field changes |
| Orm.EnrichSpec | code/src/mana_common/orm.py:184-200 | only the enriched entity changes; the other tables are unchanged |
| Orm.EnrichIdempotent | code/src/mana_common/orm.py:184-200 | the summary is rebuilt from scratch, so enriching twice is enriching once |
| Orm.NamesUnchanged | code/src/mana_common/orm.py:194-198 | the summary depends on entity names and groups only |
| Orm.PromoteSpec | code/src/mana_common/orm.py:313-318 | the promotion chain changes the kept entity only |
| Orm.PromoteTouchesOnlyFlags | code/src/mana_common/orm.py:313-318 | promotion touches status, trust and the enrichment fields only, and never withdraws trust |
| Orm.MergeRefusal | code/src/mana_common/orm.py:207-233 | a merge is allowed iff both entities exist, differ, are not both references and have no conflicting groups |
| Orm.MergeChecksInOrder | code/src/mana_common/orm.py:210-228 | the first failing check is reported, in the source's order, with its message |
| Orm.MinState | code/src/mana_common/orm.py:240-242 | the merged verification state is the lower of the two |
| Orm.MaxStatus | code/src/mana_common/orm.py:245-247 | the merged status is the higher of the two |
| Orm.WithoutIds | code/src/mana_common/orm.py:266-272 | suggestions pointing at either merged entity are dropped, the others kept |
| Orm.FirstByIdSpec | code/src/mana_common/orm.py:273-279 | deduplication keeps the first suggestion per id: distinct ids, the same id set |
| Orm.MergedSuggestionsSpec | code/src/mana_common/orm.py:262-281 | the merged suggestions are the union minus both ids, without duplicates; None when nothing is left |
| Orm.ReconciledRules | code/src/mana_common/orm.py:240-307 | the field rules of a merge: min state, max status, trust AND, merges added plus one, details appended with the reason, group kept or inherited, comments concatenated |
| Orm.ReconciledMatchDoneIsAbsorbed | code/src/mana_common/orm.py:258-311 | the AND followed by the OR leaves the absorbed entity's `match_done` |
| Orm.Reowned | code/src/mana_common/orm.py:293-294 | each origin is the same origin owned by the kept entity |
| Orm.ReassignOriginsSpec | code/src/mana_common/orm.py:292-294 | after the intended reassignment the absorbed entity owns nothing and the kept one owns both lists; other owners are unchanged |
| Orm.ReassignWhileIterating | code/src/mana_common/orm.py:292-294 | iterating the backref list while reassigning moves only the even positions and leaves the odd ones |
| Orm.BackrefLoopSkipsSecondOrigin | code/src/mana_common/orm.py:293-294 | with two origins the second one is never reassigned |
| Orm.BackrefLoopLeavesHalf | code/src/mana_common/orm.py:293-294 | an entity with two or more origins loses at least one to the deletion |
| Orm.ReassignAsWrittenOwners | code/src/mana_common/orm.py:292-294 | after the loop as written the absorbed entity still owns the odd positions of its list, the kept one owns its own origins then the even positions, and every other owner is unchanged |
| Orm.Session.MoveOriginsAsWritten | code/src/mana_common/orm.py:292-294 | the loop over the live list leaves the origin table that ReassignAsWritten describes; every other table is unchanged |
| Orm.OriginsOfOrphaned | code/src/mana_common/orm.py:320-322 | deleting an entity with no delete cascade leaves it owning no origin and every other entity owning exactly what it owned |
| Orm.OrphanedKeepsRows | code/src/mana_common/orm.py:320-322 | an origin of the deleted entity stays in the table with no owner |
| Orm.WithoutRow | code/src/mana_common/orm.py:320-322 | the deleted entity leaves the row order and nothing else does |
| Orm.MergeSpec | code/src/mana_common/orm.py:204-326 | a merge, as written, keeps the entity keys consistent and never adds an entity |
| Orm.MergeRefusedWritesNothing | code/src/mana_common/orm.py:209-233 | the merge succeeds iff no check fails; a refusal writes nothing and returns the failing check's message |
| Orm.MergeKeepsTheReference | code/src/mana_common/orm.py:235-236 | a single reference survives whichever argument it is passed as |
| Orm.MergeKeepsKept | code/src/mana_common/orm.py:235-326 | on success the kept entity stays, the absorbed one leaves the table and the row order, and the message names both |
| Orm.MergeWithoutPromotion | code/src/mana_common/orm.py:240-318 | when the absorbed entity was not matched, the kept entity is exactly the reconciled one |
| Orm.MergeWithPromotion | code/src/mana_common/orm.py:313-318 | otherwise promotion changes only status, trust and enrichment, never withdraws trust, and the entity stays matched |
| Orm.MergeMatchDoneNetEffect | code/src/mana_common/orm.py:258-311 | the kept entity ends with the absorbed entity's `match_done` |
| Orm.MergeOriginsAsWritten | code/src/mana_common/orm.py:292-322 | after a merge as written the absorbed entity owns nothing, the kept entity owns its origins then the even positions of the absorbed list, every other owner is unchanged, and the odd positions remain with no owner |
| Orm.MergedOrigins | code/src/mana_common/orm.py:292-322 | the origin table after an accepted merge is the loop as written followed by the delete that clears the owner of whatever the absorbed entity still holds |
| Orm.SkippedOriginsOrphaned | code/src/mana_common/orm.py:292-322 | every origin the loop skips is still in the table after the merge, with no owner |
| Orm.MergeIntended | code/src/mana_common/orm.py:204-326 | the merge as intended, with every origin re-owned, keeps the entity keys consistent and never adds an entity |
| Orm.MergedStoreIntended | code/src/mana_common/orm.py:235-322 | the store after a merge that passed its checks, every origin re-owned: entity keys consistent, no entity added |
| Orm.Session.MergeEntitiesIntended | code/src/mana_common/orm.py:204-326 | the corrected merge in the session: the outcome and the new state are MergeIntended's |
| Orm.Session.MergeIntoIntended | code/src/mana_common/orm.py:235-322 | once the checks pass, the session ends in MergedStoreIntended's state |
| Orm.MergeMovesAllOrigins | code/src/mana_common/orm.py:292-294 | as intended, all the absorbed entity's origins end up owned by the kept entity, after its own |
| Orm.MergeLosesSecondOrigin | code/src/mana_common/orm.py:292-322 | an absorbed entity with origins `[a, b]`: as written the kept entity gains only `a` and `b` is left with no owner; as intended it gains both |
| Orm.SynonymsHit | code/src/mana_common/orm.py:384-389 | the synonyms recorded are exactly those found in the text |
| Orm.MatchCompany | code/src/mana_common/orm.py:379-390 | a company is recorded iff its name or a synonym is found, with the synonyms found |
| Orm.CompaniesFoundSpec | code/src/mana_common/orm.py:374-393 | one entry per found company of the cache, and no other entry |
| Orm.FindCompanies | code/src/mana_common/orm.py:374-393 | the loop over the cache returns CompaniesFound |
| Orm.MatchOneCompany | code/src/mana_common/orm.py:379-391 | the inner loop over one company's synonyms returns MatchCompany |
| Orm.ScanSynonyms | code/src/mana_common/orm.py:384-389 | the synonym loop records exactly the synonyms SynonymsHit finds, with their match details |
| Orm.RetrievedProfile | code/src/mana_common/orm.py:354-362 | a profile is attached iff a url is returned; the location is overwritten only when one is returned |
| Orm.UpdatedProfile | code/src/mana_common/orm.py:344-352 | each returned value overwrites its field; a url or description with no profile attached raises |
| Orm.CreateTwitterOriginSpec | code/src/mana_common/orm.py:329-333 | one new Twitter origin of the entity, with a fresh id and its profile retrieved |
| Orm.CreateWebAndRssOriginsSpec | code/src/mana_common/orm.py:335-342 | a web origin with all three urls set to the address, plus an RSS origin linked to it when a feed is found |
| Orm.CreateTwitterOrigin | code/src/mana_common/orm.py:329-333 | the session ends in the state CreateTwitterOriginSpec describes |
| Orm.CreateWebAndRssOrigins | code/src/mana_common/orm.py:335-342 | the session ends in the state CreateWebAndRssOriginsSpec describes |
| Orm.CreatedFeedIsNotEvidence | code/src/mana_common/orm.py:335-342 | creating origins leaves every entity's evidence sum unchanged |
| Orm.Session.SumDistinctOccurrences | code/src/mana_common/orm.py:124-134 | the loop computes the distinct occurrence sum |
| Orm.Session.DistinctGroupCount | code/src/mana_common/orm.py:159-167 | the nested loop counts the distinct citing groups |
| Orm.Session.FlagSourceCandidate | code/src/mana_common/orm.py:146-155 | the session ends exactly with the flagged entity stored |
| Orm.Session.FlagTrustedCandidate | code/src/mana_common/orm.py:170-181 | the session ends exactly with the flagged entity stored |
| Orm.Session.EnrichSource | code/src/mana_common/orm.py:184-200 | the dictionary loop ends in EnrichSpec's state |
| Orm.Session.Promote | code/src/mana_common/orm.py:313-318 | the session ends in PromoteSpec's state |
| Orm.Session.MoveOrigins | code/src/mana_common/orm.py:292-294 | the corrected reassignment, over a snapshot of the list, used by MergeIntoIntended; every other table is unchanged |
| Orm.Session.ReownEach | code/src/mana_common/orm.py:293-294 | the loop over a snapshot gives every origin of it to the kept entity, in order |
| Orm.Session.MergeEntities | code/src/mana_common/orm.py:204-326 | the session and the returned pair are exactly MergeSpec's, the merge as written |
| Orm.MergedStore | code/src/mana_common/orm.py:235-322 | a completed merge as written keeps the keys matching and only ever removes entities |
| Orm.PromotedAndDeleted | code/src/mana_common/orm.py:313-322 | promotion and the deletion of the absorbed entity keep the keys matching and only ever remove entities |
| Orm.Session.MergeInto | code/src/mana_common/orm.py:235-322 | once the checks pass, the session ends in MergedStore's state: record reconciled, origins moved by the loop as written, flags promoted when match_done holds, the wiped entity deleted and its remaining origins left with no owner |
| Shared.GetBaseUrl | code/src/mana_common/shared.py:162-168 | a missing URL comes back missing and a present one gives a present base |
| Shared.GetBaseUrlCutsAtSlash | code/src/mana_common/shared.py:162-166 | the base is the URL cut just before its third '/' (fourth when a listed domain occurs), or the whole URL when it has fewer |
| Shared.JoinTakeSplit | code/src/mana_common/shared.py:166 | joining the first k pieces of a split on a character cuts the string just before its k-th occurrence, or keeps it whole |
| Shared.GetFullUrl | code/src/mana_common/shared.py:172-185 | only URLs holding a shortener extension are resolved; others come back unchanged, and a missing one stays missing |
| Shared.CleanRssPath | code/src/mana_common/shared.py:224-232 | a missing link stays missing and a present one stays present |
| Shared.CleanRssPathAbsolute | code/src/mana_common/shared.py:230-232 | a link starting with "http" is kept as it is |
| Shared.CleanRssPathProtocolRelative | code/src/mana_common/shared.py:226-227 | a "//" link has every "//" replaced by "http://" and gets no base |
| Shared.CleanRssPathRelative | code/src/mana_common/shared.py:228-231 | a relative link is prefixed by the base, with a '/' only if neither side has one |
| Shared.BuildTweetUrl | code/src/mana_common/shared.py:255-256 | the URL starts with the Twitter prefix and ends with the tweet id |
| Shared.TweetUrlRoundTrip | code/src/mana_common/shared.py:255-256 | the screen name and the id can be read back from the URL |
| Shared.TrimmedUrlDropsAtMostOne | code/src/mana_common/shared.py:265-266 | at most one trailing '.', ',' or ')' is dropped, and only such a character |
| Shared.TrimmedUrlSinglePass | code/src/mana_common/shared.py:265-266 | a URL ending in ".)" loses only the ')' |
| Shared.TrimUrlMatches | code/src/mana_common/shared.py:263-268 | the loop rewrites each match, by index, to its trimmed form |
| Shared.RemoveHtmlTags | code/src/mana_common/shared.py:306-309 | removing tags and entities only removes characters |
| Shared.LazyCloseFirst | code/src/mana_common/shared.py:308 | the lazy `.*?` match that starts at '<' or '&' ends at the first closer after it on the same line |
| Shared.RemoveHtmlTagsPlain | code/src/mana_common/shared.py:306-309 | a text with no '<' and no '&' is left unchanged |
| Shared.RemoveHtmlTagsSpan | code/src/mana_common/shared.py:306-309 | after a prefix with no '<' and no '&', a '<' up to the first '>' or a '&' up to the first ';' on the same line is cut out and the scan goes on after it |
| Shared.RemoveHtmlTagsExample | code/src/mana_common/shared.py:306-309 | "a<b>c" becomes "ac" |
| Shared.CleanTextHasNoMarkers | code/src/mana_common/shared.py:295-303 | the cleaned text holds no '@', '#' or newline |
| Shared.FindCompanyNameMatches | code/src/mana_common/shared.py:235-252 | None iff the fuzzy search finds nothing, else the matches found |
| Shared.ShortNamesMatchExactly | code/src/mana_common/shared.py:236-239 | names of at most ten characters must match exactly |
| Shared.LongNamesAllowOneIndel | code/src/mana_common/shared.py:240-243 | longer names may lose or gain one character but never have one substituted |
| Shared.CheckIfUrlMatchPattern | code/src/mana_common/shared.py:313-320 | true iff some pattern is found in the URL |
| SourceGrouping.UrlSplitHost | code/src/source_grouping/main.py:30-31 | `urlsplit` of "http://" + host + "" or "/" yields that host and that path |
| SourceGrouping.UrlSplitRootPath | code/src/source_grouping/main.py:36-39 | an explicit root path is kept: "http://h/" has path "/", "http://h" has none |
| SourceGrouping.IsAutoMatchUrls | code/src/source_grouping/main.py:25-39 | a missing url never matches; a match means same host and same path, ignoring case |
| SourceGrouping.AutoMatchUrlsReflexiveSymmetric | code/src/source_grouping/main.py:25-39 | every present url matches itself, and the relation is symmetric |
| SourceGrouping.NoTrailingSlashNormalisation | code/src/source_grouping/main.py:36-39 | a host and the same host with "/" are not an exact match |
| SourceGrouping.SuggestedStringsIgnoreCase | code/src/source_grouping/main.py:107-111 | the fuzzy comparison of names ignores case |
| SourceGrouping.IsSuggestedMatchUrls | code/src/source_grouping/main.py:114-129 | a missing first url never matches; with both present, a match iff the host score reaches 82 and either both paths are empty or the path score reaches 82; a missing second url is scored as `b''` with an empty path |
| SourceGrouping.SuggestedUrlsSecondNoneUnguarded | code/src/source_grouping/main.py:115-126 | the guard tests `url1` twice, so `http://b` against a missing second url matches whenever the ratio scores `b` against `b''` at 82 or more |
| SourceGrouping.ViewsOf | code/src/source_grouping/main.py:144-153 | one origin dictionary per origin, in order |
| SourceGrouping.Repartition | code/src/source_grouping/main.py:133-166 | the two lists hold at most the listed entities |
| SourceGrouping.RepartitionSpec | code/src/source_grouping/main.py:140-159 | matched views come from matched entities, the others from unmatched ones, and every listed entity is in one of them |
| SourceGrouping.GetRepartition | code/src/source_grouping/main.py:133-166 | the loop over the entities returns Repartition's split |
| SourceGrouping.ScanOrigins | code/src/source_grouping/main.py:47-73 | the nested loops compute OuterScan, with the `break` leaving the inner loop only |
| SourceGrouping.IsAutoMatch | code/src/source_grouping/main.py:42-75 | `is_auto_match` returns AutoMatch's verdict |
| SourceGrouping.IsSuggestedMatch | code/src/source_grouping/main.py:78-104 | `is_suggested_match` returns SuggestedMatch's verdict |
| SourceGrouping.InnerScanForgets | code/src/source_grouping/main.py:48-73 | an inner loop that compares anything decides `match` and `reason` whatever came before |
| SourceGrouping.LastOriginDecides | code/src/source_grouping/main.py:47-75 | when the last origin of the first entity meets anything comparable, its own inner loop decides the outcome |
| SourceGrouping.InnerOnlyBreakLosesMatch | code/src/source_grouping/main.py:47-75 | a Twitter match found for the first account is overwritten by the second account's comparison |
| SourceGrouping.RssOnlyNeverMatches | code/src/source_grouping/main.py:50-52 | RSS origins are never compared, so an RSS-only entity never matches |
| SourceGrouping.AutoTwitterMatchedNeedsSameAccount | code/src/source_grouping/main.py:56-60 | `twitter_matched` requires a shared screen name |
| SourceGrouping.TryToMatchRules | code/src/source_grouping/main.py:174-200 | references pairs and marked entities are skipped; an auto merge is recorded iff the match is on Twitter, and marks both; other matches become suggestions |
| SourceGrouping.TryAllKeepsAutosDisjoint | code/src/source_grouping/main.py:189-191 | the marks keep the entities of recorded auto merges disjoint |
| SourceGrouping.AddSuggestion | code/src/source_grouping/main.py:257-261 | in the session, before the commit: the entity ends with a suggestion for the id, and nothing else changes |
| SourceGrouping.AddSuggestionAppends | code/src/source_grouping/main.py:248-261 | a new id is appended after the entity's list, a missing list counting as empty |
| SourceGrouping.SuggestedMergeSpec | code/src/source_grouping/main.py:235-261 | the session's content after the call, before the commit: only suggestions change, and no entity is added or removed |
| SourceGrouping.SuggestedMergeRules | code/src/source_grouping/main.py:248-261 | in the session, before the commit: each side holds one suggestion for the other; an existing one is not repeated; other entities are unchanged |
| SourceGrouping.SuggestedMergeIdempotent | code/src/source_grouping/main.py:235-261 | repeating a suggestion changes nothing |
| SourceGrouping.AppendSuggestion | code/src/source_grouping/main.py:257-258 | the `any` test and append give AddSuggestion's list in the session |
| SourceGrouping.SuggestedMergeEntities | code/src/source_grouping/main.py:235-261 | the session's content ends in SuggestedMergeSpec's state; what the later commit keeps is ApplyMatch's |
| SourceGrouping.SetMatchDone | code/src/source_grouping/main.py:226-228 | the bulk update sets `match_done` of that entity only, leaves every suggestion list as it was, and does nothing if the entity is gone |
| SourceGrouping.ApplyMatch | code/src/source_grouping/main.py:216-232 | the store after the commit as written, keeping the entity keys consistent; CommittedSuggestions says which suggestions survive |
| SourceGrouping.ApplyMatchIntended | code/src/source_grouping/main.py:216-228 | auto merges, then suggestions, then `match_done`, all stored, keeping the entity keys consistent |
| SourceGrouping.Committed | code/src/source_grouping/main.py:231-232 | the commit changes no table but the entities, keeps their ids, and can differ from the session only in `suggested_merges` |
| SourceGrouping.CommittedEntity | code/src/mana_common/orm.py:503 | one committed entity differs from the session's only in `suggested_merges` |
| SourceGrouping.CommittedSuggestions | code/src/source_grouping/main.py:248-261 | every field but `suggested_merges` is stored as the session holds it; the session's list is stored for an entity loaded without one or kept by an auto merge; any other entity keeps the list it was loaded with |
| SourceGrouping.NoStoredListsNothingLost | code/src/source_grouping/main.py:248-252 | when no entity had a list before the call, the commit stores every suggestion |
| SourceGrouping.SingleSuggestionMatch | code/src/source_grouping/main.py:216-228 | a call with one suggestion and no auto merge is that suggestion then `match_done`, with no merge-kept entity |
| SourceGrouping.SuggestionLostAsWritten | code/src/source_grouping/main.py:257-261 | an entity stored with a list keeps that list after a suggestion naming it, while its partner stores the suggestion; as intended the list would grow |
| SourceGrouping.IntendedMatchStoresSuggestion | code/src/source_grouping/main.py:235-261 | as intended, a suggestion leaves each side holding one for the other |
| SourceGrouping.AutosSnoc | code/src/source_grouping/main.py:216-218 | one more auto merge stores its merge, and its kept entity is tracked when it goes through |
| SourceGrouping.Commit | code/src/source_grouping/main.py:231-232 | the session's entities end as Committed describes |
| SourceGrouping.MatchEntity | code/src/source_grouping/main.py:169-232 | the store after the commit is ApplyMatch's, lost appends included, and the marks are the proposals' marks |
| SourceGrouping.CollectProposals | code/src/source_grouping/main.py:204-214 | the two matching loops collect the proposals TryAll describes |
| SourceGrouping.ApplyAutoMerges | code/src/source_grouping/main.py:216-218 | the auto merges run in order, keeping the keys matching, and return the kept entities whose suggestion lists the session tracks |
| SourceGrouping.ApplySuggestedMerges | code/src/source_grouping/main.py:220-223 | the suggested merges run in order, as ApplySuggestions describes |
| SourceGrouping.MarkMatchDone | code/src/source_grouping/main.py:225-228 | the bulk update ends in the state SetMatchDone describes |
| SourceGrouping.PassSpec | code/src/source_grouping/main.py:276-279 | the pass, each call committed as written, keeps the entity keys consistent |
| SourceGrouping.RunGrouping | code/src/source_grouping/main.py:264-283 | the LIFO pass ends in GroupingSpec's state, each call committed as written |
| SourceGrouping.PassPairsSound | code/src/source_grouping/main.py:204-214 | every comparison pairs the popped entity with a matched one or an unmatched one listed before it |
| SourceGrouping.PassPairsCount | code/src/source_grouping/main.py:276-279 | with distinct ids each such pairing is made exactly once |
| SourceGrouping.UnmatchedPairsComparedOnce | code/src/source_grouping/main.py:276-279 | two unmatched entities are compared once, the later one popped first |
| SourceGrouping.UnmatchedMeetsMatchedOnce | code/src/source_grouping/main.py:206-207 | an unmatched entity meets each matched one once |
| SourceGrouping.MatchedNeverCompared | code/src/source_grouping/main.py:276-279 | two matched entities are never compared with each other |
| SourceGrouping.EachEntityInOneAutoMergePerPass | code/src/source_grouping/main.py:180-191 | over a whole pass no entity takes part in two auto merges |
| SourceGrouping.OuterTwitterMatched | code/src/source_grouping/main.py:47-61 | `twitter_matched` can only become true through a screen name the two entities share |
| SourceGrouping.GroupingSpec | code/src/source_grouping/main.py:264-283 | a grouping run, with the lost appends, keeps every entity stored under its own id |
| SourceTagging.Select | code/src/source_tagging/main.py:43-44 | a query returns exactly the listed entities its filter keeps, in row order |
| SourceTagging.Query | code/src/source_tagging/main.py:42-47 | the query returns Select's ids |
| SourceTagging.Apply | code/src/source_tagging/main.py:24-25 | an update keeps the entity's id and name |
| SourceTagging.ApplyIdempotent | code/src/source_tagging/main.py:24-37 | applying a flag or the enrichment twice is applying it once |
| SourceTagging.UpdateEachPointwise | code/src/source_tagging/main.py:24-25 | a pass updates each selected entity once, from the store it started on, and no other |
| SourceTagging.PassPointwise | code/src/source_tagging/main.py:20-27 | each entity the filter keeps is updated, the others are not |
| SourceTagging.FlagPassOutcome | code/src/source_tagging/main.py:20-47 | only an ENTITY can become a candidate, and only its status changes |
| SourceTagging.TrustPassOutcome | code/src/source_tagging/main.py:51-65 | as intended: the trust pass gains trust from the evidence and changes only trust |
| SourceTagging.EnrichPassOutcome | code/src/source_tagging/main.py:31-39 | every candidate is enriched and no other entity changes |
| SourceTagging.TaggedEntity | code/src/source_tagging/main.py:73-93 | as intended, one entity after the step: promoted iff an ENTITY with enough evidence, trusted iff trusted or with enough evidence, enriched iff a candidate |
| SourceTagging.FlagPassesOutcome | code/src/source_tagging/main.py:86-90 | as intended, the two flagging passes set status and trust as TaggedEntity does, and nothing else |
| SourceTagging.TaggingSpec | code/src/source_tagging/main.py:73-93 | the step as intended keeps the entity keys and changes only entities |
| SourceTagging.TaggingOutcome | code/src/source_tagging/main.py:73-93 | as intended, the three passes do to each entity what TaggedEntity says |
| SourceTagging.TaggingNeverLowersStatus | code/src/source_tagging/main.py:42-47 | as intended, no status goes down; only an ENTITY can move up |
| SourceTagging.TaggedEntityNeverLowers | code/src/source_tagging/main.py:42-47 | tagging one entity never lowers its status, and changes it only from ENTITY |
| SourceTagging.TaggingKeepsBasis | code/src/source_tagging/main.py:73-93 | as intended, the step renames nothing and leaves origins, edges and groups alone |
| SourceTagging.TaggedEntityStable | code/src/source_tagging/main.py:73-93 | as intended, a tagged entity tagged again stays as it is |
| SourceTagging.TaggingIdempotent | code/src/source_tagging/main.py:73-93 | as intended, running the step twice changes nothing more |
| SourceTagging.TaggingIdempotentAt | code/src/source_tagging/main.py:73-93 | as intended, a second run leaves each entity exactly as the first run left it |
| SourceTagging.TaggingAsWritten | code/src/source_tagging/main.py:60-65 | the step as written, with the `is False` clause, keeps the entity keys |
| SourceTagging.AsWrittenTrustQueryEmpty | code/src/source_tagging/main.py:60-65 | `Entity.trusted is False` is the Python constant False, so the trust query selects nothing |
| SourceTagging.AsWrittenNeverTrusts | code/src/source_tagging/main.py:51-65 | as written, no entity's trust changes in this step |
| SourceTagging.TaggedEntityAsWritten | code/src/source_tagging/main.py:73-93 | as written, one entity after the step: promoted iff an ENTITY with enough evidence, trust unchanged, enriched iff a candidate |
| SourceTagging.TaggingAsWrittenOutcome | code/src/source_tagging/main.py:73-93 | the three passes as written do to each entity what TaggedEntityAsWritten says |
| SourceTagging.TrustQueryDiscrepancy | code/src/source_tagging/main.py:60-65 | an untrusted entity with enough evidence stays untrusted as written and becomes trusted as intended |
| SourceTagging.ApplyOne | code/src/source_tagging/main.py:24-25 | the loop body applies the update to one entity |
| SourceTagging.UpdateAll | code/src/source_tagging/main.py:24-25 | the loop over the selected ids ends in the fold's state |
| SourceTagging.UpdateSelected | code/src/source_tagging/main.py:20-27 | a pass runs its query, then the update on each selected entity |
| SourceTagging.RunTagging | code/src/source_tagging/main.py:73-93 | `main` as written ends in TaggingAsWritten's state |
| SourceTagging.RunTaggingAsIntended | code/src/source_tagging/main.py:73-93 | `main` with the intended trust query ends in TaggingSpec's state |
| SourceTagging.RunTaggingWith | code/src/source_tagging/main.py:73-93 | the three passes in order, with a given trust query, end in TaggingWith's state |
| SourceTagging.UpdateEach | code/src/source_tagging/main.py:20-39 | each `for e in entities` loop changes only the entities, keeping every one under its own id, and adds or removes none |
| SourceAcquisition.Lookup | code/src/source_acquisition/main.py:132-134 | `.first()` finds the first origin with the key, and None iff no origin has it |
| SourceAcquisition.UniqueAppend | code/src/source_acquisition/main.py:200-208 | an origin whose key is not yet stored can be added without creating a duplicate |
| SourceAcquisition.Bumped | code/src/source_acquisition/main.py:151-154 | `occurrences += 1` adds one to that origin and keeps the keys |
| SourceAcquisition.Associated | code/src/source_acquisition/main.py:222-239 | the profile lookup keeps the origin a Twitter origin with the same screen name |
| SourceAcquisition.AddTwitterOriginSpec | code/src/source_acquisition/main.py:195-219 | `add_twitter_origin` always returns an origin, only extends the origins and keeps the keys unique |
| SourceAcquisition.AddRssOriginSpec | code/src/source_acquisition/main.py:130-154 | the feed search changes only the origins of that base URL and keeps the keys unique |
| SourceAcquisition.WebUpsert | code/src/source_acquisition/main.py:166-184 | the web upsert only extends the origins and keeps the keys unique |
| SourceAcquisition.AddWebOriginSpec | code/src/source_acquisition/main.py:158-191 | `add_web_origin` only extends the origins and keeps the keys unique |
| SourceAcquisition.AddTwitterOriginCreates | code/src/source_acquisition/main.py:200-208 | an unknown screen name gets one origin with one occurrence, owned by a new non-reference entity named after it |
| SourceAcquisition.AddTwitterOriginIncrements | code/src/source_acquisition/main.py:209-215 | a known screen name gets one occurrence more on the first origin with it; no entity or origin is created and that origin is returned |
| SourceAcquisition.AddTwitterOriginCounts | code/src/source_acquisition/main.py:195-219 | either way the screen name has one occurrence more and the content relation is recorded |
| SourceAcquisition.AddWebOriginIgnores | code/src/source_acquisition/main.py:163-164 | a link matching `url_patterns_to_ignore` is not recorded at all |
| SourceAcquisition.AddWebOriginUpserts | code/src/source_acquisition/main.py:166-191 | any other link is counted once more by its base URL and its content relation is recorded |
| SourceAcquisition.WebUpsertCounts | code/src/source_acquisition/main.py:166-184 | the base URL has one occurrence more after the upsert |
| SourceAcquisition.AddRssOriginRules | code/src/source_acquisition/main.py:130-154 | a known feed gets one occurrence more; a new feed becomes an RSS origin with one occurrence, cleaned, derived from the web origin, with its owner; no feed changes nothing |
| SourceAcquisition.Cited | code/src/source_acquisition/main.py:261-268 | the edge carries the citing entity's group and id, and a missing group raises |
| SourceAcquisition.ProcessUrlsSpec | code/src/source_acquisition/main.py:277-281 | the link loop only extends the origins, keeps keys unique and saves no content |
| SourceAcquisition.ProcessMentionsSpec | code/src/source_acquisition/main.py:283-286 | the mention loop only extends the origins, keeps keys unique and saves no content |
| SourceAcquisition.ProcessTweetSpec | code/src/source_acquisition/main.py:273-286 | one tweet only extends the origins and keeps keys unique |
| SourceAcquisition.ProcessTweetsSpec | code/src/source_acquisition/main.py:272-286 | `process_tweets` only extends the origins and keeps keys unique |
| SourceAcquisition.KeptLinks | code/src/source_acquisition/main.py:279-281 | at most one origin per link |
| SourceAcquisition.ProcessUrlsCites | code/src/source_acquisition/main.py:277-281 | the link loop only adds edges carrying the reference's group and id and the tweet's content |
| SourceAcquisition.ProcessUrlsCount | code/src/source_acquisition/main.py:277-281 | it raises iff the reference has no group and some link is kept; otherwise one edge per kept link |
| SourceAcquisition.ProcessMentionsCites | code/src/source_acquisition/main.py:283-286 | the mention loop only adds edges carrying the reference's group and id and the tweet's content |
| SourceAcquisition.ProcessMentionsCount | code/src/source_acquisition/main.py:283-286 | it raises iff the reference has no group and there is a mention; otherwise one edge per mention |
| SourceAcquisition.ProcessTweetCites | code/src/source_acquisition/main.py:273-286 | the edges one tweet adds all record citations by the reference |
| SourceAcquisition.ProcessTweetsCites | code/src/source_acquisition/main.py:272-286 | every edge `process_tweets` adds records a citation by the reference, with its group |
| SourceAcquisition.ProcessTweetsRaisesOnlyWithoutGroup | code/src/source_acquisition/main.py:261-268 | a reference with a group never makes `process_tweets` raise |
| SourceAcquisition.NonReplies | code/src/source_acquisition/main.py:274 | at most one content per tweet |
| SourceAcquisition.ProcessTweetSaves | code/src/source_acquisition/main.py:274-275 | one tweet saves one content produced by the reference origin, unless it is a reply |
| SourceAcquisition.ProcessTweetsSavesTweetsOf | code/src/source_acquisition/main.py:243-247 | everything `process_tweets` saves is a tweet produced by the reference origin |
| SourceAcquisition.ProcessTweetsSkipsReplies | code/src/source_acquisition/main.py:272-275 | without an exception, one content per tweet that is not a reply |
| SourceAcquisition.MaxTweetId | code/src/source_acquisition/main.py:320-323 | the highest tweet id, or -1 for no tweets |
| SourceAcquisition.ProcessTwitterReferenceSpec | code/src/source_acquisition/main.py:298-326 | the timeline step keeps the keys of the origins and their uniqueness |
| SourceAcquisition.TimelineErrorMarksOrigin | code/src/source_acquisition/main.py:309-313 | a timeline error only marks the origin not validly extracted; its cursor stays |
| SourceAcquisition.CursorMovesToHighestId | code/src/source_acquisition/main.py:319-325 | the cursor becomes the highest id read when it is positive, and stays otherwise |
| SourceAcquisition.ProcessTwitterReferenceRaises | code/src/source_acquisition/main.py:298-326 | a reference with a group never makes the timeline step raise |
| SourceAcquisition.ProcessTwitterReferenceCites | code/src/source_acquisition/main.py:298-326 | the edges the timeline step adds all record citations by the reference |
| SourceAcquisition.TwitterPositions | code/src/source_acquisition/main.py:292-293 | the Twitter origins of the reference, in order |
| SourceAcquisition.ProcessReferenceSpec | code/src/source_acquisition/main.py:290-294 | `process_reference` keeps the keys of the origins and their uniqueness |
| SourceAcquisition.ReferenceEntities | code/src/source_acquisition/main.py:333-334 | the query returns stored reference entities only |
| SourceAcquisition.ProcessReferencesSpec | code/src/source_acquisition/main.py:330-345 | `process_references` keeps the keys of the origins and their uniqueness |
| SourceAcquisition.AcquisitionKeepsKeysUnique | code/src/source_acquisition/main.py:330-345 | acquisition never creates a second origin for a screen name or base URL |
| SourceAcquisition.ProcessReferenceCites | code/src/source_acquisition/main.py:290-294 | one reference only adds its own citations, and raises only without a group |
| SourceAcquisition.ProcessReferencesCites | code/src/source_acquisition/main.py:330-345 | every edge added records a citation by a reference entity with its group; the step raises only when some reference has no group |
| SourceAcquisition.InitEntitySpec | code/src/source_acquisition/main.py:348-368 | `init_entity` adds one entity at the end of the rows, and no edge or content |
| SourceAcquisition.InitEntityOrigins | code/src/source_acquisition/main.py:358-367 | the seeded entity owns exactly its new origins, none counted, with an RSS origin iff a feed is found for its site |
| SourceAcquisition.InitEntityWebAsAdminCreate | code/src/source_acquisition/main.py:362-367 | the web part ends in the same store as the admin import's `create_web_and_rss_origins` on the seeded store |
| SourceAcquisition.AddOccurrence | code/src/source_acquisition/main.py:151-154 | the method ends in Bumped's state |
| SourceAcquisition.CreateOrigin | code/src/source_acquisition/main.py:200-208 | a new origin with one occurrence and a new entity |
| SourceAcquisition.SaveOriginContentRelation | code/src/source_acquisition/main.py:251-257 | one content relation is recorded |
| SourceAcquisition.AddTwitterOrigin | code/src/source_acquisition/main.py:195-219 | the session and the result are AddTwitterOriginSpec's |
| SourceAcquisition.AddRssOrigin | code/src/source_acquisition/main.py:130-154 | the session ends in AddRssOriginSpec's state |
| SourceAcquisition.AddWebOrigin | code/src/source_acquisition/main.py:158-191 | the session and the result are AddWebOriginSpec's |
| SourceAcquisition.UpsertWebOrigin | code/src/source_acquisition/main.py:166-184 | the lookup-or-create of the web origin ends in WebUpsert's state and returns the origin and owner WebUpserted names |
| SourceAcquisition.CitedAddsCitation | code/src/source_acquisition/main.py:261-269 | saving the group relation adds only the edge of the reference, with its group and the content |
| SourceAcquisition.SaveOriginGroupRelation | code/src/source_acquisition/main.py:261-268 | the session and the raised flag are Cited's |
| SourceAcquisition.ProcessUrls | code/src/source_acquisition/main.py:277-281 | the loop ends in ProcessUrlsSpec's state |
| SourceAcquisition.ProcessMentions | code/src/source_acquisition/main.py:283-286 | the loop ends in ProcessMentionsSpec's state |
| SourceAcquisition.SaveTweetContent | code/src/source_acquisition/main.py:243-247 | one tweet content is saved, produced by the origin |
| SourceAcquisition.ProcessTweet | code/src/source_acquisition/main.py:273-286 | one iteration ends in ProcessTweetSpec's state |
| SourceAcquisition.ProcessTweets | code/src/source_acquisition/main.py:272-286 | the loop ends in ProcessTweetsSpec's state |
| SourceAcquisition.HighestId | code/src/source_acquisition/main.py:320-323 | the loop computes MaxTweetId |
| SourceAcquisition.ProcessTwitterReference | code/src/source_acquisition/main.py:298-326 | the session ends in ProcessTwitterReferenceSpec's state |
| SourceAcquisition.ProcessReference | code/src/source_acquisition/main.py:290-294 | the loop ends in ProcessReferenceSpec's state |
| SourceAcquisition.ProcessReferences | code/src/source_acquisition/main.py:330-345 | the loop ends in AcquisitionSpec's state |
| SourceAcquisition.SeedEntity | code/src/source_acquisition/main.py:348-361 | the entity and its Twitter origin are created |
| SourceAcquisition.InitEntity | code/src/source_acquisition/main.py:348-368 | the session ends in InitEntitySpec's state |
| ContentAnalysis.IntentsNamed | code/src/content_analysis/main.py:40 | the intents called the name, never more than were given |
| ContentAnalysis.ExtractConfidenceFirst | code/src/content_analysis/main.py:39-43 | the score is the confidence of the first intent with the name, and None iff there is no such intent |
| ContentAnalysis.CountSocialKeywords | code/src/content_analysis/main.py:106-108 | the count is 0 exactly when the keyword pattern finds nothing in the lowercased text |
| ContentAnalysis.KeptSentences | code/src/content_analysis/main.py:124-132 | the sentence filter never adds sentences |
| ContentAnalysis.KeptSentencesMembers | code/src/content_analysis/main.py:124-132 | a sentence is kept exactly when it names at most one social network |
| ContentAnalysis.QuietSentencesAllKept | code/src/content_analysis/main.py:124-132 | sentences that each name at most one network are all kept, in order |
| ContentAnalysis.QuietTextUnchanged | code/src/content_analysis/main.py:124-132 | a text none of whose ". "-sentences names two networks comes back unchanged |
| ContentAnalysis.RemoveSocialNetworkSentences | code/src/content_analysis/main.py:124-132 | the loop returns the kept sentences joined with ". " |
| ContentAnalysis.IsWorthAnalyzing | code/src/content_analysis/main.py:135-137 | a text of at most 50 characters (or None) is refused without consulting the NLU; a longer one is accepted iff the NLU finds it relevant |
| ContentAnalysis.ParameterStart | code/src/content_analysis/main.py:145 | the cut is at the first ',' or ';', or at the end |
| ContentAnalysis.MimeTypeIsLoweredPrefix | code/src/content_analysis/main.py:145 | the mime type is the lowercased header up to its first ',' or ';' and contains neither |
| ContentAnalysis.Cleansed | code/src/content_analysis/main.py:189 | the cleansed block text holds no newline |
| ContentAnalysis.CleansedSingleSpaced | code/src/content_analysis/main.py:189 | the cleansed text is the block's `split()` words joined by one space: its only whitespace is single spaces between words |
| ContentAnalysis.GatheredBound | code/src/content_analysis/main.py:182-197 | PDF accumulation stops before the limit is passed: the text is at most one newline over 50000 |
| ContentAnalysis.PdfTextWithinLimit | code/src/content_analysis/main.py:198-200 | the PDF text, without its first newline, is at most 50000 characters |
| ContentAnalysis.ExtractPdfText | code/src/content_analysis/main.py:180-202 | the page and block loops compute PdfText |
| ContentAnalysis.GatherPage | code/src/content_analysis/main.py:184-195 | the block loop of one page either hits the limit with the final text or leaves what gathering the remaining pages still yields unchanged |
| ContentAnalysis.RetrievedContent | code/src/content_analysis/main.py:145-211 | the text is at most 50000 characters; HTML type iff the mime type is text/html; PDF iff application/pdf; any other type gives no text |
| ContentAnalysis.RetrievedTruncation | code/src/content_analysis/main.py:206-211 | the final cut keeps the whole PDF text and the first 50000 characters of HTML text |
| ContentAnalysis.RetryFromOutcome | code/src/content_analysis/main.py:218-238 | only error 88 is retried; five of them in a row exhaust the loop, else the first other outcome decides |
| ContentAnalysis.RetryFromUsesFiveAttempts | code/src/content_analysis/main.py:218 | no more than five calls are made: later attempts cannot change the outcome |
| ContentAnalysis.FetchTimeline | code/src/content_analysis/main.py:218-238 | the retry loop computes Retried |
| ContentAnalysis.ProcessTweetsSpec | code/src/content_analysis/main.py:323-340 | `process_tweets` only appends tweet contents produced by the origin |
| ContentAnalysis.NonReplies | code/src/content_analysis/main.py:326 | at most one count per tweet |
| ContentAnalysis.SavedCount | code/src/content_analysis/main.py:328 | at most one save per tweet |
| ContentAnalysis.ProcessTweetsCounts | code/src/content_analysis/main.py:323-340 | the count is the number of non-replies; one content is saved per non-reply with text |
| ContentAnalysis.EmptyTweetsCounted | code/src/content_analysis/main.py:328-336 | saved never exceeds counted, and they agree iff every non-reply has text |
| ContentAnalysis.SaveTweetContent | code/src/content_analysis/main.py:344-348 | one tweet content is saved |
| ContentAnalysis.ProcessTweets | code/src/content_analysis/main.py:323-340 | the loop ends in ProcessTweetsSpec's state and count |
| ContentAnalysis.MaxTimelineId | code/src/content_analysis/main.py:245-248 | the highest tweet id, or -1 for no tweets |
| ContentAnalysis.HighestId | code/src/content_analysis/main.py:245-248 | the loop computes MaxTimelineId |
| ContentAnalysis.ProcessTwitterReferenceSpec | code/src/content_analysis/main.py:215-253 | the step keeps the kind of every origin |
| ContentAnalysis.TwitterErrorMarksOrigin | code/src/content_analysis/main.py:234-238 | a Twitter error other than 88 marks the origin invalid and returns 0, with nothing else changed |
| ContentAnalysis.RateLimitedOutRaises | code/src/content_analysis/main.py:218-240 | five rate-limit errors leave `tweets` unbound, so the step raises before any write |
| ContentAnalysis.TwitterCursorAndCount | code/src/content_analysis/main.py:240-253 | after a read the count is the non-replies and the cursor becomes the highest id when positive |
| ContentAnalysis.ProcessTwitterReference | code/src/content_analysis/main.py:215-253 | the session, count and raised flag are ProcessTwitterReferenceSpec's |
| ContentAnalysis.RssContents | code/src/content_analysis/main.py:310-313 | one RSS content per item, in order, with its text, link and origin |
| ContentAnalysis.SaveRssItems | code/src/content_analysis/main.py:310-313 | one RSS content per item is appended with consecutive fresh ids, and the count is the number of items |
| ContentAnalysis.ProcessRssReferenceSpec | code/src/content_analysis/main.py:303-319 | the step keeps the kind of every origin |
| ContentAnalysis.RssItemsSaved | code/src/content_analysis/main.py:303-319 | the rss path is cleaned, every item saved in order, the count is the number of items, and a feed timestamp becomes the cursor |
| ContentAnalysis.ProcessRssReference | code/src/content_analysis/main.py:303-319 | the session, count and raised flag are ProcessRssReferenceSpec's |
| ContentAnalysis.OwnedPositions | code/src/content_analysis/main.py:259 | the positions of the entity's origins, in order |
| ContentAnalysis.OriginStep | code/src/content_analysis/main.py:260-270 | one origin's step keeps the kind of every origin |
| ContentAnalysis.ProcessOrigin | code/src/content_analysis/main.py:260-270 | an origin the entity processes gives OriginStep's state, count and raised flag; any other changes nothing |
| ContentAnalysis.ProcessOriginsSpec | code/src/content_analysis/main.py:258-272 | the origin loop keeps the kind of every origin |
| ContentAnalysis.ProcessOriginsSnoc | code/src/content_analysis/main.py:259-270 | one more origin runs on what the loop left, unless it raised |
| ContentAnalysis.ProcessOriginsLastCounts | code/src/content_analysis/main.py:265-268 | the count is that of the last processed origin, not a sum |
| ContentAnalysis.ProcessOriginsSkips | code/src/content_analysis/main.py:261-270 | a Web origin, or a reference entity's Twitter origin, changes nothing |
| ContentAnalysis.ReferenceIgnoresTimelines | code/src/content_analysis/main.py:261-262 | a reference entity's result does not depend on the Twitter API |
| ContentAnalysis.ProcessEntity | code/src/content_analysis/main.py:256-272 | the session, count and raised flag are ProcessEntitySpec's |
| ContentAnalysis.CreateAnalysisForCompanies | code/src/content_analysis/main.py:835-872 | max(1, n) analyses; the first is the given one; the i-th carries company i with reason "fuzzy", and the others are new rows |
| ApiUtils.DuplicatesEntry | code/src/api/sources.py:27-29 | one error entry, carrying the message and the duplicates, iff something is duplicated |
| ApiUtils.Missing | code/src/api/utils.py:5-8 | the requested columns the sheet lacks, and only those |
| ApiUtils.MissingKeepsOrder | code/src/api/utils.py:6-8 | the missing columns are listed in the order they were requested |
| ApiUtils.CheckExcelForMissingColumns | code/src/api/utils.py:4-10 | nothing is raised iff every column is present; otherwise a 500 listing the missing columns |
| ApiUtils.Repeated | code/src/api/utils.py:13 | the cells whose value occurs at least twice in the column |
| ApiUtils.Unique | code/src/api/utils.py:13 | `unique()`: the same values, each once |
| ApiUtils.Reported | code/src/api/utils.py:14 | exactly the values that are neither None, "nan" nor "", without adding repeats |
| ApiUtils.ListDuplicates | code/src/api/utils.py:12-14 | each reportable value occurring at least twice, once each, and no other value |
| ApiUtils.ListDuplicatesEmpty | code/src/api/utils.py:12-14 | nothing is reported exactly when no reportable value repeats |
| ApiUtils.ListDuplicatesSkipsBlanks | code/src/api/utils.py:14 | None, "nan" and "" are never reported, however often they occur |
| ApiUtils.DuplicatesCheck | code/src/api/sources.py:22-33 | nothing is raised iff no column has duplicates; otherwise one to three entries, each a column's non-empty duplicate list under its message, with the given status |
| ApiAuth.KeyList | code/src/api/auth.py:15-17 | no list when the variable is unset or empty; otherwise comma-free keys whose ","-join is the variable |
| ApiAuth.RolesFromApiKey | code/src/api/auth.py:23-30 | ADMIN iff the admin list is unset or holds the key; READ_ONLY likewise; in that order, each once |
| ApiAuth.Accepted | code/src/api/auth.py:38 | the key's roles that the endpoint accepts |
| ApiAuth.CheckRole | code/src/api/auth.py:33-39 | passes iff the key holds an accepted role; otherwise 401 iff it holds no role, else 403 |
| ApiAuth.UnconfiguredKeysOpenEverything | code/src/api/auth.py:15-30 | with no key lists configured, any key, even none, gets both roles and passes an ADMIN check |
| ApiAuth.ReadOnlyKeyForbiddenAdmin | code/src/api/auth.py:33-39 | a key listed only as read-only gets 403 on an ADMIN endpoint |
| ApiAuth.UnknownKeyUnauthorized | code/src/api/auth.py:23-39 | with both lists configured, an unlisted or missing key gets 401 on any endpoint |
| ApiCompanies.BracketClose | code/src/api/companies.py:16 | the lazy `.*?` stops at a closing bracket |
| ApiCompanies.RemoveBracketed | code/src/api/companies.py:16 | removing bracketed spans only drops characters |
| ApiCompanies.BracketCloseFirst | code/src/api/companies.py:16 | a match opened at a bracket ends at the first closing bracket on the same line |
| ApiCompanies.RemoveBracketedPlain | code/src/api/companies.py:16 | a text without an opening bracket is left as it is |
| ApiCompanies.RemoveBracketedSpan | code/src/api/companies.py:16 | the shortest "(…)" or "[…]" span is cut out and the scan goes on after it |
| ApiCompanies.CleanCompanyValue | code/src/api/companies.py:15-16 | the result has no '/', no surrounding whitespace, and only characters of the input or ',' |
| ApiCompanies.CleanCompanyValuePlain | code/src/api/companies.py:15-16 | a name without brackets, '/' or surrounding whitespace is already clean |
| ApiCompanies.SplitSynonyms | code/src/api/companies.py:38-42 | the comma-split pieces of every present synonyms cell, none of them empty cells |
| ApiCompanies.AllValues | code/src/api/companies.py:36-44 | a value is listed iff it is a name or a comma-split synonym |
| ApiCompanies.AllValuesRepeat | code/src/api/companies.py:22-23 | a value repeats in the combined column exactly when it is both a name and a synonym |
| ApiCompanies.CheckCompaniesDuplicates | code/src/api/companies.py:18-33 | nothing is raised iff the three duplicate checks find nothing; otherwise a 409 carrying an error list |
| ApiCompanies.CompaniesDuplicatesEntries | code/src/api/companies.py:18-33 | each of the one to three entries is the names, synonyms or cross-column list, non-empty, under its message |
| ApiCompanies.SharedSynonymPassesCheck | code/src/api/companies.py:18-45 | two rows whose synonym cells `a,b` and `b,c` share `b` pass the check although `b` is split out twice |
| ApiCompanies.TwoRowsPass | code/src/api/companies.py:18-33 | two rows with different names, different synonym cells and no name among the synonyms pass the check |
| ApiCompanies.CompaniesDuplicatesRule | code/src/api/companies.py:18-33 | refused iff a name repeats, a synonyms cell repeats, or a value is both a name and a synonym |
| ApiCompanies.AnalysedCompanies | code/src/api/companies.py:49-50 | the join yields exactly the companies some analysis names |
| ApiCompanies.UsedCompanies | code/src/api/companies.py:49-52 | the companies some analysis names, each once |
| ApiCompanies.KeptMembers | code/src/api/companies.py:54 | the companies left are those in use |
| ApiCompanies.UnusedMembers | code/src/api/companies.py:54-58 | the companies deleted are those not in use |
| ApiCompanies.WithoutMembers | code/src/api/companies.py:57 | deleting a company deletes its synonyms and no other |
| ApiCompanies.DeleteUnusedSpec | code/src/api/companies.py:46-60 | the companies no analysis names are deleted with their synonyms; the names in use are kept and returned once each |
| ApiCompanies.DeleteUnusedPartitions | code/src/api/companies.py:54-58 | each stored company is either kept or deleted, never both |
| ApiCompanies.CompaniesUsedByAnalysis | code/src/api/companies.py:48-52 | the query loop computes UsedCompanies |
| ApiCompanies.DeleteAllBut | code/src/api/companies.py:54-58 | the deletion loop keeps exactly the companies in use and returns the others |
| ApiCompanies.DeleteCompaniesNotUsedByAnalysis | code/src/api/companies.py:46-60 | the session and the two lists are DeleteUnusedSpec's |
| ApiCompanies.JoinedCell | code/src/api/companies.py:83-85 | a marker cell is empty until its first value |
| ApiCompanies.RowSynonyms | code/src/api/companies.py:66-68 | an empty synonyms cell gives None; otherwise cleaned pieces without '/' |
| ApiCompanies.ProcessCompanyRowSpec | code/src/api/companies.py:64-97 | a row is marked Created iff the company is unknown, else Updated; the Added_Synonyms cell lists its synonyms; no other table changes |
| ApiCompanies.ProcessCompanyRowSynonyms | code/src/api/companies.py:70-97 | after its row a company holds exactly the row's synonyms, created or updated; other companies keep theirs |
| ApiCompanies.ProcessCompanyRowKeepsOwned | code/src/api/companies.py:70-90 | a row leaves its company stored and every synonym owned by a stored company |
| ApiCompanies.ProcessCompaniesSpec | code/src/api/companies.py:62-99 | the import raises iff some name cell is empty; otherwise one mark per row, each Created or Updated |
| ApiCompanies.DeleteSynonymsOf | code/src/api/companies.py:79-85 | every synonym of the company is deleted and its name appended to Deleted_Synonyms |
| ApiCompanies.AttachSynonyms | code/src/api/companies.py:87-95 | one synonym row per piece, each appended to Added_Synonyms |
| ApiCompanies.ProcessCompanyRow | code/src/api/companies.py:63-97 | one row ends in ProcessCompanyRowSpec's state and marks |
| ApiCompanies.ProcessCompanies | code/src/api/companies.py:62-99 | the row loop ends in ProcessCompaniesSpec's state |
| ApiCompanies.CreatedNames | code/src/api/companies.py:103 | the names marked Created; a missing column gives none |
| ApiCompanies.UpdatedNames | code/src/api/companies.py:107 | the names marked Updated; a missing column gives none |
| ApiCompanies.Minus | code/src/api/companies.py:102-105 | set difference, each once |
| ApiCompanies.Intersection | code/src/api/companies.py:106 | set intersection, each once |
| ApiCompanies.CompaniesKpis | code/src/api/companies.py:101-119 | cant_delete = flagged − sheet; deleted = deleted − created; added = created − deleted; updated = (created ∩ deleted) plus Updated; every count is its list's length; the marks are those the import wrote, which holds when the uploaded sheet brings no Created or Updated column of its own |
| ApiCompanies.CompaniesKpisSplitCreated | code/src/api/companies.py:103-106 | added plus re-created equals the distinct created names, and no company is both added and deleted |
| ApiSources.CheckSourcesDuplicates | code/src/api/sources.py:22-33 | nothing is raised iff no column has duplicates; otherwise a 500 whose one to three entries are the Source, Twitter and Web duplicate lists |
| ApiSources.SourcesDuplicatesRule | code/src/api/sources.py:22-33 | refused iff a reportable source name, screen name or web site occurs twice |
| ApiSources.FindGroup | code/src/api/sources.py:41 | the first stored group with the name, and None iff there is none |
| ApiSources.ProcessGroupsRules | code/src/api/sources.py:35-49 | afterwards every group of the sheet is stored; the names returned are exactly the sheet's new ones, each once; old groups stay; nothing else changes |
| ApiSources.ProcessGroups | code/src/api/sources.py:35-49 | the loop ends in ProcessGroupsSpec's state and list |
| ApiSources.ProcessGroupsStored | code/src/api/sources.py:35-49 | after the loop every group named in the sheet exists |
| ApiSources.ProcessGroupsAdded | code/src/api/sources.py:35-49 | the names added are exactly the sheet's groups that did not exist before, each once |
| ApiSources.ProcessGroupsFrame | code/src/api/sources.py:35-49 | the loop only adds groups and fresh ids; nothing else in the store changes |
| ApiSources.AppendNew | code/src/api/sources.py:97-99 | the existing tags are kept, first and in order |
| ApiSources.AppendNewRules | code/src/api/sources.py:97-99 | the tags are the union of old and new, and no tag is repeated when the old list had none |
| ApiSources.AppendNewIdempotent | code/src/api/sources.py:97-99 | importing the same tags twice gives what importing them once gives |
| ApiSources.AppendNewKnown | code/src/api/sources.py:97-99 | tags all already present change nothing |
| ApiSources.AddTags | code/src/api/sources.py:97-99 | the tag loop computes AppendNew |
| ApiSources.UpdatedTags | code/src/api/sources.py:95-103 | an empty tags cell resets the tags to []; an untagged entity gets the sheet's split tags |
| ApiSources.UpdatedTagsUnion | code/src/api/sources.py:96-99 | with tags on both sides, the old tags come first and then the new ones not yet present |
| ApiSources.GroupOf | code/src/api/sources.py:58-61 | a group is found iff the cell names a stored group |
| ApiSources.CreateSourceRecords | code/src/api/sources.py:51-71 | a new entity is added at the end of the rows, with its Twitter origin, web origin and (when a feed is found) RSS origin, all owned by it; nothing existing changes |
| ApiSources.CreateSourceFields | code/src/api/sources.py:51-61 | the created source is a SOURCE with the row's name, flags, location, ecoregion, comma-split tags and (when stored) group |
| ApiSources.CreateSource | code/src/api/sources.py:51-71 | the session ends in CreateSourceSpec's state |
| ApiSources.FirstOwned | code/src/api/sources.py:107 | the first origin of the entity of that kind, and None iff it has none |
| ApiSources.UpdatedFields | code/src/api/sources.py:76-103 | status SOURCE; group when found; reference and trusted only raised; location and ecoregion when given; tags merged; no other field changes |
| ApiSources.Renamed | code/src/api/sources.py:116-120 | the renamed origin carries the new screen name |
| ApiSources.UpdateTwitterSpec | code/src/api/sources.py:105-125 | the Twitter step, as the session holds it before the flush, changes no entity, row or group |
| ApiSources.UpdateTwitterKeepsScreenNamesUnique | code/src/mana_common/orm.py:551 | on unique screen names, the Twitter step keeps them unique iff it does not create an origin for an entity with none under a name already held, which is the origin the database refuses |
| ApiSources.Unlinked | code/src/api/sources.py:154 | exactly the RSS origins derived from the web origin lose that link |
| ApiSources.RelinkFeed | code/src/api/sources.py:138-154 | the feed step only touches RSS origins and adds origins, never removes one |
| ApiSources.UpdateWebSpec | code/src/api/sources.py:127-162 | the web step changes no entity, row or group |
| ApiSources.UpdateSourceSpec | code/src/api/sources.py:73-164 | only the updated entity's fields change among the entities |
| ApiSources.UpdateSourceOneWay | code/src/api/sources.py:76-87 | the entity is left a SOURCE, and is_reference and trusted are never cleared: each is set iff it was set or the sheet says True |
| ApiSources.UpdateSourceOnlyThisEntity | code/src/api/sources.py:73-164 | no other entity changes |
| ApiSources.TwitterRenameConflict | code/src/api/sources.py:111-114 | a screen name held by another origin changes nothing |
| ApiSources.TwitterRenameFree | code/src/api/sources.py:115-120 | a free screen name renames the first Twitter origin in place, with nothing else changed |
| ApiSources.WebChangeSetsAllUrls | code/src/api/sources.py:132-136 | a changed web site sets raw, base and expanded url together |
| ApiSources.WebUnchangedKeepsStore | code/src/api/sources.py:132-158 | an unchanged web site changes nothing |
| ApiSources.WebChangeWithoutFeedUnlinks | code/src/api/sources.py:152-154 | with no feed found, no RSS origin stays derived from the web origin |
| ApiSources.UpdateTwitter | code/src/api/sources.py:105-125 | the session ends in UpdateTwitterSpec's state |
| ApiSources.UpdateWeb | code/src/api/sources.py:127-162 | the session ends in UpdateWebSpec's state |
| ApiSources.UpdateFields | code/src/api/sources.py:76-103 | the entity becomes UpdatedFields' |
| ApiSources.UpdateSource | code/src/api/sources.py:73-164 | the session ends in UpdateSourceSpec's state |
| ApiSources.EntityNamed | code/src/api/sources.py:174 | the first entity with the name in row order, and None iff there is none |
| ApiSources.TwitterNamed | code/src/api/sources.py:176 | the first Twitter origin with the screen name, and None iff the cell is empty or no origin has it |
| ApiSources.TargetOf | code/src/api/sources.py:178-194 | an update, and a clash over a held screen name, always concern a stored entity |
| ApiSources.TargetRule | code/src/api/sources.py:178-194 | a source is created iff neither its name nor its screen name is known; an entity with the name is the one updated, unless it has no Twitter origin and another origin holds the row's screen name, where the row clashes |
| ApiSources.SourceRowsSpec | code/src/api/sources.py:171-195 | without an exception, one mark per row; an orphan screen name or a clash over a held one raises with fewer marks than rows |
| ApiSources.SourceRowsStep | code/src/api/sources.py:171-194 | each row is marked Created iff it is new to the store the earlier rows left; an orphan Twitter origin, or a clash over a held screen name, raises |
| ApiSources.ImportClashRaises | code/src/api/sources.py:123-125 | a row naming an entity with no Twitter origin and a screen name another origin holds ends the import with an exception and no marks |
| ApiSources.ProcessSourceRow | code/src/api/sources.py:172-194 | one row's mark and new state; no mark exactly when the row raises, on an orphan or a clashing screen name |
| ApiSources.ProcessSourceRows | code/src/api/sources.py:171-194 | the row loop ends in SourceRowsSpec's state, marks and raised flag, the clash included |
| ApiSources.ProcessSources | code/src/api/sources.py:166-195 | the import ends in ProcessSourcesSpec's state and marks |
| ApiSources.MarkedNames | code/src/api/sources.py:198-200 | exactly the names whose row carries the mark |
| ApiSources.ComputeSourcesKpis | code/src/api/sources.py:197-207 | the added and updated lists are the names marked Created and Updated; the deleted list is empty; each count is its list's length; the marks are those the import wrote, which holds when the uploaded sheet brings no Created, Updated or Deleted column of its own |
| ApiSources.SourcesKpisCoverRows | code/src/api/sources.py:198-204 | the added and updated counts sum to the number of rows |
| ApiSources.ImportReportsEveryRow | code/src/api/sources.py:166-204 | an import that does not raise reports every row of the sheet once |
| ApiMain.CheckBasicAuth | code/src/api/main.py:74-86 | passes iff basic auth is not configured or the four values are ASCII and both user name and password match; a 401 "Incorrect credentials" on a mismatch of ASCII values; a 500 when `compare_digest` raises on a non-ASCII one |
| ApiMain.WrongPasswordRefused | code/src/api/main.py:78-86 | once configured, a wrong password is refused whatever the user name |
| ApiMain.NonAsciiPasswordAlwaysFails | code/src/api/main.py:78-79 | with a configured password that is not ASCII, every request gets a 500 |
| ApiMain.XlsxGuard | code/src/api/main.py:115-116 | nothing is raised iff the file name ends with ".xlsx"; otherwise 400 "Expecting an xlsx file." |
| ApiMain.XlsxGuardIsExact | code/src/api/main.py:188-189 | the suffix test is exact and case-sensitive: ".xls" and ".XLSX" are refused |
| ApiMain.CompanyColumn | code/src/api/main.py:148-149 | the company of each joined row |
| ApiMain.SynonymsForMembers | code/src/api/main.py:150-155 | a synonym is listed under a company exactly when some joined row pairs them |
| ApiMain.CompanyDtos | code/src/api/main.py:145-161 | one DTO per distinct company, no company twice, each with its non-null synonyms in row order |
| ApiMain.UniqueSnoc | code/src/api/main.py:151-152 | a new company is appended to the key order; a known one keeps it |
| ApiMain.SynonymsForSnoc | code/src/api/main.py:151-155 | one more joined row appends its synonym to its company only, and only when it is not None |
| ApiMain.DictKeyStep | code/src/api/main.py:151-155 | one row keeps every dictionary entry equal to its company's DTO |
| ApiMain.SynonymsForUnlisted | code/src/api/main.py:152-155 | a company absent from the join has no synonyms |
| ApiMain.DictStep | code/src/api/main.py:149-155 | the dictionary invariant is kept by each joined row |
| ApiMain.CompaniesDict | code/src/api/main.py:146-155 | the loop builds one entry per company, in first-appearance order |
| ApiMain.GetCompaniesWrapped | code/src/api/main.py:145-161 | the endpoint returns CompanyDtos of the joined rows |
| ApiMain.CompanyWithoutSynonyms | code/src/api/main.py:152-154 | a company joined with no synonym is listed with an empty list |
| ApiMain.MergeReplyOf | code/src/api/main.py:214-223 | committed iff the merge succeeded; success returns the message, refusal is 409 carrying it |
| ApiMain.RefusedMergeChangesNothing | code/src/api/main.py:218-221 | a refused merge answers 409, commits nothing and leaves the store as it was |
| ApiMain.MergeTwoEntities | code/src/api/main.py:214-223 | the session and the reply are those of the merge and MergeReplyOf |
| ApiMain.UnlocatedPositions | code/src/api/main.py:234-235 | exactly the Twitter origins without location, in table order |
| ApiMain.Handled | code/src/api/main.py:241 | the first min(n, 200) of them |
| ApiMain.Located | code/src/api/main.py:242-250 | a returned location is stored; a missing url marks the origin invalid; id, owner and name are kept |
| ApiMain.Failed | code/src/api/main.py:248-250 | at most one failed account per handled origin |
| ApiMain.TwitterLocationSpec | code/src/api/main.py:233-258 | updated = min(n, 200), updated + left = n, the failed count is its list's length; only origins change |
| ApiMain.TwitterLocationRules | code/src/api/main.py:241-250 | only handled origins change; each gets the returned location, and is marked invalid exactly when its lookup finds no url |
| ApiMain.TwitterLocationCap | code/src/api/main.py:241-255 | over 200 unlocated origins, exactly 200 are updated and the rest is reported as left |
| ApiMain.FailedSnoc | code/src/api/main.py:248-250 | one more handled origin adds its screen name iff its url is None |
| ApiMain.LocatedOriginsSnoc | code/src/api/main.py:242-250 | one more handled origin changes that origin only |
| ApiMain.HandledPositions | code/src/api/main.py:241 | the handled positions are increasing positions of Twitter origins |
| ApiMain.LocateHandled | code/src/api/main.py:241-250 | the loop leaves LocatedOrigins and returns Failed |
| ApiMain.GetTwitterLocation | code/src/api/main.py:233-258 | the session and report are TwitterLocationSpec's |
| ApiTests.CompanyLabel | code/src/api/tests.py:20 | "NO_COMPANY" exactly when the company is missing or empty (or is that label); otherwise the company itself |
| ApiTests.ManaAssistantResult | code/src/api/tests.py:22-26 | flag 0 iff NON_MANA, flag 1 iff OUI_MANA, anything else (or none) iff NOT_EVALUATED |
| ApiTests.ManaAssistantScore | code/src/api/tests.py:28 | a present score is reported as is; a missing one as 0 |
| ApiTests.StatusTextInjective | code/src/api/tests.py:39 | distinct statuses, None included, give distinct strings |
| ApiTests.ExceptionText | code/src/api/tests.py:40 | the exception text, or "None" when there is none |
| ApiTests.TestResults | code/src/api/tests.py:8-45 | one result per submitted content, in order, each with one DTO per returned analysis, in order |
| ApiTests.TestResultsSnoc | code/src/api/tests.py:11-44 | one more content appends its result |
| ApiTests.EmptyAnalysisDefaults | code/src/api/tests.py:20-28 | an analysis with no company, match, flag or score gets NO_COMPANY, NO_MATCH, NOT_EVALUATED and 0 |
| ApiTests.AnalysisToDto | code/src/api/tests.py:19-42 | the labels of one analysis are AnalysisDtoOf's |
| ApiTests.AnalyseTestContents | code/src/api/tests.py:8-45 | the nested loops return TestResults |

## Left out

**Network and outside services**

- Twitter, HTTP, feed parsing, HTML and PDF parsing, and the Watson NLU, Assistant and Translator services are not modelled. Their results are parameters (see above). This covers `retryable_twitter_api`, `get_twitter_infos`, `is_twitter_rate_limit`, `find_rss_feed`, `get_redirect_javascript`, `find_useful_div`, `is_useful_paragraph`, `extract_rss_content`, `translate`, `nlu_analysis`, `send_message_to_assistant` and the client factories.
- The 60-second sleep between rate-limited timeline reads is not modelled: time is not part of the model. `filter_date` and `initialize_analysis` are left out for the same reason.

**Content analysis**

- `daniel_evaluation` and `analyse_content` are not modelled. They are floating-point sentiment and emotion scoring, plus stateful assistant conversations. In the test endpoint, `analyse_content` is a parameter.
- The drivers `load_new_content`, `analyse_contents` and `main` of content analysis are not modelled. They are loops around network-bound steps that log and swallow exceptions.
- `load_cache_companies` is not modelled, because it only fills an in-process cache.

**Persistence**

- ApiSources.UpdateTwitterSpec: describes the session before the flush, so for an entity with no Twitter origin it adds one even under a held screen name. The database refuses that origin, and the model raises for it in `process_sources` (`ApiSources.TargetOf`, the Clash target) rather than in this step. ApiSources.UpdateTwitter, ApiSources.UpdateSourceSpec and ApiSources.UpdateSource describe the same session state.
- SourceAcquisition.InitEntitySpec: `init_entity` adds its Twitter origin without a lookup, and the flush would raise for a seed repeating a stored screen name. The model adds the origin. `init_entity` seeds a freshly created schema. SourceAcquisition.SeedEntity and SourceAcquisition.InitEntity describe the same state.
- The SQLAlchemy engine is not modelled, and neither are `setup_db`, `get_session`, `kickstart_db_if_needed` or the environment overrides and caching of `get_config`. The `Session` class stands for them.
- Transactions are not modelled beyond the commit at the end of `match_entity`: nothing in the core runs concurrently, and failures are not injected. That commit is modelled because it decides which suggestion appends are stored (`SourceGrouping.Committed`).
- SourceGrouping.SuggestedMergeSpec: `Query.get` returns an entity that an earlier merge of the same call deleted without a flush, and the source would then suggest a merge with a deleted entity. The model looks the id up in the store, where the deleted entity is already gone, and skips the suggestion. SourceGrouping.SuggestedMergeRules, SourceGrouping.AddSuggestion, SourceGrouping.AppendSuggestion, SourceGrouping.SuggestedMergeEntities and SourceGrouping.ApplySuggestedMerges describe the same session state.
- SourceGrouping.ApplyMatch: the model stores, for each entity, either its session list or its loaded list. An autoflush between an assignment and a later append (the `Query.get` of the next suggestion, or the `UPDATE` of `match_done`) would store the list as it was at that flush and lose later appends too; the model does not follow the identity map and autoflush that far. SourceGrouping.MatchEntity, SourceGrouping.PassSpec, SourceGrouping.GroupingSpec and SourceGrouping.RunGrouping inherit this.
- `kickstart` and `init_data` seed fixed tables and read a seed sheet, so they are not modelled. The `main` functions of acquisition and grouping are represented by the passes they run.

**Admin API**

- `api/data.py` builds SQL strings and a pandas export, and `api/dto.py` only declares pydantic shapes. Neither is modelled beyond the DTO shapes used here.
- FastAPI routing, the Swagger pages and the HTTPBasic set-up are not modelled.
- `delete_company_from_db` and its endpoint `delete_company` are not modelled. They are bulk SQL deletes with counts.
- The network test endpoints `extract_rss_articles` and `extract_content_from_url` (api/tests.py) are not modelled.
- Logging (`set_logger`, `flush_logs`, `log.*`) is not modelled.

**Contracts deliberately weaker than the code**

- SourceAcquisition.Associated: the failure path of `retrieve_and_associate_twitter_profile` is not modelled. On a Twitter error the source still adds an unattached `TwitterProfile` row carrying the error text. The model keeps profiles only inside their origin, so that row has no place in it.
- ApiSources.CreateSourceFields: a blank Reference or Trusted cell is stored as NULL by the source. The model's flags are `bool`, so a blank cell is false.
- ContentAnalysis.ProcessOrigin: an entity whose `is_reference` is NULL passes neither `is True` nor `is False`, so the source discards its Twitter origins. The model's flag is `bool`, so such an entity counts as not a reference and its Twitter origins are processed.
- ContentAnalysis.ProcessEntity: the same NULL `is_reference` case as ProcessOrigin; it is not modelled.
- ApiCompanies.ProcessCompaniesSpec: a synonym inserted twice, or one already owned by a company the sheet does not name, breaks the primary key `CompanySynonym.name` at the flush, and the request fails. The model appends the row and raises nothing; `ApiCompanies.SharedSynonymPassesCheck` shows that the duplicate check lets such a sheet through. The same holds for ApiCompanies.ProcessCompanies.
- PyStrings.Lower: only ASCII letters are lowered; Python's `lower()` also maps other Unicode letters. SourceGrouping.IsAutoMatchUrls, SourceGrouping.IsSuggestedMatchStrings, SourceGrouping.SuggestedStringsIgnoreCase, ContentAnalysis.MimeType and ContentAnalysis.CountSocialKeywords inherit this.
- ApiCompanies.AllValues: Python lists `set(...)` in an unspecified order. The model lists values in order of first appearance; the contract states membership only, and no caller depends on the order. The same holds for ApiCompanies.Minus, ApiCompanies.Intersection and ApiCompanies.UsedCompanies.
- ApiMain.GetCompaniesWrapped: the rows of the outer join are a parameter, in the order the query returns them.
- ApiTests.AnalysisToDto: `str(a.company_match)` is a parameter `render`. A company match is always a non-empty dictionary, so it is never falsy.
- ContentAnalysis.RetrievedContent: the HTML branch takes the joined text of the useful `div` as produced by the parser. The paragraph pruning and the search for the useful `div` are outside the model.
- Orm.DefaultConfig: the `config` row's defaults are modelled; environment overrides are not.

## Findings

| source | as written | input that shows it | evidently intended | confidence | as-written member | corrected member |
|---|---|---|---|---|---|---|
| code/src/mana_common/orm.py:293-294 | `for o in entity_to_wipe.origins: o.entity = entity_to_keep` re-owns each origin through the relationship back-reference, which removes it from the list being iterated, so the loop skips every second origin | an absorbed entity with two origins `[a, b]`: only `a` moves, and `b` loses its owner when the absorbed entity is deleted (`Orm.MergeLosesSecondOrigin`) | every origin of the absorbed entity is re-owned by the kept entity | medium; not executed | Orm.MergeSpec | Orm.MergeIntended |
| code/src/source_grouping/main.py:257-261 | `entity.suggested_merges.append(...)` mutates a list held in a plain `ARRAY(JSON)` column, which the session does not track, so the commit keeps the loaded list | an entity `a` stored with suggestions `l` not naming `c`, and `c` stored with none: a suggestion `(a, c)` stores `c` with `[a]` and leaves `a` with `l` (`SourceGrouping.SuggestionLostAsWritten`) | both sides store the new suggestion, as for an entity that had no list | medium; not executed | SourceGrouping.ApplyMatch | SourceGrouping.ApplyMatchIntended |
| code/src/source_tagging/main.py:60-65 | the filter `Entity.trusted is False` is evaluated by Python to the constant `False` before the query is built, so the trusted-candidate query selects no entity | any untrusted entity with enough occurrences and groups: `flag_trusted_candidates` never sees it, and it stays untrusted | the filter `Entity.trusted == False`, selecting the untrusted entities | high; not executed | SourceTagging.TaggingAsWritten | SourceTagging.TaggingSpec |
