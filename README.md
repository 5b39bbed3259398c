# Census record linkage (match1880), modelled in Dafny

This project models the core of a record-linkage tool. The tool links people
in the 1870 and 1880 censuses of Albemarle County. Each census is a list of
rows. A row is a map of string columns: line number, names, gender, race,
birth year and place, family, relation to the head, and so on. The tool
proceeds in stages:

- **Blocking.** `getBlockKeys` gives every row up to three keys. Rows that
  share a key are put in the same block.
- **Scoring.** `calculateScore` scores each 1870/1880 pair inside a block.
  A pair that clears a floor becomes a candidate and gets a tier.
- **Resolution.** Candidates are sorted by descending score and accepted
  greedily. No 1870 line and no 1880 line is used twice.
- **Household boosting** (optional). Around tier-1 anchors, pairs of members
  of the same household get context bonuses and may be re-tiered.
- **Finalisation.** The accepted pairs are filed into three tier lists. The
  ego-id bookkeeping hands out fresh ids to exported tier-1 matches.

The project models three revisions of blocking and scoring. Their weights
differ on purpose:

- the browser application `app.js`;
- the stand-alone matcher `resources/matcher_logic.js`;
- the permissive `match.js`, with its `mode` switch.

It also models:

- the relation finder `relations.js`;
- the Turtle (RDF) writer `triplets.js`;
- the CSV reader and writer of the command-line driver
  `resources/run_matching.js`;
- the spreadsheet macro `mapValuesToRow` in `extension_scripts.js`.

Modules, one per file:

- `Strings`: JavaScript string built-ins, ASCII only.
- `Census`:
  - `Row`, `Candidate` and `Scored`;
  - check lists that model `score += …; details.push(…)`;
  - `OrderedMap`, which models an insertion-ordered `Map`.
- `Blocking` and `Ranking`: the stage code `app.js` and `matcher_logic.js`
  share. Its parameters are the key function, the scorer, the floor and the
  tier cut points.
- `AppScore`, `AppBoost`, `Households`, `AppLogic`: `app.js`.
- `MatcherLogic`: `resources/matcher_logic.js`.
- `Match`: `match.js`.
- `Relations`: `relations.js`.
- `Triplets`: `triplets.js`.
- `RunMatching`: `resources/run_matching.js`.
- `ExtensionScripts`: `extension_scripts.js`.

How the code's form carries over:

- Pure code becomes functions and lemmas.
- Every `forEach`/`for` loop of the source is a `method` with a loop. Each is
  proved equal to a left-fold specification function, and the properties are
  lemmas about that function.
- The `App` object becomes a class; so do `findRelations`' side effects on
  `app.candidates` and the spreadsheet.

The Jaro-Winkler similarity is a function parameter (`Census.Similarity`),
and nothing is assumed of it: every property proved here holds for every
similarity function.

## Model

| member | source | states |
|---|---|---|
| AppScore.BlockKeys | app.js:68-93 | No key when the race initial or the upper-cased gender is empty; otherwise at most three keys, each `B<n>:`, in strictly increasing tag order |
| AppScore.BlockKeysPresent | app.js:73-91 | With race and gender present, key B1 exists iff NYSIIS last and normalised first names are present, B2 iff first name and `birth_year_10 \|\| birth_year`, B3 iff a last name (one of the three spellings) and birth place |
| AppScore.BlockKeysDistinct | app.js:82-92 | No record gets the same block key twice |
| AppScore.FieldsOf | app.js:100-116 | The compared fields are the upper-cased columns; the 1880 last name is `last_name`, else `last-_name` |
| AppScore.NameRule | app.js:129-147 | At most one name rule fires; equal present last and first names always earn at least 80 |
| AppScore.BirthRule | app.js:149-153 | At most one birth-year rule fires, and one fires iff the years differ by at most 5; two missing years (both 0) earn "Birth year +/- 2" (33) |
| AppScore.Penalties | app.js:120-127 | Three penalty checks, all negative; the first fires iff the genders differ |
| AppScore.Agreement | app.js:155-162 | The race and occupation checks are worth 10 each |
| AppScore.CalculateScore | app.js:95-175 | The score is at most 170, and negative when the upper-cased genders differ |
| AppScore.AgreementTotal | app.js:155-162 | Race and occupation add 0 to 20 points |
| AppScore.PenaltiesTotal | app.js:120-127 | Penalties never add points; a gender mismatch costs at least 500; agreeing gender, birth year and place cost nothing |
| AppScore.RulesBounds | app.js:120-175 | The total is at most 100+50+10+10 = 170; with differing genders it is at most -330 |
| AppScore.CountChains | app.js:129-153 | Rules of name or birth kinds can only come from the two `else if` chains |
| AppScore.RulesExclusive | app.js:133-153 | At most one name rule and at most one birth-year rule fire |
| AppScore.MissingYearsEarn | app.js:150-152 | Both birth years missing always fires "Birth year +/- 2" |
| AppScore.AgreeingScore | app.js:121-153 | Agreeing gender, birth year, birth place and names give at least 113 |
| AppScore.SelfScore | app.js:95-175 | A record with a last name scored against itself gets at least 113, hence tier 1 |
| AppScore.TierOf | app.js:378-383 | Tier 0 iff the score is below 60, tier 1 iff above 90, tier 2 iff 80 to 90, tier 3 iff 60 to 79; always 0 to 3 |
| AppScore.TierMonotone | app.js:380-383 | A higher score never gets a worse tier |
| AppScore.Policy | app.js:376-389 | `startScoring` keeps pairs scoring at least 60 |
| Blocking.Key | app.js:83-89 | A key starts with `B`, its tag and `:` |
| Blocking.KeyIf | app.js:82-90 | A key is pushed exactly when its condition holds |
| Blocking.TaggedKeys | app.js:82-90 | Among three optional keys tagged 1, 2 and 3, each tag is present iff its condition held |
| Blocking.Keys3 | resources/matcher_logic.js:103-118 | At most three keys, in tag order, pairwise distinct, each tag present iff its condition holds |
| Blocking.AddToBlock | app.js:345-350 | Adding a record keeps the block map well formed (keys and entries agree) |
| Blocking.AddToBlockLists | app.js:345-350 | Adding a record under one key appends it to that block's list of its census; every other list is unchanged |
| Blocking.AddKeys | app.js:332 | Adding a row under each of its keys keeps the block map well formed |
| Blocking.AddRows | app.js:330-339 | Adding every row of a census keeps the block map well formed |
| Blocking.AddRowsSnoc | app.js:330-333 | Adding one more row adds its keys after those of the rows before it |
| Blocking.BuildBlocks | app.js:327-339 | The block map of both censuses, 1870 first, is well formed |
| Blocking.AddKeysLoop | app.js:332 | The `keys.forEach` loop computes `AddKeys` |
| Blocking.AddRowsLoop | app.js:330-333 | The `data.forEach` loop computes `AddRows` |
| Blocking.AddKeysLists | app.js:345-350 | With distinct keys, block k's list on the row's side gains the row iff k is one of its keys; the other side is untouched |
| Blocking.AddRowsLists | app.js:330-339 | Block k's list on one side grows by exactly the rows having key k, in file order |
| Blocking.BuildBlocksLists | app.js:327-339 | Every row lands in exactly the blocks of its keys: block k lists the 1870 rows, and the 1880 rows, with key k in file order |
| Blocking.SetStored | app.js:386-388 | Storing a qualifying candidate under its own pair id keeps the candidate map stored |
| Blocking.ValuesQualify | app.js:403 | Every value of a stored candidate map qualifies |
| Blocking.ResolvedQualify | resources/matcher_logic.js:290-310 | The greedy walk over sorted qualifying candidates accepts only qualifying candidates |
| Blocking.ScorePair | app.js:373-389 | One pair: an unseen pair id that clears the floor with a non-zero tier is added as exactly this pair, with the scorer's score and details and the tier of that score; a seen pair id, or a pair that does not clear, leaves the map unchanged |
| Blocking.ScoreAgainst | app.js:372-391 | One 1870 row against an 1880 list: the map only grows, old entries stay, and new entries pair that row with rows of the list (which rows are kept: `ScoreAgainstHas`) |
| Blocking.ScoreLists | app.js:371-392 | One block's two lists: the map only grows, and new entries pair rows of the two lists (which pairs are kept: `ScoreListsHas`) |
| Blocking.ScoreBlock | app.js:370-393 | A block with an empty side adds nothing; otherwise new entries pair rows of its two lists |
| Blocking.ScoreBlocks | app.js:366-394 | The blocks named, in order: the map only grows, old entries untouched, and a stored map stays stored |
| Blocking.ScoreBlocksOrigin | app.js:366-394 | Every entry the named blocks add pairs an 1870 row and an 1880 row of one same block |
| Blocking.ScoreBlocksStep | app.js:366-369 | Taking one more key of the block order scores that key's block on top of the earlier ones |
| Blocking.ScoreAll | app.js:356-403 | Every kept candidate is stored under its own pair id, qualifies, and carries the scorer's own score and details; with well-formed blocks, every pair of one block that clears the floor with a non-zero tier is kept |
| Blocking.ScoreAllOrigin | app.js:356-403 | Every candidate that scoring keeps pairs an 1870 row and an 1880 row of one same block |
| Blocking.ScoreAgainstScored | app.js:372-391 | Entries added for one 1870 row carry the scorer's score and details for their pair |
| Blocking.ScoreListsScored | app.js:371-392 | Entries added for one block carry the scorer's score and details |
| Blocking.ScoreBlocksScored | app.js:366-394 | Entries added for the named blocks carry the scorer's score and details |
| Blocking.ScoreAgainstHas | app.js:372-391 | Every row of the 1880 list that clears the floor with the 1870 row ends up in the map |
| Blocking.ScoreListsHas | app.js:371-392 | Every pair of the two lists that clears the floor ends up in the map |
| Blocking.ScoreBlocksHas | app.js:366-394 | Every pair of a named block that clears the floor ends up in the map |
| Blocking.ScoreBlocksComplete | app.js:363-403 | Scoring every block of well-formed blocks misses no pair of one block that clears the floor with a non-zero tier |
| Blocking.ScoreRowAgainst | app.js:372-391 | The innermost loop computes `ScoreAgainst` |
| Blocking.ScoreListPairs | app.js:371-392 | The two inner loops compute `ScoreLists` |
| Blocking.ScoreOneBlock | app.js:370-393 | The body over one block computes `ScoreBlock`: a block with an empty side is skipped |
| Blocking.ScoreKeyStep | app.js:366-394 | One turn of the loop over the blocks extends `ScoreBlocks` by the `i`-th key |
| Blocking.ScoreCandidates | app.js:363-403 | The nested loops over all blocks compute `ScoreAll` |
| Ranking.ConsNonIncreasing | app.js:419 | A candidate at least as high as every score of a sorted list keeps it sorted in front |
| Ranking.Insert | app.js:419 | Inserting one candidate adds one element |
| Ranking.InsertBounded | app.js:419 | Inserting never creates a score above a bound |
| Ranking.InsertSorted | app.js:419 | Inserting into a sorted list keeps it sorted |
| Ranking.InsertPermutes | app.js:419 | Inserting adds exactly the candidate to the multiset |
| Ranking.InsertStable | app.js:419 | Inserting keeps the order of equal scores, the inserted one first |
| Ranking.SortByScore | app.js:419 | The sort keeps the length |
| Ranking.SortByScoreCorrect | app.js:419 | The sort returns a permutation in non-increasing score order, and is stable: candidates of each score keep their input order |
| Ranking.SortTiesKeepOrder | app.js:573 | When every candidate has the same score, the sort leaves the list as it is |
| Ranking.LinesCons | app.js:432-435 | The lines used by a list are those of its head and its tail |
| Ranking.Greedy | app.js:427-438 | The greedy walk accepts at most as many pairs as it is given (one-to-one: `GreedyOneToOne`, from the input: `GreedyFromInput`, maximal: `GreedyMaximal`) |
| Ranking.GreedyOneToOne | app.js:427-438 | Accepted pairs never share an 1870 line or an 1880 line, and avoid every line used before the walk |
| Ranking.GreedyAvoids | app.js:427-438 | Accepted pairs avoid every 1870 and 1880 line used before the walk |
| Ranking.ConsOneToOne | app.js:432-436 | Accepting a pair whose lines no later accepted pair uses keeps the accepted pairs one-to-one |
| Ranking.GreedyFromInput | app.js:427-438 | Every accepted pair is a candidate of the input |
| Ranking.GreedyBounded | app.js:427-438 | No accepted pair scores above a bound of the input |
| Ranking.GreedySorted | app.js:427-438 | A sorted input gives a sorted list of accepted pairs |
| Ranking.GreedyMaximal | app.js:427-438 | Every rejected candidate shares a line with an accepted pair or with a line used before |
| Ranking.WithTier | resources/matcher_logic.js:325-327 | A tier list holds only candidates of that tier |
| Ranking.WithTierMembers | resources/matcher_logic.js:325-327 | A tier list holds exactly the input's candidates of that tier |
| Ranking.WithTierBounded | resources/matcher_logic.js:325-327 | Filtering never creates a score above a bound |
| Ranking.WithTierSorted | resources/matcher_logic.js:325-327 | Filtering a sorted list gives a sorted list |
| Ranking.TiersPartition | resources/matcher_logic.js:325-327 | With tiers 1 to 3, the three tier lists together are a permutation of the input |
| Ranking.WithTierCons | resources/matcher_logic.js:325-327 | Filtering a list is filtering its head and its tail |
| Ranking.TierSplit | app.js:583-596 | The tier lists of a sorted list with tiers 1 to 3 partition it, each sorted and holding exactly the candidates of its tier |
| Ranking.WithTierAppend | app.js:592-594 | Appending one candidate appends it to its own tier list only |
| Ranking.WithTierUniform | app.js:583-596 | When every candidate has tier t, the tier-t list is all of them and every other tier list is empty |
| Ranking.GreedyStep | app.js:583-596 | One step of the greedy walk accepts or skips the current candidate |
| Ranking.GreedyTake | app.js:583-596 | A walk accepts the current candidate when neither of its rows is taken, and marks both rows taken |
| Ranking.GreedySkip | app.js:583-596 | A walk passes over a candidate one of whose rows is taken, changing nothing |
| Households.Group | app.js:455-471 | The household index is well formed |
| Households.RowsKeyed | app.js:458-464 | The rows with key k are rows of the census with that key |
| Households.GroupMembers | app.js:458-471 | A household lists exactly the rows with its key, in file order; rows with an empty key are dropped where the code tests the key |
| Households.GroupRows | app.js:458-471 | The `forEach` loop builds `Group` |
| Households.GroupHas | app.js:458-464 | Every row with a key (or every row, when empty keys are kept) is a member of its key's household |
| AppBoost.Bonuses | app.js:505-537 | Five bonus checks, the last the unconditional co-residence +15 |
| AppBoost.HouseKey70 | app.js:483 | The 1870 household key is `family_number` when present, then `family`, then `dwelling`, and empty only when all three are |
| AppBoost.BonusRules | app.js:505-537 | Five checks in push order, the last the co-residence bonus of 15 that always fires (bounds: `BonusRulesBounds`) |
| AppBoost.AddBonus | app.js:541-542 | The candidate keeps its pair and tier, its score gains exactly the total bonus, and its old details stay as a prefix |
| AppBoost.BonusBounds | app.js:505-537 | The bonus is 15 to 78, and at least 35 when the spouse bonus applies |
| AppBoost.BonusRulesBounds | app.js:505-537 | Every pair of household members earns a bonus of 15 to 78 points, at least 35 when their genders differ |
| AppBoost.GrowsTrans | app.js:482-561 | Boosting's growth relation is transitive |
| AppBoost.SetGrows | app.js:551-556 | Overwriting an entry with an improvement, or adding a counted entry, grows the state |
| AppBoost.BoostPair | app.js:490-559 | One pair of members: the map stays well formed and stored, entries only grow in score and keep or improve their tier (the exact effect: `BoostPairEffect`) |
| AppBoost.BoostWith | app.js:505-558 | With a positive bonus, re-tiering keeps the map well formed and stored and only improves entries (the exact effect: `BoostWithEffect`) |
| AppBoost.BoostWithEffect | app.js:539-558 | Every other key keeps its candidate; a candidate already in the map gains exactly the bonus and is re-tiered to the better of its old tier and the new score's tier; a fresh pair is kept iff it scores above 20 and its boosted score reaches a tier, and then starts from the scorer's result; `boosted` rises by one exactly when the pair's tier changes |
| AppBoost.BoostPairEffect | app.js:493-558 | The same for the pair's own score and bonus rules: nothing else changes, an existing candidate gains exactly its bonus, a fresh pair is kept iff it scores above 20 and reaches a tier once boosted |
| AppBoost.Retier | app.js:545-557 | The new tier is the old one or the tier of the new score; a tiered candidate never loses its tier or gets a worse one |
| AppBoost.BoostPairFrame | app.js:493-558 | Visiting one pair leaves every other key as it was |
| AppBoost.BoostPairRaised | app.js:493-558 | The visited pair, if a candidate, gains at least its bonus; if fresh and kept, it becomes a candidate |
| AppBoost.BoostRow | app.js:490-559 | The loop over the 1880 household, skipping the anchor's row, keeps the map well formed and grows the state (which keys it visits: `BoostRowRaises`, `BoostRowFrame`) |
| AppBoost.BoostHouse | app.js:487-560 | The loop over the 1870 household, skipping the anchor's row, keeps the map well formed and grows the state (which keys it visits: `BoostHouseRaises`, `BoostHouseFrame`) |
| AppBoost.BoostRowStep | app.js:490-491 | One more 1880 member is skipped when it is the anchor's and scored otherwise |
| AppBoost.BoostHouseStep | app.js:487-490 | One more 1870 member is skipped when it is the anchor's, otherwise its 1880 loop runs |
| AppBoost.BoostRowFrame | app.js:490-559 | The 1880 loop leaves every key it does not visit as it was |
| AppBoost.BoostRowSkipsAnchor | app.js:491 | The 1870 member's pair with the anchor's 1880 row is never touched |
| AppBoost.BoostHouseFrame | app.js:487-560 | The 1870 loop leaves every key it does not visit as it was |
| AppBoost.BoostHouseSparesAnchor | app.js:487-491 | With line identifiers free of `-`, no pair that uses the anchor's 1870 line or its 1880 line is touched |
| AppBoost.BoostRowRaises | app.js:490-559 | Every 1880 member but the anchor's row is visited: an existing pair gains at least its bonus, a kept fresh pair becomes a candidate |
| AppBoost.BoostHouseRaises | app.js:487-560 | Every pair of members but those of the anchor's rows is visited |
| AppBoost.BoostAnchorsRaises | app.js:482-561 | For every anchor, every pair of its two households' other members is visited |
| AppBoost.BoostAllRaises | app.js:450-561 | For every anchor and every 1870 and 1880 row of its households other than its own rows, the pair gains at least its bonus (15 or more) if it was a candidate, and becomes a candidate if it is fresh, scores above 20 and reaches a tier once boosted |
| AppBoost.CountedStep | app.js:551-556 | A step that changes at most one key's tier and counts it when it does keeps `boosted` at least the number of re-tiered keys |
| AppBoost.BoostAllCounted | app.js:480-561 | The final `boosted` is at least the number of candidates whose tier boosting set or changed, new candidates included |
| AppBoost.BoostPairCounted | app.js:551-556 | One visit counts the re-tiered key, if any |
| AppBoost.BoostRowCounted | app.js:490-559 | The 1880 loop counts every key it re-tiers |
| AppBoost.BoostHouseCounted | app.js:487-560 | The 1870 loop counts every key it re-tiers |
| AppBoost.BoostAnchorsCounted | app.js:482-561 | The anchor loop counts every key it re-tiers |
| AppBoost.CountedTrans | app.js:480-561 | Counting composes over two growing stretches of the pass |
| AppBoost.BoostAnchors | app.js:482-561 | The loop over the anchors keeps the map well formed and grows the state (which keys it visits: `BoostAnchorsRaises`) |
| AppBoost.MapOf | app.js:477-478 | The candidate map built from a list is well formed |
| AppBoost.MapOfStored | app.js:477-478 | A map built from qualifying candidates stores each under its pair id |
| AppBoost.BoostAll | app.js:450-564 | The whole pass keeps a well-formed map, stored when the input qualifies, grown from the initial map (what it does to each pair: `BoostAllRaises`, `BoostAllCounted`) |
| AppBoost.BoostPairStep | app.js:490-559 | The loop body computes `BoostPair` |
| AppBoost.ApplyBonus | app.js:539-558 | The score-and-re-tier step computes `BoostWith` |
| AppBoost.BoostMember | app.js:490-559 | The `h80` loop computes `BoostRow` |
| AppBoost.BoostHousehold | app.js:487-560 | The `h70` loop computes `BoostHouse` |
| AppBoost.MapCandidates | app.js:478 | The `forEach` loop computes `MapOf` |
| AppBoost.BoostAnchorsLoop | app.js:482-561 | The anchor loop computes `BoostAnchors` |
| AppLogic.MaxEgoIdIsMax | app.js:238-244 | `maxId` bounds every verified ego id and is 0 or one of them |
| AppLogic.MaxEgoId | app.js:238-244 | `maxId` is at least every verified ego id |
| AppLogic.FreshEgoIds | app.js:745-753 | The exported ego ids are above every verified one and pairwise distinct |
| AppLogic.Scored | app.js:356-403 | Every scored candidate qualifies under the `app.js` policy |
| AppLogic.Anchors | app.js:427-438 | Every anchor is tier 1 and one of the sorted candidates |
| AppLogic.Final | app.js:569-596 | The accepted matches of the whole pipeline are one-to-one (all its properties: `FinalCorrect`) |
| AppLogic.SortQualifies | app.js:419 | Sorting keeps every candidate qualifying |
| AppLogic.GreedyQualifies | app.js:427-438 | The greedy walk keeps every candidate qualifying |
| AppLogic.PoolQualifies | app.js:414-573 | The pool handed to finalisation qualifies, boosted or not |
| AppLogic.FinalCorrect | app.js:322-596 | The final matches are one-to-one, in non-increasing score order, all qualifying, and split exactly into the three tier lists |
| AppLogic.ResolveAnchors | app.js:427-438 | The loop of `startResolution` gives the tier-1 pairs of the greedy walk |
| AppLogic.ResolveTiers | app.js:583-596 | The loop of `finalizeResults` files the greedy walk's pairs by tier and counts them |
| AppLogic.App.constructor | app.js:182-205 | The initial state: empty data, empty block map, no candidates or tiers, next ego id 1 |
| AppLogic.App.Load | app.js:228-245 | Loading keeps the two censuses and sets the next ego id to the largest verified id plus one |
| AppLogic.App.AddToBlock | app.js:345-350 | Updates the block map as `Blocking.AddToBlock`; nothing else changes |
| AppLogic.App.AddKeys | app.js:332 | Updates the block map as `Blocking.AddKeys`; nothing else changes |
| AppLogic.App.AddCensus | app.js:330-339 | Updates the block map as `Blocking.AddRows`; nothing else changes |
| AppLogic.App.StartBlocking | app.js:322-343 | The block map becomes `BuildBlocks` of the two censuses; nothing else changes |
| AppLogic.App.StartScoring | app.js:352-411 | The candidates become the values of `ScoreAll` in block order; nothing else changes |
| AppLogic.App.StartResolution | app.js:414-448 | Candidates sorted; `tier1` holds the tier-1 pairs of the greedy walk |
| AppLogic.App.StartHouseholdBoosting | app.js:450-567 | Candidates become the boosted map's values; `boosted` is its counter |
| AppLogic.App.FinalizeResults | app.js:569-614 | Candidates sorted; the tier lists and the count come from the greedy walk |
| AppLogic.App.ExportCsv | app.js:742-767 | One change per tier-1 match, numbered consecutively from the next ego id, which advances by that many |
| AppLogic.App.Run | app.js:322-614 | The run leaves the tier lists and count of `Final` for the chosen boost setting |
| MatcherLogic.BlockKeys | resources/matcher_logic.js:86-119 | No key without race initial or gender; at most three tagged keys in tag order |
| MatcherLogic.BlockKeysPresent | resources/matcher_logic.js:92-116 | With race and gender present, each key iff its two fields are present (B3 from `last_name \|\| last_name_`) |
| MatcherLogic.BlockKeysDistinct | resources/matcher_logic.js:103-118 | No record gets the same key twice |
| MatcherLogic.FixLastName | resources/matcher_logic.js:247 | The fix-up changes only the last name, taking `last-_name` when `last_name` is empty |
| MatcherLogic.FixAllIndex | resources/matcher_logic.js:245-247 | Every 1880 row is fixed up, in order |
| MatcherLogic.FixAll | resources/matcher_logic.js:245-247 | Fixing keeps one row per row (row by row: `FixAllIndex`) |
| MatcherLogic.FieldsOf | resources/matcher_logic.js:130-155 | Genders upper-cased; `norm_first_name` compared raw |
| MatcherLogic.TestsOf | resources/matcher_logic.js:157-214 | The tests of one pair are coherent: equal last or first names are never also "different", equal races are never the B/M pair, an equal year is not also 1 to 5 years apart |
| MatcherLogic.Join4Facts | resources/matcher_logic.js:157-216 | Four sections fire a kind iff one of them does; their totals add |
| MatcherLogic.PenaltiesFires | resources/matcher_logic.js:157-175 | Each penalty fires iff its condition holds |
| MatcherLogic.PenaltiesTotal | resources/matcher_logic.js:157-175 | Penalties total -50/-30/-15 for the conditions that hold |
| MatcherLogic.ExactFires | resources/matcher_logic.js:178-181 | Each exact rule fires iff its condition holds |
| MatcherLogic.ExactTotal | resources/matcher_logic.js:178-181 | The exact rules total 15/15/8/10 for the conditions that hold |
| MatcherLogic.AgeRuleFires | resources/matcher_logic.js:184-186 | "Age diff 9-11" fires iff the difference is 9 to 11; "8-12" iff 8 to 12 and not 9 to 11 |
| MatcherLogic.AgeRuleTotal | resources/matcher_logic.js:184-186 | The age chain gives 10, 6 or 0 |
| MatcherLogic.AgreementFires | resources/matcher_logic.js:188-190 | Gender, race and birth-place agreement each fire iff their condition holds |
| MatcherLogic.AgreementTotal | resources/matcher_logic.js:188-190 | Agreement totals 10/8/12 for the conditions that hold |
| MatcherLogic.FindingAidFires | resources/matcher_logic.js:192-198 | Each finding-aid rule fires iff its condition holds |
| MatcherLogic.FindingAidTotal | resources/matcher_logic.js:192-198 | The finding aids total 10/8/7/5 for the conditions that hold |
| MatcherLogic.FuzzyNamesFires | resources/matcher_logic.js:200-205 | A fuzzy name rule fires iff the similarity is at least 0.85 and the names differ |
| MatcherLogic.FuzzyNamesTotal | resources/matcher_logic.js:200-205 | The fuzzy name rules give 8 each |
| MatcherLogic.BirthRuleFires | resources/matcher_logic.js:207-209 | "±2" fires iff the difference is 1 to 2; "±5" iff 3 to 5 |
| MatcherLogic.BirthRuleTotal | resources/matcher_logic.js:207-209 | The birth-year chain gives 7, 4 or 0 |
| MatcherLogic.RaceBMRuleFires | resources/matcher_logic.js:211-214 | "Race B/M" fires iff one race is B and the other M |
| MatcherLogic.RaceBMRuleTotal | resources/matcher_logic.js:211-214 | The B/M rule gives 6 or 0 |
| MatcherLogic.HighValueFires | resources/matcher_logic.js:177-190 | The high-value section fires a kind iff its condition holds |
| MatcherLogic.HighValueTotal | resources/matcher_logic.js:177-190 | The high-value section totals the points of the conditions that hold |
| MatcherLogic.FuzzyFires | resources/matcher_logic.js:200-214 | The fuzzy section fires a kind iff its condition holds |
| MatcherLogic.FuzzyTotal | resources/matcher_logic.js:200-214 | The fuzzy section totals the points of the conditions that hold |
| MatcherLogic.SectionsFire | resources/matcher_logic.js:157-214 | Section by section, a rule fires iff its condition holds |
| MatcherLogic.RulesFire | resources/matcher_logic.js:157-214 | A rule fires for a pair iff its reference condition holds |
| MatcherLogic.RulesTotal | resources/matcher_logic.js:125-217 | The score is the sum of the points of the rules whose condition holds |
| MatcherLogic.FiresApplies | resources/matcher_logic.js:157-214 | What fired is exactly what applies |
| MatcherLogic.GenderExactlyOne | resources/matcher_logic.js:158-188 | Exactly one of "Gender mismatch" and "Gender match" applies, the first iff the genders differ |
| MatcherLogic.ExactOrFuzzyLast | resources/matcher_logic.js:178-202 | The exact and fuzzy last-name rules never both apply |
| MatcherLogic.ExactOrFuzzyFirst | resources/matcher_logic.js:179-205 | The exact and fuzzy first-name rules never both apply |
| MatcherLogic.ExactYearApplies | resources/matcher_logic.js:181 | "Exact birth year" applies iff the years are equal and present |
| MatcherLogic.NearYearApplies | resources/matcher_logic.js:207-208 | "Birth year ±2" applies iff the difference is 1 or 2 |
| MatcherLogic.FarYearApplies | resources/matcher_logic.js:207-209 | "Birth year ±5" applies iff the difference is 3 to 5 |
| MatcherLogic.AgeExclusive | resources/matcher_logic.js:185-186 | The two age rules never both apply |
| MatcherLogic.RaceExclusive | resources/matcher_logic.js:189-212 | "Race match" and "Race B/M" never both apply |
| MatcherLogic.NormFirstMissing | resources/matcher_logic.js:196 | "Norm first" applies on equal raw values, both missing included |
| MatcherLogic.GenderFires | resources/matcher_logic.js:158-188 | Every pair reports exactly one of the two gender rules |
| MatcherLogic.ExactYearFires | resources/matcher_logic.js:181 | "Exact birth year" is reported iff the years are equal and present |
| MatcherLogic.RulesBounds | resources/matcher_logic.js:157-214 | Scores lie between -95 and 118; differing genders score at most 58 |
| MatcherLogic.CalculateScore | resources/matcher_logic.js:125-217 | The score lies between -95 and 118; differing upper-cased genders never reach tier 1 |
| MatcherLogic.TierOf | resources/matcher_logic.js:276 | Tier 1 iff the score is at least 70, tier 2 iff 50 to 69, else 3 |
| MatcherLogic.Policy | resources/matcher_logic.js:267-277 | The floor is 35, the scorer is `calculateScore`, tiers are 1 to 3 |
| MatcherLogic.Matches | resources/matcher_logic.js:283-310 | The accepted matches form a one-to-one pairing: no 1870 line and no 1880 line appears in two of them |
| MatcherLogic.MatchesCorrect | resources/matcher_logic.js:228-310 | `all` (`Matches`) is one-to-one, non-increasing by score, every pair clears 35 with its score's tier; the three tier lists partition it, each sorted and holding exactly `all`'s candidates of its tier |
| MatcherLogic.AddFixedRows | resources/matcher_logic.js:245-251 | The 1880 loop fixes up every row, then blocks the fixed rows |
| MatcherLogic.FixAndBlock | resources/matcher_logic.js:245-249 | The body of the 1880 loop fixes up the row and adds it to the blocks of its fixed keys |
| MatcherLogic.GreedyMatches | resources/matcher_logic.js:292-310 | The strict one-to-one loop computes the greedy walk |
| MatcherLogic.RunMatching | resources/matcher_logic.js:228-330 | `all` is `Matches`; each tier list is `all` filtered by tier; the 1880 rows come back fixed up |
| Match.UpperSpace | match.js:68 | Upper-casing keeps white space where it was |
| Match.CleanIdempotent | match.js:68 | Cleaning a cleaned value changes nothing |
| Match.CleanTrimmed | match.js:68 | A cleaned value (`Clean`) has no white space at either end, is no longer than the value, and is empty exactly when the value is only white space |
| Match.BlockKeys | match.js:70-99 | At most three keys, none repeated (which are present: `BlockKeysPresent`) |
| Match.Gender | match.js:71 | A missing gender reads as U |
| Match.BlockKeysPresent | match.js:76-99 | Each key family is present iff its two cleaned fields are, whatever the race and gender |
| Match.BlockKeysIgnoreRace | match.js:70-99 | The race plays no part in the keys |
| Match.BlockKeysDistinct | match.js:84-99 | No record gets the same key twice |
| Match.FieldsOf | match.js:106-123 | Genders cleaned; birth years parsed with missing read as 0 |
| Match.Penalties | match.js:127-136 | Gender mismatch fires iff both genders are present and differ; the regression penalty iff in 'match' mode and the 1880 year is more than 10 before the 1870 one |
| Match.BirthRule | match.js:139-142 | At most one birth rule; none without an 1870 year; a difference of 10 or more costs 200; 6 to 9 gives nothing |
| Match.NameRule | match.js:146-157 | At most one name rule, worth at most 100 |
| Match.RaceRule | match.js:161-166 | +10 at most once, iff races are equal and present or both present and non-white |
| Match.Occupation | match.js:170-172 | One occupation check worth 10 |
| Match.CalculateScore | match.js:102-174 | The score is at most 170, and negative when both cleaned genders are present and differ |
| Match.RulesTotal | match.js:127-173 | The five sections' points add up to the score |
| Match.PenaltiesTotal | match.js:127-136 | Penalties total -500/-100/-50 for the conditions that hold |
| Match.RulesBounds | match.js:127-173 | The total is at most 170; clashing genders give a negative total |
| Match.ModeOnlyRegression | match.js:130 | Another mode differs from 'match' only by the regression penalty |
| Match.RulesCount | match.js:127-173 | Rules of a kind are counted section by section |
| Match.BirthExclusive | match.js:139-142 | At most one birth-year rule fires |
| Match.NameExclusive | match.js:146-157 | At most one name rule fires |
| Match.RaceExclusive | match.js:161-166 | At most one race rule fires |
| Match.FuzzyFirstWithoutLastName | match.js:155-156 | Two records with no last name at all still earn "Exact Last + Fuzzy First" |
| Relations.HeadsExactly | relations.js:14-19 | `heads1880` holds exactly the rows marked `head === 'Y'` |
| Relations.IndexLater | relations.js:14-19 | The 1880 loop builds the household index by `family` and the head list |
| Relations.FindEgoFrom | relations.js:100 | The search from a position finds the first row with the ego id, or proves none exists |
| Relations.FindEgo | relations.js:100 | `find` returns a row with the ego id, and none iff no row has it |
| Relations.FindEgoFirst | relations.js:100 | `find` returns a row with the ego id, and no earlier row has that ego id |
| Relations.TypeName | relations.js:112-127 | Every type has a non-empty name |
| Relations.Classify | relations.js:108-127 | Every exactly listed label gets a type; an In-Law type needs a member surname other than the head's and is noted "Via <label>" (the rest: `ExactBeforeSubstring`, `Unlisted` and the label lemmas) |
| Relations.TypeNameInjective | relations.js:81 | Distinct types give distinct `details` texts |
| Relations.ExactBeforeSubstring | relations.js:112-127 | "brother" and "sister" are siblings, while the in-law labels reach their own rules |
| Relations.BrotherInLawLabel | relations.js:120 | "brother-in-law" is typed Brother-in-law |
| Relations.SisterInLawLabel | relations.js:125-126 | "sister-in-law" is typed Sister-in-law |
| Relations.NotCousinOrBrother | relations.js:119-120 | A label without 'c' or 'b' matches neither the cousin nor the brother-in-law rule |
| Relations.NotEarlierLaw | relations.js:119-121 | Labels of the given shapes match none of the substring rules before the sister-in-law one |
| Relations.CousinTyped | relations.js:119 | Every label mentioning a cousin gets a type |
| Relations.Unlisted | relations.js:112-127 | A label that is not listed, mentions no cousin and no "law" gets no type |
| Relations.LawIn | relations.js:125 | A string holding "law" at some offset contains "law" |
| Relations.UnderscoreInLawUntyped | relations.js:121 | "father_in_law" and "mother_in_law" get no type: the code looks for the hyphenated spelling |
| Relations.FatherUnderscore | relations.js:121 | "father_in_law" gets no type |
| Relations.MotherUnderscore | relations.js:121 | "mother_in_law" gets no type |
| Relations.InLawOtherSurname | relations.js:121-124 | An In-Law type is given only to a member whose surname differs from the head's |
| Relations.SurnamesOnlyDropInLaw | relations.js:112-127 | Surnames change the classification only by dropping an In-Law type |
| Relations.NameScore | relations.js:42-50 | The name part is 0, 40, 60, 80 or 100, and 100 for equal present first names |
| Relations.AgeScore | relations.js:53-60 | The age part is 0, 40, 80 or 100; 0 unless both years are known; 100 iff equal known years |
| Relations.MemberScore | relations.js:40-60 | A candidate scores 0 to 200 |
| Relations.Accepted | relations.js:47-68 | A candidate clears 60 iff its name part or its age part is at least 80, or both are at least 40 |
| Relations.SelfScoresTop | relations.js:40-60 | A record with a first name and a birth year scored against itself gets 200 |
| Relations.ScoresBy | relations.js:39-66 | One score per candidate, in order |
| Relations.ArgMaxTo | relations.js:62-65 | The earliest position holding the largest value |
| Relations.BestBySpec | relations.js:35-70 | A best candidate exists iff some candidate scores above 60; it is then the earliest with the top score |
| Relations.FindBestBy | relations.js:36-69 | The loop with `best` and `maxScore` from -1 computes `BestBy` |
| Relations.BestMatch | relations.js:35-70 | The best match is one of the candidates |
| Relations.FindBestMatch | relations.js:35-70 | `findBestMatch` computes `BestMatch` |
| Relations.Entry | relations.js:73-85 | `addMatch` pushes nothing iff the 1870 match has the head's ego id, else one entry |
| Relations.EntryFor | relations.js:129-141 | At most one entry; when there is one, the member was classified, had a best match, passed the in-law checks, and the entry pairs the head with that match through that member |
| Relations.HeadEntries | relations.js:97-104 | A head with no 1870 row of its ego id contributes nothing |
| Relations.EntryForWellFormed | relations.js:129-141 | A member's entry pairs the head with a row of 1870, of another ego id, of the household of the head's 1870 record, through a member of the head's 1880 household; it is tier 1, its details are "<type> Found", and the in-law surname and marital checks held |
| Relations.MemberEntryWellFormed | relations.js:107-143 | A member's entries are well formed when the 1870 list is the household of the head's 1870 record |
| Relations.MembersEntriesWellFormed | relations.js:107-143 | A household's entries are well formed when the 1870 list is the household of the head's 1870 record |
| Relations.MembersFromIndex | relations.js:14-25 | A household's indexed members come from the census and carry its family |
| Relations.HeadsEntriesWellFormed | relations.js:96-144 | The entries of all heads are well formed |
| Relations.RelationsWellFormed | relations.js:4-167 | Every entry of `Relations` is well formed: no entry pairs a head with its own record, and every relative is in the 1870 household of the head's 1870 record |
| Relations.AddMatch | relations.js:73-85 | `addMatch` computes `Entry` |
| Relations.ProcessMember | relations.js:107-143 | The member loop body computes `MemberEntry` |
| Relations.ProcessMembers | relations.js:107 | The member loop computes `MembersEntries` |
| Relations.ProcessHead | relations.js:97-104 | The body for one head pushes `HeadEntries`: its household's entries, found through the 1870 record of its ego id |
| Relations.ProcessHeads | relations.js:93-166 | The head loop computes `HeadsEntries`, with `relationsFound` its length |
| Relations.Collect | relations.js:93-160 | The walk over all heads collects `Relations`, every entry tier 1, and counts it |
| Relations.RelationsTierOne | relations.js:73-85 | Every relation entry is tier 1 |
| Relations.FinalizeTierOne | app.js:573-596 | Over tier-1 entries that carry no score, the sort keeps push order and the greedy walk is one-to-one, all of it tier 1, tiers 2 and 3 empty |
| Relations.FinalizeEntries | relations.js:162 | `finalizeResults` over the relation entries: tier 1 is the greedy one-to-one walk over them in push order, tiers 2 and 3 are empty, the count is tier 1's length |
| Relations.Finder.constructor | relations.js:30-32 | The cleared candidate list, a zero counter, and empty tier lists |
| Relations.Finder.FindRelations | relations.js:4-163 | `app.candidates` becomes `Relations` of the two censuses and `relationsFound` counts them; the closing `finalizeResults` leaves tier 1 holding the greedy one-to-one walk over the entries in push order, tiers 2 and 3 empty, and the count that walk's length |
| Triplets.EscapeQuotesAppend | triplets.js:29 | Escaping quotes distributes over concatenation |
| Triplets.EscapeInOnePass | triplets.js:29 | The two replacements are one per-character escaping |
| Triplets.UnescapeEach | triplets.js:29 | Reading the per-character escaping back gives the input |
| Triplets.EscapeRoundTrip | triplets.js:27-30 | Un-escaping `esc`'s two replacements (`Escape`) gives back the input |
| Triplets.Esc | triplets.js:27-30 | `undefined` and "" give ""; any present value reads back (un-escaped) as its text (`Display`) |
| Triplets.EscapeEachBody | triplets.js:29 | A value without line breaks escapes to a body allowed by section 6.4 of the W3C RDF 1.1 Turtle recommendation |
| Triplets.EscapeIsStringBody | triplets.js:27-30 | `esc` of a value without line breaks is a well-formed short Turtle string body |
| Triplets.LineBreakStaysRaw | triplets.js:29 | A line feed passes through `esc` and breaks the Turtle string |
| Triplets.Subject | triplets.js:35 | Every subject starts `person:` |
| Triplets.SubjectFirstTruthy | triplets.js:35 | The subject id (`SubjectId`) is the first truthy of egoid, id, line |
| Triplets.TruthyTo | triplets.js:45-58 | The positions of the truthy mapped fields, increasing, and all of them |
| Triplets.LinesAt | triplets.js:45-58 | One statement per selected mapping |
| Triplets.LinesAtIndex | triplets.js:45-58 | The k-th statement is that of the k-th selected mapping |
| Triplets.OptionalToLines | triplets.js:45-58 | The optional properties are the statements of the truthy fields, in table order |
| Triplets.LiteralPropsInOrder | triplets.js:44-58 | The twelve mappings write exactly the fields that are truthy, in table order |
| Triplets.IdsShape | triplets.js:70-73 | At most one id per entry, each non-empty and trimmed |
| Triplets.IdsOfClean | triplets.js:70-73 | A list of trimmed non-empty entries is written as it is |
| Triplets.IdsNonBlank | triplets.js:68-73 | The blank filter before the loop changes nothing |
| Triplets.StatementsIndex | triplets.js:72 | One `verb prefix<id>` statement per id, in order |
| Triplets.StatementsSnoc | triplets.js:72 | One more id adds its statement at the end |
| Triplets.TrimWithout | triplets.js:71 | Trimming adds no character |
| Triplets.IdsWithout | triplets.js:70-73 | Ids hold no character their entries lacked |
| Triplets.IdsStep | triplets.js:70-73 | One more entry adds its trimmed id unless that is blank |
| Triplets.RelIdsOfText | triplets.js:68-73 | A comma-separated field gives (`RelIds`) at most one id per piece, each non-empty, trimmed, comma-free; clean pieces join back to the field |
| Triplets.PushIds | triplets.js:70-73 | The `forEach` loop pushes `Statements(Ids(list))` |
| Triplets.RelToStep | triplets.js:77-81 | One more relationship field appends its statements after those of the earlier ones |
| Triplets.ProcessRel | triplets.js:65-75 | `processRel` pushes `RelLines`: nothing for a falsy field, else one statement per id of the split string or the array |
| Triplets.Props | triplets.js:38-41 | Every block's properties start with `rdf:type foaf:Person` |
| Triplets.PushLiteral | triplets.js:45-58 | One optional mapping extends the properties by its statement iff its field is truthy |
| Triplets.PushRel | triplets.js:77-81 | One relationship field extends the properties by its statements |
| Triplets.BuildProps | triplets.js:38-81 | The `props` array is `Props` |
| Triplets.BlocksPerRecord | triplets.js:33-87 | Exactly one block per record, in dataset order, as `Document` lays them out |
| Triplets.StatementShape | triplets.js:85 | A block (`Statement`) opens with its subject and the type statement and closes with ` .` |
| Triplets.BlockShape | triplets.js:35-85 | Every record's block opens with its subject and `rdf:type foaf:Person` and closes with ` .` |
| Triplets.OutputShape | triplets.js:23-90 | The output (`Output`) is the prefixes and, when there are records, an empty line and the blocks joined by line breaks |
| Triplets.GenerateTriplets | triplets.js:7-91 | `generateTriplets` returns `Document(dataset)` |
| RunMatching.SplitLinesFacts | resources/run_matching.js:10 | The lines of `SplitLines` hold no line feed, one per line-feed piece; without carriage returns they are the pieces |
| RunMatching.Headers | resources/run_matching.js:11 | One header per comma-separated piece of the first line |
| RunMatching.ScanFromAppend | resources/run_matching.js:21-34 | Scanning two strings one after the other is scanning their concatenation |
| RunMatching.ScanInvariant | resources/run_matching.js:17-34 | Inside quotes iff an odd number of quotes was read; one closed field per comma outside quotes; no field holds a quote; the fields joined by commas are the line without its quotes |
| RunMatching.TokensFacts | resources/run_matching.js:17-38 | A line's values (`Tokens`) are one more than its commas outside quotes, none holding a quote, and they join back to the line without its quotes |
| RunMatching.RowOfFacts | resources/run_matching.js:26-38 | The object (`RowOf`) has as keys the headers of the values present; with distinct headers each holds its value trimmed |
| RunMatching.RowOfKeys | resources/run_matching.js:26-38 | The object's keys are the headers of the values present: extra values are dropped, missing trailing ones absent |
| RunMatching.RowOfValues | resources/run_matching.js:26-38 | With distinct headers, every value present is found, trimmed, under its own header |
| RunMatching.ParseLine | resources/run_matching.js:15-40 | The character loop builds `ParseRow` |
| RunMatching.ParseRows | resources/run_matching.js:14-41 | One object per data line |
| RunMatching.ParseRowsIndex | resources/run_matching.js:14-41 | The k-th object is the k-th data line parsed against the header |
| RunMatching.ParseCsvShape | resources/run_matching.js:9-43 | `ParseCsv`: no non-blank line means failure; otherwise one object per non-blank line after the header, each line non-blank |
| RunMatching.ParseDataLines | resources/run_matching.js:14-41 | The line loop computes `ParseRows` |
| RunMatching.ParseCSV | resources/run_matching.js:9-43 | `parseCSV` computes `ParseCsv`, failing when there is no header line |
| RunMatching.NumberText | resources/run_matching.js:68 | A number is written as "" iff it is 0 |
| RunMatching.Values | resources/run_matching.js:56-66 | One value per column |
| RunMatching.Cells | resources/run_matching.js:68-70 | One cell per value |
| RunMatching.ObjectToCsv | resources/run_matching.js:46 | No pairs give an empty text |
| RunMatching.ObjectToCsvShape | resources/run_matching.js:55-74 | The text is the header line, then one line per pair |
| RunMatching.ZeroIsBlank | resources/run_matching.js:60-68 | A score or tier of 0 writes an empty cell |
| RunMatching.ScanPlain | resources/run_matching.js:21-34 | Plain characters append to the current value |
| RunMatching.ScanCell | resources/run_matching.js:23-69 | A written cell (`Cell`) whose value holds no quote scans back to the value |
| RunMatching.ScanCellComma | resources/run_matching.js:25-71 | A cell and its comma close one field holding the value |
| RunMatching.ScanCells | resources/run_matching.js:21-71 | Scanning joined cells closes one field per cell but the last |
| RunMatching.CellsRoundTrip | resources/run_matching.js:17-71 | Cells written by `objectToCSV` read back through `parseCSV`'s scanner as the values, when no value holds a quote |
| RunMatching.RowLineParses | resources/run_matching.js:9-72 | A written line (`RowLine`) read back under the written header gives each column its value, trimmed, when no value holds a quote |
| RunMatching.ColumnsDistinct | resources/run_matching.js:49-53 | The column names are distinct |
| ExtensionScripts.IndexOf | extension_scripts.js:23 | `indexOf` gives the first position holding the value, or -1 iff none does |
| ExtensionScripts.TargetRow | extension_scripts.js:22-25 | A blank id or one missing from column A writes nowhere; otherwise the row of its first occurrence in A, plus 2 |
| ExtensionScripts.LastChange | extension_scripts.js:19-28 | The last change targeting a row, or -1 iff none does |
| ExtensionScripts.AppliedWritten | extension_scripts.js:19-28 | A row targeted by change i and by no later change holds change i's Y value |
| ExtensionScripts.AppliedUntouched | extension_scripts.js:26 | A row no change targets keeps its old W value, or stays empty |
| ExtensionScripts.AppliedCell | extension_scripts.js:19-28 | Every W cell of `Applied` holds the Y value of the last change targeting its row, else its old value |
| ExtensionScripts.AppliedKeys | extension_scripts.js:19-28 | The written W rows are exactly the old ones plus the rows some change targets |
| ExtensionScripts.TargetsSnoc | extension_scripts.js:19-28 | The rows targeted by one more change are the earlier ones plus its own row, if it has one |
| ExtensionScripts.Sheet.constructor | extension_scripts.js:15-17 | The sheet holds the columns as read |
| ExtensionScripts.Sheet.MapValuesToRow | extension_scripts.js:9-29 | Column W becomes `Applied` over all changes in order; columns A, X and Y are constant |

## Left out

- Jaro-Winkler arithmetic (`app.js`, `resources/matcher_logic.js`, `match.js`): it is floating point. It is a parameter, and nothing is assumed of it.
- User-interface code of `app.js`: DOM and jQuery work, logging, progress, tabs, rendering, context view and search. The `#chk-boost` checkbox is a boolean parameter of `App.Run`; the `Blob` download of `exportCSV` becomes its returned changes.
- `setTimeout` chunking in `app.js` and `relations.js`: it only interleaves user-interface updates. Each phase is one ordinary loop.
- PapaParse loading (`fetchCSV`): the parsed rows are inputs of `App.Load`. The file reads and writes at the end of `resources/run_matching.js`, and the `console.log` calls, are left out.
- The SpreadsheetApp calls of `extension_scripts.js`: the sheet is modelled as sequences, and the hard-coded 8000-row range is ignored.
- JavaScript built-in detail:
  - `parseInt` prefix parsing: numeric fields are pre-parsed integers with a 0 default.
  - Case mapping is ASCII only.
  - `trim` and `\s` cover the ASCII white-space characters only.
  - On rows, JavaScript `undefined` and "" are one value, the empty string.
- The loop at `relations.js:156-159` does nothing, and is left out.
- Relations.Finder.FindRelations: the closing `finalizeResults` is modelled through the fields it sets (the three tier lists and the count); its logging and progress calls are left out. The relation entries carry no `score`, so every comparison of its sort is `NaN`, which the JavaScript sort treats as a tie; the model gives every entry the score 0, and the stable sort then keeps push order.
- Relations.BestMatch: states only that the result is a candidate. Being the earliest top-scoring candidate above 60 is stated by `Relations.BestBySpec` on the generic `BestBy`.
- RunMatching.ObjectToCsv: values are taken by column position, in the order the code's chain resolves them. The `line_1880` branch is unreachable because `_1880` is tested first, so it is left out. An absent `data` is the empty list.
- RunMatching.ParseCSV: the rows are string maps. Converting them into `Census.Row` values for the matcher is not modelled.
- Triplets.Esc: does not escape line breaks, as the code does not. `Triplets.LineBreakStaysRaw` shows the resulting invalid Turtle string.
- Triplets values: list values hold strings only; numbers are integers only; `null` is the same as `undefined`.
- Relation propagation into a verified-person table, an inheritance closure and name-rarity compensation are not in these files: `relations.js` only collects candidate relatives into `app.candidates`. They are not modelled.
- The `blockKey` field stored with each candidate at `resources/matcher_logic.js:275` is not modelled: nothing in the modelled code reads it.
- `Match.CalculateScore` takes the mode as an explicit argument; the `mode = 'match'` default of `match.js:102` is what a caller passes when it passes nothing.
- Spreadsheet cells (`extension_scripts.js`) are text, integers or booleans; `ExtensionScripts.CellValue` has no floating-point or date cells, and `Number(n: int)` stands for a numeric cell.
- Blocking.ScoreAgainst, Blocking.ScoreLists, Blocking.ScoreBlock, Blocking.ScoreBlocks: their own contracts state only that the map grows and where new entries come from. That the stored scores are the scorer's is stated by the `…Scored` lemmas, and that every clearing pair is kept by the `…Has` lemmas and `Blocking.ScoreBlocksComplete`.
- AppBoost.BoostPair, AppBoost.BoostWith: their own contracts state only well-formedness, storage and growth. The exact per-key effect is stated by `AppBoost.BoostPairEffect` and `AppBoost.BoostWithEffect`.
- AppBoost.BoostRow, AppBoost.BoostHouse, AppBoost.BoostAnchors, AppBoost.BoostAll: their own contracts state only well-formedness, storage and growth. Which keys are visited and which are left alone is stated by the `…Raises`, `…Frame`, `BoostRowSkipsAnchor` and `BoostHouseSparesAnchor` lemmas, and the counter by the `…Counted` lemmas.
- AppBoost.BoostAllRaises: states that a visited pair gains at least its bonus, not exactly; a pair in two anchors' households is visited once per anchor.
- AppBoost.BoostAllCounted: `boosted` is stated as at least the number of re-tiered candidates, not equal to it, because a candidate re-tiered on two visits is counted twice.
- AppBoost.BoostHouseSparesAnchor: holds only for line identifiers without `-`; with a `-` inside a line, two different pairs can share a `${line70}-${line80}` key.
- Relations.RelationsWellFormed: states what every entry satisfies, not that every classified member with an accepted 1870 match yields an entry; the entries are pinned down exactly by `Relations` itself, which `Relations.Finder.FindRelations` computes.
- `resources/serve.py`, `resources/check_headers.py` and `resources/check_headers_v2.py` are an HTTP server and header-printing scripts. They are not part of this model.
