# Tower defence and PChome product analysis, modelled in Dafny

This project models three Python programs and proves properties of the models.

- **The tower-defence game** (`week2/tower_defense_game.py`). Three enemies walk a fixed velocity every turn. Six towers damage every living enemy within their range. The game runs ten turns; in each turn every living enemy moves first, then each tower attacks in list order.
  - `Enemy` is a class whose position, life and alive flag change in place.
  - `Tower` is a value, because the game never changes a tower.
  - `Game` is a class that owns both lists and counts the turns.
  - Each method is proved against a pure function of the enemies' snapshots: `Moved`, `Damaged`, `Tower.StrikeAll`, `MoveAll`, `AttackPhase`, `Turn` and `Run`. Lemmas about those functions state what the game promises.
- **The offline analysis of PChome product records** (`Pchome_complete_scraper.py`). A product is a record whose `Id`, `Name`, `Brand`, `Price`, `ratingValue` and `reviewCount` keys may each be missing. The model covers:
  - the ID extraction of task 1;
  - the best-product filter of task 2 and its counters;
  - the ASUS processor buckets of task 3 and the average price of the i5 products;
  - the guards of task 4, its z-score bands and the band counts;
  - the brand, price and rating counts of `show_statistics`.
- **The review scraper's filters** (`get_product_reviews.py`). The model covers the review lookup and its `(0, 0)` fallback, the record built per product, the task 2 best-product filter and the task 3 i5 average.

Every loop that appends to a list or bumps a counter is a Dafny method with loop invariants. It is specified by an order-preserving `Filter`/`Map` over its input (module `Common`). Lemmas about `Filter` give each selection its membership condition and its counts.

Files:

- `common.dfy`: `Option`, `Filter`, `Map`, ASCII `Lower`, the substring test `Contains`, `Sum`, `Min`, `Max`, `Average`.
- `tower_defense.dfy`: module `TowerDefense`.
- `pchome_analysis.dfy`: module `PchomeAnalysis`.
- `product_reviews.dfy`: module `ProductReviews`.

## Model

| member | source | states |
|---|---|---|
| TowerDefense.MoveEffect | week2/tower_defense_game.py:23-30 | a living enemy moves by exactly `(dx, dy)`; a dead enemy is unchanged; name, velocity, life and the alive flag never change |
| TowerDefense.DamageEffect | week2/tower_defense_game.py:32-43 | on a living enemy, life becomes `max(life - damage, 0)` and the enemy stays alive iff `life - damage > 0`; on a dead enemy it is a no-op; only life and the alive flag change |
| TowerDefense.StepsKeepInvariant | week2/tower_defense_game.py:38-43 | moving and taking non-negative damage keep life in `[0, initial]` with a dead enemy at 0; damage never raises life or revives an enemy |
| TowerDefense.Enemy.constructor | week2/tower_defense_game.py:6-21 | a new enemy has the given fields, life 10 by default, and is alive |
| TowerDefense.Enemy.IsAlive | week2/tower_defense_game.py:45-47 | true exactly while the enemy's alive flag is set; `DeathIsFinal` shows that once false it stays false |
| TowerDefense.Enemy.Move | week2/tower_defense_game.py:23-30 | the new state is `Moved` of the old state |
| TowerDefense.Enemy.TakeDamage | week2/tower_defense_game.py:32-43 | the new state is `Damaged` of the old state, and the life invariant is preserved |
| TowerDefense.CanAttackMatchesDistance | week2/tower_defense_game.py:72-90 | the squared comparison agrees with "alive and Euclidean distance <= range" for the true distance, boundary included |
| TowerDefense.Tower.Attack | week2/tower_defense_game.py:92-105 | each enemy is struck once, in list order, by the tower's power if attackable when visited; returns the names of exactly those enemies |
| TowerDefense.AttackSelection | week2/tower_defense_game.py:100-105 | the attacked positions strictly increase; a position is attacked iff the enemy there is attackable; the returned names are the names at those positions |
| TowerDefense.AttackTouchesOnlySelected | week2/tower_defense_game.py:101-104 | an attacked enemy is damaged exactly once by the attack power; every other enemy is unchanged |
| TowerDefense.AttackNamesUnique | week2/tower_defense_game.py:101-104 | when enemy names are distinct, no name is returned twice by one attack |
| TowerDefense.AttackPhase | week2/tower_defense_game.py:155-157 | the attack phase keeps the number of enemies |
| TowerDefense.Turn | week2/tower_defense_game.py:144-157 | a turn keeps the number of enemies |
| TowerDefense.Run | week2/tower_defense_game.py:176-178 | any number of turns keeps the number of enemies |
| TowerDefense.StrikeAllEvolves | week2/tower_defense_game.py:92-105 | one attack never raises a life, leaves dead enemies untouched and keeps every life invariant |
| TowerDefense.AttackPhaseEvolves | week2/tower_defense_game.py:155-157 | the same holds for all towers attacking in turn |
| TowerDefense.TurnEvolves | week2/tower_defense_game.py:141-157 | the same holds for a whole turn, movement included |
| TowerDefense.RunEvolves | week2/tower_defense_game.py:176-178 | between any two moments of a run, names and velocities are kept, lives do not rise, and a dead enemy does not change |
| TowerDefense.LifeStaysInRange | week2/tower_defense_game.py:38-43 | after any number of turns every life lies in `[0, initial]` |
| TowerDefense.DeathIsFinal | week2/tower_defense_game.py:28-43 | an enemy dead after `m` turns is dead, unmoved and at life 0 after every later turn |
| TowerDefense.KilledEnemyStaysKilledInPhase | week2/tower_defense_game.py:155-157 | within an attack phase, an enemy killed by earlier towers is not changed by later ones |
| TowerDefense.LaterTowerSkipsKilled | week2/tower_defense_game.py:156-157 | a later tower cannot attack, and does not name, an enemy killed earlier in the same phase |
| TowerDefense.GameLivesBounded | week2/tower_defense_game.py:111-134 | in the configured game every life stays within `[0, 10]` after any number of turns, the ten played included |
| TowerDefense.MoveEnemies | week2/tower_defense_game.py:144-152 | the movement phase turns the enemies' state into `MoveAll` of the old state |
| TowerDefense.TowersAttack | week2/tower_defense_game.py:154-161 | the attack phase turns the enemies' state into `AttackPhase` of the old state and reports each tower's attacked names in tower order |
| TowerDefense.Game.constructor | week2/tower_defense_game.py:111-134 | turn 0 of 10, the three configured enemies alive at life 10, the six configured towers |
| TowerDefense.Game.RunTurn | week2/tower_defense_game.py:136-161 | the turn counter rises by exactly 1; the enemies become `Turn` (move, then attack) of the old state; the game invariant is kept |
| TowerDefense.Game.RunGame | week2/tower_defense_game.py:169-178 | exactly `maxTurns` turns with no early exit: the enemies become `Run(.., maxTurns)` of the old state |
| Common.Min | Pchome_complete_scraper.py:148 | `min(prices)` is an element no greater than any other |
| Common.Max | Pchome_complete_scraper.py:149 | `max(prices)` is an element no smaller than any other |
| Common.Average | get_product_reviews.py:147-148 | `sum / len` of a non-empty list lies between its minimum and maximum |
| PchomeAnalysis.ExtractAllIds | Pchome_complete_scraper.py:215-221 | the non-empty `Id` of every product that has one, in input order; no longer than the input; a string is returned iff it is a non-empty `Id` of some product |
| PchomeAnalysis.FindBestProducts | Pchome_complete_scraper.py:256-313 | the ids of the best products in input order; the two counters count the rated products and the products with a positive review count; the result is no longer than either counter |
| PchomeAnalysis.IdsOf | Pchome_complete_scraper.py:313 | the ids of the selected products, in order |
| PchomeAnalysis.BestSelection | Pchome_complete_scraper.py:275-285 | a product is selected iff its rating and review count are present, the rating is above 4.9 and the review count is at least 1 |
| PchomeAnalysis.CalculateI5AveragePrice | Pchome_complete_scraper.py:328-387 | each processor count is the number of ASUS products in that bucket; the average is None when no ASUS i5 product has a price, else their mean price, which lies between their minimum and maximum |
| PchomeAnalysis.PricesOf | Pchome_complete_scraper.py:369 | the prices of the selected products, in order |
| PchomeAnalysis.BucketsPartitionAsus | Pchome_complete_scraper.py:338-349 | the five bucket counts sum to the number of ASUS products |
| PchomeAnalysis.I3AndI5NameIsCountedAsI3YetSelected | Pchome_complete_scraper.py:340-357 | every priced ASUS product whose lower-cased name contains both 'i3' and 'i5' lands in the i3 bucket and is still selected for the i5 average |
| PchomeAnalysis.CoreI3I5IsCountedAsI3YetSelected | Pchome_complete_scraper.py:340-357 | such a product exists: an ASUS product named "Core i3 i5" with a price |
| PchomeAnalysis.ZScorePopulation | Pchome_complete_scraper.py:403-471 | the ASUS prices are returned iff there are at least two, they are not all equal, and every such product has an `Id`; otherwise the task returns None (too few products, a zero deviation, or a missing id sliced for the report line) |
| PchomeAnalysis.SpreadIsZeroIffAllEqual | Pchome_complete_scraper.py:424-430 | the smallest and largest price coincide iff all prices do, which is when the population deviation is zero |
| PchomeAnalysis.ZBand | Pchome_complete_scraper.py:452-467 | the category chain puts z in exactly one of the five bands `z > 2`, `1 < z <= 2`, `-1 <= z <= 1`, `-2 <= z < -1`, `z < -2` |
| PchomeAnalysis.CsvCategoryAgrees | Pchome_complete_scraper.py:506-515 | the CSV category of every z is the category it was counted under |
| PchomeAnalysis.CountCategories | Pchome_complete_scraper.py:444-467 | each category's count is the number of scores in that band |
| PchomeAnalysis.BandCountsSum | Pchome_complete_scraper.py:477-481 | the five category counts sum to the number of scores |
| PchomeAnalysis.ExtremesMatchCategories | Pchome_complete_scraper.py:484-485 | the extreme-high and extreme-low lists are exactly as long as their category counts |
| PchomeAnalysis.BrandTallyTotal | Pchome_complete_scraper.py:154-157 | the brand counts sum to the number of products |
| PchomeAnalysis.BrandTallyCounts | Pchome_complete_scraper.py:154-157 | a brand is a key iff some product is filed under it, a missing brand being filed under '未知'; each count is the number of products filed under that brand |
| PchomeAnalysis.ShowStatistics | Pchome_complete_scraper.py:139-170 | the brand tally, whose counts sum to the number of products; the number of products with a truthy price, and their min, max and mean `sum / len`, the mean lying between the two; the rated count and the count of ratings >= 4.5, which is no larger |
| ProductReviews.LookupReviews | get_product_reviews.py:17-28 | a failed request gives `(0, 0)`; otherwise each missing key defaults to 0 and each present key is used as is |
| ProductReviews.SaveBestProducts | get_product_reviews.py:113-117 | the products with at least one review and a rating above 4.9, in input order, and no others |
| ProductReviews.FailedLookupNeverBest | get_product_reviews.py:59-75 | a product whose review lookup failed is never among the best products |
| ProductReviews.MissingTotalRowsNeverBest | get_product_reviews.py:59-75 | a product whose review answer lacks `TotalRows` is never among the best products |
| ProductReviews.CalculateI5AveragePrice | get_product_reviews.py:139-160 | the products whose lower-cased name contains 'i5', with no brand check, in input order; no average when there are none, else `sum / count`, between the minimum and maximum selected price |

## Left out

- HTTP crawling, rate limiting and sleeps are left out: `collect_all_dsaa31_data`, `scrape_all_products` and the request inside `get_product_reviews`. The product list is an input, and the outcome of a review request is an `Option` parameter.
- File, JSON and CSV persistence is left out: the `save_json_data`, `load_json_data` and `verify_output_files` functions, and the file writes inside the tasks, including `task1_save_product_ids` of the review scraper, which only writes every id to a file.
- Console output is left out: every `print`, `display_all_products` and `__str__`. The per-turn and per-tower lines become returned reports.
- The z-score numerics are left out: the mean, the population deviation, `math.sqrt` and `round`. Banding and counting take the scores as given reals.
- `geometry_task1.py` is not part of this model. It is closed-form floating-point geometry.
- `collect_all_dsaa31_data.py` is not part of this model. Its `show_statistics` is a copy of the one modelled here.
- `str.lower()` is ASCII lower-casing. '華碩' is tested as a plain substring, as in the source.
- A missing key and a JSON `null` are not distinguished, so the exceptions a `null` value raises are not modelled:
  - in task 2 of the analysis, slicing a `null` name raises, and the handler returns an empty list;
  - in tasks 3 and 4, `.lower()` on a `null` brand or name raises, and the handler returns None;
  - in the review scraper's task 3, `.lower()` on a `null` name raises with no handler, so the exception leaves the program.
- Prices are integers, and ratings, averages and z-scores are exact reals rather than floats.
- `str.strip()` on descriptions is not modelled; the description is stored as given.
- The insertion order of the brand dictionary is not modelled; the tally is a map.
- PchomeAnalysis.ZScorePopulation: a product in an extreme band whose `Name` is missing makes the outlier listing raise when it slices the name, and the task then returns None. The bands depend on the z-scores, which are not computed here, so this None is not captured; the missing-`Id` crash of the report line is.
- PchomeAnalysis.ShowStatistics: does not compute the average rating. It is a float mean used only for printing, and the model reports the rated count and the count of ratings >= 4.5.
- TowerDefense.Tower.Attack: requires the enemy list to hold distinct objects. The game's list does; the source would also accept the same object twice.
- TowerDefense.MoveEnemies: requires distinct enemy objects, as the game's list has.
- TowerDefense.TowersAttack: requires distinct enemy objects and non-negative attack powers, as the game's towers have.
- TowerDefense.Enemy.TakeDamage: requires `damage >= 0`. The source never checks this, and every caller passes a positive attack power.
- TowerDefense.Enemy.constructor: promises the life invariant only for a non-negative initial life. With a negative life, the first hit clamps life to 0, above the initial value.
- TowerDefense.Game.RunTurn: not guarded against running past `maxTurns`, like the source. The model neither forbids an extra turn nor claims that one raises an error.
- TowerDefense.CanAttackMatchesDistance: coordinates and ranges are integers, as every value in the configured game is. The square root is replaced by the exact squared comparison; floating-point rounding of `math.sqrt` is not modelled.
- TowerDefense.AttackNamesUnique: requires distinct enemy names, as the configured game has. With repeated names, the same name can appear twice.
