# goblin-clean: a verified model of its small pieces of logic

The repository is an operations dashboard and data pipeline for a game-market
("gold farming") assistant. Most of it is wiring around FastAPI, SQLite,
pandas, scikit-learn, psutil, docker and the browser DOM. This project models
the five pieces of it that hold logic of their own, and proves what they
promise:

- **Character registry** (`characters.dfy`, module `Characters`): the
  `CharacterDB` class keeps a list of character records, each a JSON object,
  keyed by the pair (name, realm). `add` refuses a duplicate key and appends
  otherwise. `get` returns the first record with the key. `update` merges
  fields into the stored record in place. `list_all` returns the list. The
  crafting-guide handler looks a profession up by name, ignoring case. A
  missing character and a missing profession both answer 404.
- **Price-history store** (`price_store.dfy`, module `PriceStore`): the
  `DatabaseManager` class over three append-only tables with AUTOINCREMENT
  ids. `save_scan_data` appends the four scan columns; a missing column or a
  failed write is only logged. `get_price_history` filters by item, orders by timestamp (newest
  first) and applies the limit. `save_prediction` commits only after its
  loop. `migrate_from_csv` does nothing when the file is absent.
- **Preprocessor** (`preprocess.dfy`, module `Preprocess`): `dropna` keeps
  exactly the rows with no missing cell, in order.
- **Agent status** (`agent_status.dfy`, module `AgentStatus`): Prometheus
  samples are folded into a dictionary, and a later sample wins. A
  heartbeat's age becomes green (under 30 s), yellow (under 60 s) or red
  (older, or no heartbeat).
- **Dashboard helpers** (`dashboard.dfy`, module `Dashboard`): `addPoint`
  keeps a chart's last 20 points. `showSpinner`/`hideSpinner` save and
  restore a button's HTML. The toast text after an action depends on the
  reply.

`wrappers.dfy` (Option, Result, `dict.get`) and `frames.dfy` (a data frame
of named columns and rows of possibly-missing cells) are shared helpers.

Clock, file and network inputs are parameters. The ui_status handler takes
the current time `now`. `save_scan_data` takes a flag saying whether the
SQLite write fails. `migrate_from_csv` takes the parsed CSV file, or None
when the path does not exist. `get_prom_metrics` takes the metric families
it fetched. The character registry's constructor takes the list its JSON
file held.

Notes on what the source does:

- The history query does not fix the order of rows with equal timestamps
  (SQLite decides). `IsHistory` therefore allows any order among ties.
  `History` is one admissible answer.
- `save_prediction` never commits when an input raises. The connection is
  closed without a commit. No row of a batch that raises is stored.
- `backend/database.py` uses `List[Dict]` at line 86 without importing
  `List` from `typing`. Under Python before 3.14 the annotation is evaluated
  when the method is defined, so importing the module raises NameError. From
  Python 3.14 (PEP 649) annotations are evaluated lazily and the import
  succeeds. The model describes the behaviour the code evidently intends.

## Model

| member | source | states |
|---|---|---|
| `Wrappers.Get` | backend/ui/status_api.py:29-33 | `prom.get(name, None)`: a value exactly when the key is present, and then the stored one |
| `Frames.ColumnIndex` | backend/database.py:70 | selecting a column by name finds it exactly when it exists, at its first position |
| `Preprocess.KeepComplete` | ml/pipeline/preprocess.py:6 | the kept rows are no more than the input rows, and every kept row is complete |
| `Preprocess.DropNA` | ml/pipeline/preprocess.py:4-7 | columns are never removed, the output is no longer than the input, and no output row has a missing field |
| `Preprocess.KeepCompleteIsSubsequence` | ml/pipeline/preprocess.py:6 | the kept rows keep their original relative order |
| `Preprocess.KeepCompleteCount` | ml/pipeline/preprocess.py:6 | each complete row is kept as often as it occurs; an incomplete row never is |
| `Preprocess.DropNAKeepsExactlyCompleteRows` | ml/pipeline/preprocess.py:6 | the output is exactly the subsequence of complete input rows |
| `Preprocess.DropNAOfCompleteIsIdentity` | ml/pipeline/preprocess.py:6 | a frame with no missing value comes back unchanged |
| `Preprocess.DropNAIdempotent` | ml/pipeline/preprocess.py:6 | preprocessing twice equals preprocessing once |
| `Preprocess.DropNAKeepsRectangular` | ml/pipeline/preprocess.py:6 | the result is still a well-formed frame, one cell per column in every row |
| `Preprocess.DropNAExample` | ml/pipeline/preprocess.py:6 | one incomplete row and two complete rows give two rows |
| `AgentStatus.HeartbeatColourRule` | backend/ui/status_api.py:41-50 | no heartbeat is red; age under 30 is green, 30 up to 60 yellow, 60 or more red (each an if-and-only-if) |
| `AgentStatus.HeartbeatColour` | backend/ui/status_api.py:41-50 | the corrected colour of one agent; `HeartbeatColourRule` pins each colour's region and `OlderHeartbeatNeverBetter` its order in age |
| `AgentStatus.OlderHeartbeatNeverBetter` | backend/ui/status_api.py:44-50 | an older heartbeat never shows a better colour than a newer one |
| `AgentStatus.AgentColours` | backend/ui/status_api.py:28-50 | exactly one entry per agent of the five, each the colour of that agent's heartbeat metric |
| `AgentStatus.ColoursAsWrittenWalk` | backend/ui/status_api.py:40-50 | the loop as written, over any agents still to visit, fails with NameError exactly when one of them has a heartbeat; otherwise it adds each as red and keeps earlier entries |
| `AgentStatus.AsWrittenNeverGreen` | backend/ui/status_api.py:40-50 | as written, the handler fails with NameError exactly when some agent has a heartbeat, and otherwise shows all five agents red |
| `AgentStatus.ColoursAsWritten` | backend/ui/status_api.py:40-50 | the loop as written over the agents still to visit, red for a missing heartbeat and NameError at the first present one; `ColoursAsWrittenWalk` proves what it returns |
| `AgentStatus.AgentColoursAsWritten` | backend/ui/status_api.py:40-50 | the handler as written, the walk over the five agents from an empty map; `AsWrittenNeverGreen` proves it fails or shows all five red |
| `AgentStatus.AsWrittenFailsOnFreshHeartbeat` | backend/ui/status_api.py:44 | a heartbeat one second old makes the handler as written fail, while the corrected rule shows it green |
| `AgentStatus.LastValue` | backend/ui/status_api.py:16-18 | the value found for a name is that of its last sample; none when no sample has the name |
| `AgentStatus.FoldKeepsLastValue` | backend/ui/status_api.py:16-18 | storing samples one by one into a dictionary leaves, for every name, its last sample's value, and no other keys |
| `AgentStatus.Fold` | backend/ui/status_api.py:16-18 | `metrics[s.name] = s.value` over the samples in order; `FoldKeepsLastValue` proves its keys are the sample names and each value the last sample of that name |
| `AgentStatus.GetPromMetrics` | backend/ui/status_api.py:12-21 | a failed fetch gives an empty dictionary; otherwise the keys are the sample names and the values their last samples |
| `AgentStatus.NoMetricsAllRed` | backend/ui/status_api.py:41-42 | with no metrics gathered, every agent is red |
| `Dashboard.Chart.constructor` | backend/ui/static/js/dashboard.js:199-202 | a new chart starts with no labels and no data |
| `Dashboard.Chart.AddPoint` | backend/ui/static/js/dashboard.js:231-243 | push both, then shift both once when there are more than 20 labels; equal lengths stay equal |
| `Dashboard.WindowShape` | backend/ui/static/js/dashboard.js:233-240 | from at most 20 points the new length is min(old + 1, 20), the new value is last, and trimming drops only the oldest |
| `Dashboard.PushAllKeepsLastPoints` | backend/ui/static/js/dashboard.js:236-240 | after any number of points the chart holds exactly the 20 most recent, oldest first |
| `Dashboard.Slide` | backend/ui/static/js/dashboard.js:236-240 | one push followed by at most one shift, applied to labels and data alike; `WindowShape` proves the shift drops only the oldest point |
| `Dashboard.Window` | backend/ui/static/js/dashboard.js:233-240 | a push that shifts once the series exceeds 20; `WindowShape` gives its length and last point, `PushAllKeepsLastPoints` the 20 newest after any number of pushes |
| `Dashboard.Button.ShowSpinner` | backend/ui/static/js/dashboard.js:41-44 | the original HTML is saved and the spinner markup appended |
| `Dashboard.Button.HideSpinner` | backend/ui/static/js/dashboard.js:46-51 | a saved non-empty original is restored and deleted; otherwise nothing changes |
| `Dashboard.Shown` | backend/ui/static/js/dashboard.js:41-44 | `showSpinner` on a button state; `SpinnerRoundTrip` proves hiding after it restores a non-empty label |
| `Dashboard.Hidden` | backend/ui/static/js/dashboard.js:46-51 | `hideSpinner` on a button state; `SpinnerRoundTrip` proves it idempotent and a no-op with nothing saved |
| `Dashboard.RunAction` | backend/ui/static/js/dashboard.js:58-103 | the clicked button is shown with the spinner and the running text, then gets the outcome's text and is hidden again: the screen is exactly the corrected outcome |
| `Dashboard.SpinnerRoundTrip` | backend/ui/static/js/dashboard.js:41-51 | show then hide restores a non-empty label and clears the saved copy; hiding is idempotent; an empty label keeps the spinner |
| `Dashboard.ToastText` | backend/ui/static/js/dashboard.js:78-82 | status "ok" gives the completed text; any other reply gives a text starting with "Error: " |
| `Dashboard.ErrorToastCarriesMessage` | backend/ui/static/js/dashboard.js:126-130 | the error text carries the message, or "Unknown failure" when it is missing or empty |
| `Dashboard.ActionOutcomeAsWritten` | backend/ui/static/js/dashboard.js:58-104 | `agentAction` (and `systemAction`, lines 111-150) as written: a reply shows its text and restores the button; a failed request keeps the running text and the spinner, proved in `FailedRequestKeepsSpinner` |
| `Dashboard.ActionOutcome` | backend/ui/static/js/dashboard.js:111-150 | `systemAction` (and `agentAction`, lines 58-104) with the catch block hiding the clicked button's spinner; `ActionOutcomeSettles` proves it never leaves the running text and agrees with the code as written after a reply |
| `Dashboard.FailedRequestKeepsSpinner` | backend/ui/static/js/dashboard.js:91-103 | as written, a failed request leaves the running text in the toast and the spinner on the button; corrected, the failure text shows and a labelled button is restored |
| `Dashboard.ActionOutcomeSettles` | backend/ui/static/js/dashboard.js:58-103 | corrected, every outcome replaces the running text and restores a labelled button; after a reply it is what the code as written shows |
| `Characters.CharacterDict` | backend/app/character_router.py:47 | the stored record carries the character's name and realm as strings |
| `Characters.FirstMatch` | backend/app/character_router.py:57-58 | none exactly when no record has the key; otherwise the first record with it |
| `Characters.Lookup` | backend/app/character_router.py:57-58 | none exactly when no record has the key; otherwise a record of the list that has the key and that no earlier record shares |
| `Characters.Merge` | backend/app/character_router.py:65 | the updated keys take the new values; every other key keeps its value; no key is removed |
| `Characters.CharacterDB.constructor` | backend/app/character_router.py:31-33 | the registry starts with the list the file held |
| `Characters.CharacterDB.Find` | backend/app/character_router.py:49 | the linear search returns the position of the first record with the key |
| `Characters.CharacterDB.Get` | backend/app/character_router.py:57-58 | None when no record matches, otherwise the first matching record of the list |
| `Characters.CharacterDB.Add` | backend/app/character_router.py:46-55 | a duplicate key fails and changes nothing; a fresh key appends exactly one record at the end; key uniqueness is preserved |
| `Characters.CharacterDB.Update` | backend/app/character_router.py:60-67 | an unknown key fails and changes nothing; otherwise only the first matching record is merged and returned |
| `Characters.CharacterDB.ListAll` | backend/app/character_router.py:69-70 | the list itself, in insertion order |
| `Characters.AddThenGet` | backend/app/character_router.py:53 | after adding a fresh key, `get` of that key returns the added record |
| `Characters.AddKeepsOtherLookups` | backend/app/character_router.py:53 | adding a record leaves the lookup of every other key unchanged |
| `Characters.AddKeepsUnique` | backend/app/character_router.py:46-55 | adding a key not yet present keeps all keys distinct |
| `Characters.UpdateKeepsUniqueWithoutKeyFields` | backend/app/character_router.py:65 | an update without name or realm keeps keys distinct |
| `Characters.UpdateCanBreakUniqueness` | backend/app/character_router.py:65 | renaming through an update can give two records the same key |
| `Characters.ResponseCodes` | backend/app/character_router.py:76-106 | a duplicate add answers 409; an unknown update or get answers 404 |
| `Characters.CreateResponse` | backend/app/character_router.py:83-84 | the ValueError of a duplicate add becomes 409 with its message; `ResponseCodes` proves the status and that a success passes through |
| `Characters.UpdateResponse` | backend/app/character_router.py:105-106 | the ValueError of an unknown update becomes 404 with its message; `ResponseCodes` proves the status |
| `Characters.GetResponse` | backend/app/character_router.py:95-96 | a missing character becomes 404 "Character not found"; `ResponseCodes` proves the status |
| `Characters.Lower` | backend/app/character_router.py:118 | lower-casing keeps the length and lowers each letter |
| `Characters.LowerIdempotent` | backend/app/character_router.py:118 | lower-casing twice is lower-casing once |
| `Characters.Iterate` | backend/app/character_router.py:118 | the items `for p in char['professions']` walks: a list its items, a string its characters, an empty dict nothing, anything else a server error; `CraftingGuideForAddedCharacter` shows a stored profession list is walked item by item |
| `Characters.NameMatches` | backend/app/character_router.py:118 | `p['name'].lower() == profession.lower()`, or none when the item has no string name; `FindProfession`'s contract is stated in its terms and `FindProfessionIgnoresCase` proves the query's case does not matter |
| `Characters.FindProfession` | backend/app/character_router.py:118 | not found exactly when every profession's name differs ignoring case; a found profession is the first whose name matches; a server error exactly when an item reached before any match has no string name |
| `Characters.FindProfessionIgnoresCase` | backend/app/character_router.py:118 | queries equal up to case find the same profession |
| `Characters.CraftingGuide` | backend/app/character_router.py:113-115 | an unknown character answers 404 "Character not found" |
| `Characters.FindProfessionInProfessionList` | backend/app/character_router.py:118-120 | over a validated character's professions the lookup never fails, finds a profession exactly when a name matches ignoring case, and finds the first such one |
| `Characters.CraftingGuideForAddedCharacter` | backend/app/character_router.py:113-128 | for an added character: success exactly when a profession matches ignoring case, otherwise 404 "Character doesn't have ..."; the guide gets the first matching profession's skill level, the target and the character's gold |
| `PriceStore.CreateIfMissing` | backend/database.py:26-59 | every table exists afterwards and none that existed is lost |
| `PriceStore.CreateIfMissingIdempotent` | backend/database.py:26-59 | creating the schema twice equals creating it once |
| `PriceStore.AbsentScanColumns` | backend/database.py:70 | exactly the scan columns the frame lacks, in the order they are asked for; none exactly when all four exist |
| `PriceStore.ScanLogOf` | backend/database.py:68-74 | rows are saved exactly when all four columns exist and the write succeeds, and then all of them are counted; a missing column is logged with the columns missing |
| `PriceStore.ScanRows` | backend/database.py:70-71 | one row per frame row, numbered after the last id, holding that row's item_id, price, quantity and timestamp cells |
| `PriceStore.ScanRowsDependOnlyOnScanColumns` | backend/database.py:70 | extra columns and column order make no difference to the rows appended |
| `PriceStore.ScanRow` | backend/database.py:70 | one frame row projected on the four scan columns by name; `ScanRowsDependOnlyOnScanColumns` proves extra columns and column order make no difference |
| `PriceStore.Matching` | backend/database.py:81 | only rows of the requested item, drawn from the table |
| `PriceStore.MatchingKeepsEveryMatch` | backend/database.py:81 | every row of the requested item is kept |
| `PriceStore.SortDesc` | backend/database.py:81 | the result is a permutation, ordered by timestamp from newest to oldest, NULL last |
| `PriceStore.Take` | backend/database.py:81 | a prefix of its input: the first `limit` rows, or all when fewer |
| `PriceStore.TakeKeepsNewest` | backend/database.py:81 | limiting a newest-first list keeps it sorted, and no row left out is newer than a row kept |
| `PriceStore.HistoryMeetsSpec` | backend/database.py:78-84 | the computed answer meets the query's promise |
| `PriceStore.HistoryProperties` | backend/database.py:78-84 | any answer holds only table rows of that item, at most `limit`; limit 0 or an unknown item gives nothing; a large limit gives all matches |
| `PriceStore.HistoryExample` | backend/database.py:81 | timestamps 10, 30, 20 with limit 2 give the rows stamped 30 then 20 |
| `PriceStore.IsHistory` | backend/database.py:81 | what the query promises under any order of ties: `min(limit, #matching)` matching rows, newest first, none left out newer than one returned; `HistoryProperties` derives its consequences |
| `PriceStore.History` | backend/database.py:81 | filter, sort newest first, then limit; `HistoryMeetsSpec` proves it is an admissible answer |
| `PriceStore.MissingKey` | backend/database.py:95 | none exactly when all five keys are present; otherwise the first key, in the order the tuple reads them, that is missing |
| `PriceStore.PredictionRows` | backend/database.py:91-95 | one row per input, with consecutive ids after the last; `price` is stored as predicted_price |
| `PriceStore.PredictionRowOf` | backend/database.py:92-95 | the row one complete prediction becomes, `price` stored as predicted_price; `PredictionRows` numbers one per input |
| `PriceStore.FirstMissingKey` | backend/database.py:91-95 | no KeyError exactly when every input has the five keys |
| `PriceStore.AppendKeepsPriceIds` | backend/database.py:28 | appending rows with the next ids keeps ids strictly increasing |
| `PriceStore.AppendKeepsPredictionIds` | backend/database.py:39 | appending rows with the next ids keeps ids strictly increasing |
| `PriceStore.DatabaseManager.constructor` | backend/database.py:16-18 | a new database has the three tables, all empty, and both AUTOINCREMENT counters at 0, so the first row of each table gets id 1 |
| `PriceStore.DatabaseManager.InitDb` | backend/database.py:20-63 | missing tables are created; stored rows are untouched |
| `PriceStore.DatabaseManager.SaveScanData` | backend/database.py:65-76 | all four columns and a good write append the projected rows; otherwise nothing is appended and only a log line results; other tables unchanged |
| `PriceStore.DatabaseManager.GetPriceHistory` | backend/database.py:78-84 | the answer is the limited, newest-first list of the item's rows, ties in any order |
| `PriceStore.DatabaseManager.SavePrediction` | backend/database.py:86-98 | all inputs complete: every row is stored; otherwise the first KeyError is raised and nothing is stored |
| `PriceStore.DatabaseManager.MigrateFromCsv` | backend/database.py:100-108 | a missing file changes nothing; otherwise the same log, appended rows and id counter as saving its rows; predictions and their counter unchanged |

## Findings

| source | as written | input that shows it | evidently intended | confidence | as-written member | corrected member |
|---|---|---|---|---|---|---|
| backend/ui/status_api.py:44 | `time.time()` is called but `time` is never imported (lines 1-5), so the first agent with a heartbeat raises NameError | metrics holding `goblin_agent_heartbeat_warden` = 99.0 (any present heartbeat) | colour each agent by the heartbeat's age against the current time | high, not executed | `AgentStatus.AsWrittenNeverGreen` | `AgentStatus.AgentColours` |
| backend/ui/static/js/dashboard.js:97 | the catch blocks call `hideSpinner(event.target)` (lines 97 and 143); `event` is the global `window.event`, which no longer holds the click once the function has resumed after `await fetch(...)` or `await res.json()`, so that line throws and the failure text is never set | the POST to `/ui/actions/restart/warden` answered with a plain-text 500 page, so `res.json()` rejects | declare `clicked` before the `try` (it is a `const` inside the `try`, lines 61 and 114, so the `catch` cannot see it), hide that button's spinner and show "Action failed" | high, not executed | `Dashboard.FailedRequestKeepsSpinner` | `Dashboard.ActionOutcomeSettles` |

## Left out

- `_load`/`_save` in character_router.py: JSON file I/O. The constructor takes the loaded list. It requires every record to carry `name` and `realm`, as every saved record does. `Find`, `Get` and `CraftingGuide` require the same, since the search reads `c['name']` and `c['realm']` of each record it passes (lines 49 and 58) and raises KeyError on a record without them.
- Characters.CraftingGuide: `LevelingGuideGenerator` is not part of this model. The handler's result is modelled up to the arguments it passes to the generator. The handler imports it (character_router.py:111) before looking the character up; the model assumes that import succeeds, since a failing import makes every request answer 500, unknown characters included.
- Characters.Lower: lower-cases ASCII letters only. Python's `str.lower` also folds other Unicode letters.
- Characters.CharacterDict: `Value` has no floating-point case, so a record or an update body holding a float (such as `"gold": 1.5`) is not modelled.
- Pydantic validation of request bodies and FastAPI's re-validation of responses against `response_model` are not modelled.
- price_store.dfy: the sqlite3 connection lifecycle, pandas `to_sql`/`read_sql_query`/`read_csv`, SQLite type affinity and the string-built SQL are replaced by abstract tables.
- Default arguments are not modelled: callers of `GetPriceHistory` pass `limit` (100 by default, database.py:78), and callers of `CraftingGuide` pass the target skill (100 by default, character_router.py:109).
- SQLite's meaning of a negative LIMIT is out of scope, so `limit` is a natural number.
- Scan cells are integers or missing. String or fractional values in scan frames are not modelled.
- PriceStore.ScanRow: a frame with two columns of the same name is not modelled. The first column of that name is used.
- PriceStore.DatabaseManager.SaveScanData: `sqlite3.connect` (database.py:67) sits outside the `try`, so a failure to open the database raises instead of being logged; opening is not modelled. Storage failures are a single flag. Storage failures in the other operations, which would raise, are not modelled.
- PriceStore.DatabaseManager.constructor: models opening a new file. Opening an existing file is covered by `InitDb`, which holds for any prior state.
- PriceStore.DatabaseManager.MigrateFromCsv: a CSV file that fails to parse raises in pandas; the model receives the parsed frame.
- The transactions table is created but never written, so its rows are only carried unchanged.
- status_api.py: the HTTP fetch, the Prometheus text parser, psutil, docker and the unused `now` at line 37 are left out. A parse error part way is modelled by passing only the families parsed before it.
- AgentStatus.HeartbeatColour: sample values are reals; a NaN heartbeat value (red in Python, since every comparison fails) is not modelled, and neither are the infinities Prometheus can report (a `+Inf` heartbeat shows green in Python, a `-Inf` one red).
- dashboard.js: fetch, timers, Chart.js drawing, `parseFloat` of DOM text, the patched `updateStatus` and the log viewer are left out. So are the toast's display toggling and the disabling of buttons.
- Dashboard.ActionOutcomeAsWritten: takes `window.event` to be undefined once the handler has resumed after an `await`, as browsers that provide it leave it. A failure before the first `await` is not modelled.
- Dashboard.ToastText: `status` and `message` are modelled as optional strings. Other JSON types are not modelled.
- Preprocess.DropNA: `Frame` has no index, so the original index labels pandas keeps on the surviving rows are not modelled; only the rows and their order are.
- ml/pipeline/train.py and ml/pipeline/predict.py (least-squares fitting and model files), backend/main.py and backend/ui/router.py (application wiring) are not part of this model.
