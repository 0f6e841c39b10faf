# timescraft state store, in Dafny

A model of the state module of a browser multiplication-drill game
(`js/state.js`). It covers two things:

- the **question-table builder**, which turns the authored 8×8 difficulty
  matrix into one row of question records per table `2..9`;
- the **state store**, a single record of session and progress properties.
  It has a shallow-merge setter, a play reset and a full reset. Its progress
  part (`tables`, `score`, `level`) is saved to, loaded from and cleared in the
  browser's key-value store.

Files:

- `wrappers.dfy` (module `Wrappers`): `Option`, which stands for JavaScript's
  `null` and for absent properties.
- `questions.dfy` (module `Questions`): the `Question` record, the difficulty
  matrix and `GetTables`. `GetTables` is written as two recursive functions,
  `Row` and `Rows`, one for each of the source's nested loops.
- `state.dfy` (module `GameState`): the `State` record and the `Field`
  enumeration of its properties. It also has the `Value` type (a property value
  seen as a JSON value), `Patch` (a partial state object) and the operations
  `SetState`, `ResetPlayState` and `ResetState`.
- `persistence.dfy` (module `Persistence`): the store is a `map<string, Value>`.
  `Save` and `Clear` fold over the saved-property list `[Tables, Score, Level]`
  in the order the source's `forEach` walks it. `Load` takes the same three
  `LoadField` steps in the same order.

The state is an explicit value. Each operation takes the old state and returns
the new one, where the source mutates a module-level singleton. The store is
handled the same way. The JSON encoding is modelled as the identity: a stored
value is the property value itself. The question field `by` of the source is
called `multiplier` here because `by` is a Dafny keyword.

## Model

| member | source | states |
|---|---|---|
| Questions.GetTables | js/state.js:42-66 | Exactly `maxTable - 1` rows of `maxTable - 1` questions. Row `i` is table `i + 2`. Column `j` is the fresh question `(i + 2) × (j + 2)` with difficulty `m[i][j]`. The result is empty when `maxTable < 2`. |
| Questions.Rows | js/state.js:44-63 | The outer loop from `table` on: one row per remaining table, in table order. Each row has `maxTable - 1` questions with difficulties read from the table's matrix row. |
| Questions.Row | js/state.js:46-60 | The inner loop from `by` on: multipliers ascend from `by` to `maxTable`. Each question has difficulty `m[table - 2][by - 2]`, zero counters and no timestamps. |
| Questions.GetTablesLookup | js/state.js:47-52 | The question at `[table - 2][by - 2]` has that table and that multiplier. It takes its difficulty from the matrix at the same indices. |
| Questions.GetTablesOrdered | js/state.js:44-46 | Tables ascend across rows and multipliers ascend within a row, so `(table, by)` is a unique key. |
| Questions.DifficultyArraysInRange | js/state.js:2-11 | The authored matrix is 8×8 and every entry lies in 1..25. |
| Questions.DefaultCovers | js/state.js:13 | The default matrix has every entry the default build (`maxTable = 9`) reads. |
| Questions.DefaultTablesShape | js/state.js:42-57 | The default build has 8 rows of 8. Tables and multipliers run over 2..9, difficulties come from the matrix and lie in 1..25, `tried = correct = 0`, and both timestamps are null. |
| Questions.DefaultTablesCorners | js/state.js:2-13 | In the default build, `2 × 2` has difficulty 1 and `9 × 9` has difficulty 23. |
| GameState.SetState | js/state.js:32-34 | Every property the patch has takes the patch's value. Every other property keeps its value. |
| GameState.Single | js/state.js:91 | The one-property patch `{[key]: value}` exists exactly when the value has the property's shape. It sets that property and no other. |
| GameState.SetStateEmpty | js/state.js:32-34 | Merging an empty patch leaves the state unchanged. |
| GameState.SetStateIdempotent | js/state.js:32-34 | Merging the same patch twice equals merging it once. |
| GameState.Then | js/state.js:32-34 | The combined patch has the later patch's property wherever it has one, and the earlier patch's property otherwise. |
| GameState.SetStateThen | js/state.js:32-34 | Two successive merges equal one merge of the combined patch. |
| GameState.ResetPlayState | js/state.js:68-76 | Sets `life = 5`, `clearTime = 0`, `currentIndex = 0`, `remainingTime = 9` and `isMenuOpen = false`. Keeps `tables`, `score`, `level`, `currentTable` and `currentQuestions`. |
| GameState.ResetPlayStateFrame | js/state.js:68-76 | The play reset changes exactly the five play properties and leaves every other property alone. |
| GameState.ResetPlayStateIdempotent | js/state.js:68-76 | Resetting the play twice equals resetting it once. |
| GameState.DefaultTables | js/state.js:13 | The default question set is the build of the authored matrix with `maxTable = 9`. It has 8 rows of 8, and its first row holds the questions of table 2. |
| GameState.Snapshot | js/state.js:103 | Spreading a state into a patch gives every property, each with that state's value. |
| GameState.SetStateSnapshot | js/state.js:102-104 | Merging a full snapshot of `t` into any state gives `t`. |
| GameState.InitialState | js/state.js:15-26 | The start-up state: the default question set (8 rows of 8), `currentTable = 2`, and `currentQuestions` equal to `tables[0]`, the questions of table 2. Also `currentIndex = 0`, `life = 5`, `clearTime = 0`, `remainingTime = 9`, `score = 0`, `level = 1` and a closed menu. |
| GameState.ResetState | js/state.js:102-104 | Whatever the prior state, the result is the start-up state, progress included: `life = 5`, `score = 0`, `level = 1`. |
| Persistence.SaveFields | js/state.js:80-85 | Each listed property is stored under its own name. Keys outside the list keep their values, and no other key appears. |
| Persistence.Save | js/state.js:78-85 | The store then holds `tables`, `score` and `level` with the state's values. Every other key is kept unchanged. |
| Persistence.SaveFieldsDepends | js/state.js:80-85 | What is saved depends only on the listed properties of the state. |
| Persistence.SaveIgnoresPlayReset | js/state.js:68-85 | Saving after a play reset writes the same store as saving before it. |
| Persistence.LoadField | js/state.js:88-92 | A present value of the right shape is merged into its property. Otherwise the state is unchanged. No other property changes. |
| Persistence.Load | js/state.js:87-94 | `tables`, `score` and `level` take the stored values when present. Absent keys leave them unchanged. The other seven properties keep their values. |
| Persistence.ClearFields | js/state.js:96-100 | The result is the store minus the keys of the listed properties. |
| Persistence.Clear | js/state.js:96-100 | Removes exactly `tables`, `score` and `level`. Every other key keeps its value. |
| Persistence.SaveLoad | js/state.js:80-94 | Loading what was saved from `s` into any state `t` gives `t` the saved properties of `s` and keeps all of `t`'s other properties. |
| Persistence.SaveThenLoadIdentity | js/state.js:80-94 | Saving a state and loading it back into the same state changes nothing. |
| Persistence.LoadAfterClear | js/state.js:87-100 | After a clear, a load leaves the whole state unchanged. |
| Persistence.SaveClearLoad | js/state.js:80-100 | Save, then clear, then load: the state is unchanged. |
| Persistence.ProgressSurvivesReset | js/state.js:87-104 | Save, full reset, load: the result is the start-up state with the saved tables, score and level. Every other property, `currentQuestions` included, keeps its start-up value. So `currentQuestions` stays the first default table and does not follow the loaded tables. |
| Persistence.ScoreSurvivesReset | js/state.js:102-104 | Set a score, save, then reset: the score drops to 0. A following load brings back the score set before the save. |

## Left out

- `getWrongAnswers` (the distractor generator) is defined in `js/questions`, outside the state module modelled here. Its uniqueness test in `tests/questions.test.js` states nothing: it never calls its matcher, and every answer finds itself.
- `window.localStorage` and `JSON.stringify`/`JSON.parse` are I/O. The store is a map and the encoding is the identity. Malformed stored JSON is not modelled: the source does not catch the exception `JSON.parse` would raise.
- The `if (dataString)` truthiness test in `loadState` becomes a presence test, because an encoded value is never the empty string.
- Persistence.Load: the model's properties are typed. A stored value whose JSON shape does not fit its property (a number under `tables`, say) is skipped. The source would merge it in untyped.
- Questions.GetTables: requires the matrix to have every entry the loops read. In the source, a missing row throws a `TypeError` and a short row yields an `undefined` difficulty. No caller relies on either outcome.
- Object aliasing is not modelled. `initialState.tables` and `state.tables` are the same array, and `resetState` only copies it shallowly, so any in-place change to a question record would survive a reset. A value model cannot express that sharing.
- `lastTried`/`lastCorrect` timestamps are `Option<int>` values. Nothing here reads a clock.
- Nothing here models the module-level singleton, the play controller that updates `tried`/`correct`, or the UI that calls these operations.
- The model's patches carry only the state's own properties, with values of the right type. Nothing models `Object.assign` with an `undefined` value or with an unknown property name.
- JavaScript numbers are assumed to be integers. Integers below 2^53 are exact in a double, which covers `Date.getTime()` timestamps. Fractional values are not modelled.
