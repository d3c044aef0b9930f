# agent_sync_responsesAPI in Dafny

A model of the polling synchroniser in `sync.py`. On every tick it does four things:
- It asks the `openai_responses` table for rows changed in the last 60 seconds.
- For each such row, it fetches the conversation from the OpenAI Responses API: the input items plus the final output.
- It assembles that conversation into a transcript.
- It upserts the transcript into `openai_chat_history`.

An in-memory guard set `processed_records` of `id:latest_response_id` keys stops the same row being fetched and saved twice. The guard is cleared wholesale once it holds more than 1000 keys.

The HTTP calls, the SQL connections and the clock are parameters:
- The detector is a function of the source table's rows and `now`.
- The fetcher is a function of the two decoded HTTP responses. `None` means a request failed.
- Inside a tick, what the API and the database answer for row `i` is supplied as `fetches[i]` and `saves[i]`.

Modules, one per component of `sync.py`:

- `Wrappers` (wrappers.dfy): `Option`, for an absent JSON field or a NULL column.
- `Transcript` (transcript.dfy): transcript assembly and the three outcomes of `fetch_from_openai`:
  - a transcript;
  - `NoData`, the `None` sentinel of a `RequestException`;
  - `Malformed`, the `KeyError`/`IndexError` of a payload missing a field. The handler does not catch this one.
- `Detector` (detector.dfy): the meaning of the `SELECT` in `check_for_updates`, as a filter and an insertion sort.
- `Writer` (writer.dfy): the meaning of `INSERT ... ON CONFLICT (id) DO UPDATE` on a `map<string, SyncedRecord>`.
- `Bot` (bot.dfy): one tick of `start_bot`, in three parts:
  - `Step` and `Run` are the specification functions, for one row and for a prefix of the rows.
  - Lemmas over `Run` state the guard's properties.
  - `SyncBot` is a class whose fields are the guard set and the destination table. Its method `ProcessTick` is the `for row in rows` loop, proved equal to `Run`.

When an add overflows the guard, the guard becomes empty. The key that caused the overflow is not put back (sync.py:186-189).

A malformed payload does not yield the "no data" sentinel. Only `RequestException` is caught (sync.py:60), so the `KeyError`/`IndexError` escapes. A code path that raises from inside the tick ends the whole polling loop (sync.py:194). In the model this is `RowOutcome.Aborted`: no later row of the tick is processed (`RunHalted`).

## Model

| member | source | states |
|---|---|---|
| Transcript.Fetch | sync.py:41-62 | A failed request (either GET) gives `NoData`, even if the other payload is malformed. A missing field with both requests answered gives `Malformed`, never `NoData`. A fetched transcript is the assembly of the two payloads, with one entry more than the history |
| Transcript.Reversed | sync.py:48 | No ensures of its own: the slice `[::-1]`. `ReversedAt` and `ReversedLength` state its meaning |
| Transcript.History | sync.py:48 | No ensures of its own: `.get("data", [])`. `MissingDataSingleEntry` states the missing-field case |
| Transcript.ReversedAt | sync.py:48 | The slice `[::-1]` keeps the length and puts element `|s|-1-i` at position `i` |
| Transcript.ReversedLength | sync.py:48 | Reversal keeps the length |
| Transcript.Project | sync.py:49 | No ensures of its own: the entry `{role, content[0].text}` of one well-formed item. `ProjectAllSpec` and `AssembleWellFormed` state its use |
| Transcript.ProjectAll | sync.py:49 | No ensures of its own: the list comprehension, failing as a whole on a malformed item. `ProjectAllSpec` states its meaning |
| Transcript.ProjectAllSpec | sync.py:49 | The list comprehension succeeds iff every item has a role and a first content block with text. It then maps item `i` to entry `i` |
| Transcript.Assemble | sync.py:48-56 | No ensures of its own: reverse, project, append the `output[0]` entry. `AssembleWellFormed`, `AssembleMalformed` and `AssembleSucceeds` state its meaning |
| Transcript.AssembleWellFormed | sync.py:48-56 | For well-formed payloads the transcript has length `|data|+1`. Entry `i` is built from `data[|data|-1-i]`. The last entry is built from `output[0]` |
| Transcript.AssembleMalformed | sync.py:49-56 | If the history or the envelope lacks a field that is read, the whole assembly fails: no partial transcript |
| Transcript.AssembleSucceeds | sync.py:48-56 | Assembly succeeds iff the payloads are well formed, and then has `|data|+1` entries |
| Transcript.MissingDataSingleEntry | sync.py:48-56 | A page without `data` reads as `[]` and gives the one-entry transcript of `output[0]` |
| Transcript.AssembleExample | sync.py:48-56 | Items `[user "b", assistant "a"]` (newest first) and output `assistant "c"` give `[assistant "a", user "b", assistant "c"]` |
| Detector.Insert | sync.py:126 | Inserting into a newest-first sequence keeps it newest first and adds exactly one occurrence of the record |
| Detector.SortNewestFirst | sync.py:126 | The result is ordered by `updated_at`, non-increasing, and is a permutation of the input |
| Detector.Detect | sync.py:121-127 | The selected rows are newest first and are a permutation of the rows the WHERE clause keeps |
| Detector.CheckForUpdates | sync.py:108-137 | A failed query gives `[]`. Otherwise the result holds every matching row, each as often as it occurs, newest first. Every record satisfies `updated_at > now - 60` |
| Detector.Selected | sync.py:124-125 | No ensures of its own: the WHERE clause. `MatchingMembers` and `DetectMembers` state its use |
| Detector.Matching | sync.py:124-125 | No ensures of its own: the rows the WHERE clause keeps. `MatchingMembers` states its meaning |
| Detector.MatchingMembers | sync.py:124-125 | A record passes the filter iff some source row has `updated_at > now - 60` (strict) and a non-NULL response id, and produces that record |
| Detector.DetectMembers | sync.py:121-127 | The records returned are exactly those of rows passing the WHERE clause |
| Detector.DetectWindowExample | sync.py:124-125 | A row updated 5 s ago with a response id is returned. One updated 120 s ago is not |
| Writer.Upsert | sync.py:79-95 | After the upsert, `table[id]` holds `(phone, response_id, chat_history, now)`. The key set only gains `id`. Every other row is unchanged |
| Writer.UpsertLastWins | sync.py:82-87 | Two upserts with the same id equal the second one alone |
| Writer.UpsertRowCount | sync.py:80-87 | An upsert adds a row only when `id` was not there before |
| Bot.Admit | sync.py:186-189 | The guard never exceeds 1000 keys. It is either the old guard plus the key, or empty, and it is empty exactly when the add would make it exceed 1000 |
| Bot.Step | sync.py:163-189 | A key in the guard gives `Seen`, whatever the fields. Otherwise an empty id or response id gives `Incomplete`. Only the remaining rows are fetched. `NoData` and `Malformed` stop before the save. Only a committed save changes the state: upsert plus guard add. The guard bound is kept |
| Bot.Run | sync.py:163-189 | A tick processes every row in order unless one aborts. An aborted row is the last one processed |
| Bot.RunHalted | sync.py:178 | After an aborted row no further row changes the state or adds an outcome |
| Bot.RunOutcomeAt | sync.py:163-189 | Row `i`, when reached, is processed by `Step` from the state the earlier rows left |
| Bot.RunBounded | sync.py:186-189 | A tick that starts with at most 1000 guard keys ends with at most 1000 |
| Bot.RunGuardSize | sync.py:186 | Each row adds at most one key to the guard |
| Bot.RunGuardSources | sync.py:185-186 | Every key the guard holds after a tick was there before or belongs to a row whose save succeeded |
| Bot.RunTableFrame | sync.py:185 | A table row whose id no synced row carries is unchanged by the tick |
| Bot.RunGuardMonotone | sync.py:186-189 | The guard only grows from row `m` to row `n` if no row in between syncs a key that overflows it (`NoOverflow`). Rows that add nothing impose no condition |
| Bot.StepKeepsGuard | sync.py:185-189 | A row that does not sync, or syncs a key that fits, removes no key from the guard |
| Bot.SyncedKeyKept | sync.py:186-189 | A synced row's key stays in the guard up to any later row `m`, when no syncing row from it to `m` overflows the guard |
| Bot.DedupWithinTick | sync.py:167-169 | If no syncing row between rows `i` and `j` clears the guard, a row `j` whose key row `i` synced is `Seen`: no fetch, no save |
| Bot.SyncedKeyRetained | sync.py:167-169 | A synced row's key is in the guard at the end of the tick when no later syncing row clears it. The same row on the next tick is then `Seen` |
| Bot.FailureIsolated | sync.py:180-182 | After a failed fetch, the next row of the same tick is still processed, from an unchanged state |
| Bot.RetriedAfterSaveFailure | sync.py:185-186 | After a failed save the key is not in the guard, so the same row is fetched again on a later tick |
| Bot.Key | sync.py:167 | No ensures of its own: the key `id + ":" + response_id`. `KeyInjective`, `FirstColon` and `KeyCollision` state its meaning |
| Bot.FirstColon | sync.py:167 | In a key whose id has no `:`, the first `:` is the separator |
| Bot.KeyInjective | sync.py:167 | When ids contain no `:`, equal keys mean equal (id, response id) pairs |
| Bot.KeyCollision | sync.py:167 | With a `:` in an id, two different pairs can share a key |
| Bot.SyncBot.constructor | sync.py:21 | At process start the guard is empty and the table is whatever it already holds |
| Bot.SyncBot.SaveToDatabase | sync.py:65-105 | It returns true iff the database commits. The table is then the upsert of its old value. On an error it is unchanged |
| Bot.SyncBot.ProcessTick | sync.py:160-189 | The loop leaves the guard and table that `Run` gives, returns `Run`'s outcomes, and keeps the guard at 1000 keys or fewer |

## Left out

- PostgreSQL connections, cursors, commits and the test connection (sync.py:70-77, 97-99, 111-118, 129-131, 146-153): foreign I/O. They are replaced by the source rows, the `saves` outcomes and the table map.
- `requests.get`, `raise_for_status` and the bearer header (sync.py:33-46): network I/O. They are replaced by `Option` responses and the `fetches` outcomes.
- `json.dumps` of the transcript and `response.json()` (sync.py:48, 51, 94): JSON handling. Payloads and `chat_history` are structured values. Only the absence of a field is modelled. A field of the wrong JSON type is not.
- `load_dotenv`/`os.getenv` (sync.py:9-18): configuration loading.
- `print` output throughout: console logging only.
- The `while True` loop and `time.sleep(10)` (sync.py:158, 192): timing. The model is a single tick. The guard and table carry from one tick to the next in the `SyncBot` object.
- `NOW()`: the detector takes `now: int`. Each save's commit time arrives inside `SaveOutcome.Committed`. Timestamps are whole seconds.
- SyncBot.SaveToDatabase: a save that commits and then raises while closing the cursor or connection (sync.py:98-99) is not modelled. The model treats every failed save as one that wrote nothing.
- Detector.Detect: rows with equal `updated_at` have no order in SQL. The model fixes one order. Its contract promises only what the query promises: newest first, and a permutation of the matching rows.
- The key is kept as the string `id + ":" + response_id`, as the source builds it. So it can collide when an id contains `:` (`KeyCollision`). A UUID id never does (`KeyInjective`).
- `id` and `phone` are taken as non-NULL strings. In the source, a NULL id would give the key `"None:..."` (sync.py:167) and then be skipped (sync.py:174). A NULL phone would be saved as NULL (sync.py:90-95).
- SyncBot.ProcessTick: the per-row fetch results are any `FetchOutcome`, not values produced by `Transcript.Fetch`. So the tick admits results the fetcher cannot return, such as an empty transcript. Every property of the tick holds for these too.
- The source table's `latest_response_id` NULL is removed by the detector. So the tick's records carry a string, and only the empty-string case of sync.py:174 arises.
