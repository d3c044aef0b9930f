/**
 * History Writer: the meaning of the upsert statement in `save_to_database` (sync.py) on the
 * destination table `openai_chat_history`, seen as a map from `id` to the row's other columns.
 * The transcript is kept as its structured value; `fetchedAt` is the `NOW()` of the statement.
 */
module Writer {
  import opened Transcript

  /** The non-key columns of a row of `openai_chat_history`. */
  datatype SyncedRecord = SyncedRecord(phone: string, responseId: string, chatHistory: seq<Entry>, fetchedAt: int)

  type Table = map<string, SyncedRecord>

  /**
   * `INSERT ... VALUES (...) ON CONFLICT (id) DO UPDATE SET chat_history, phone, response_id,
   * fetched_at`: a fresh row when `id` is new, else the four columns of the existing row are
   * overwritten.  Either way the table ends up holding the new values under `id`, and no other
   * row is touched.
   */
  function Upsert(table: Table, id: string, phone: string, responseId: string, history: seq<Entry>, now: int): (t: Table)
    ensures id in t && t[id] == SyncedRecord(phone, responseId, history, now)
    ensures t.Keys == table.Keys + {id}
    ensures forall k :: k in table && k != id ==> t[k] == table[k]
  {
    if id in table then
      table[id := table[id].(chatHistory := history, phone := phone, responseId := responseId, fetchedAt := now)]
    else
      table[id := SyncedRecord(phone, responseId, history, now)]
  }

  /**
   * Idempotence: two saves under the same id leave one row, holding the second call's values;
   * the first call leaves no trace.
   */
  lemma UpsertLastWins(table: Table, id: string, phone1: string, resp1: string, history1: seq<Entry>, now1: int,
                       phone2: string, resp2: string, history2: seq<Entry>, now2: int)
    ensures Upsert(Upsert(table, id, phone1, resp1, history1, now1), id, phone2, resp2, history2, now2)
         == Upsert(table, id, phone2, resp2, history2, now2)
  {
  }

  /** An upsert adds a row only for an id the table did not hold. */
  lemma UpsertRowCount(table: Table, id: string, phone: string, responseId: string, history: seq<Entry>, now: int)
    ensures |Upsert(table, id, phone, responseId, history, now)| == if id in table then |table| else |table| + 1
  {
  }
}
