/**
 * Change Detector: the meaning of the query in `check_for_updates` (sync.py).  The source
 * table is a sequence of rows with integer timestamps in seconds; `NOW()` is the parameter
 * `now`.  The query is not executed: `Detect` is a filter followed by a sort, and its
 * contract says which rows come back and in what order.
 */
module Detector {
  import opened Wrappers

  /** Width of the trailing window, `INTERVAL '60 seconds'`. */
  const WINDOW_SECONDS := 60

  /** A row of `openai_responses`; `latestResponseId` is `None` for SQL NULL. */
  datatype SourceRow = SourceRow(id: string, phone: string, latestResponseId: Option<string>, updatedAt: int)

  /** A selected row `(id, phone, latest_response_id, updated_at)`; its response id is not NULL. */
  datatype ChangeRecord = ChangeRecord(id: string, phone: string, responseId: string, updatedAt: int)

  /** The WHERE clause: changed within the window (strictly) and with a response id. */
  predicate Selected(r: SourceRow, now: int) {
    r.updatedAt > now - WINDOW_SECONDS && r.latestResponseId.Some?
  }

  function ToRecord(r: SourceRow): ChangeRecord
    requires r.latestResponseId.Some?
  {
    ChangeRecord(r.id, r.phone, r.latestResponseId.value, r.updatedAt)
  }

  /** The rows the WHERE clause keeps, in table order. */
  function Matching(rows: seq<SourceRow>, now: int): seq<ChangeRecord> {
    if rows == [] then []
    else if Selected(rows[0], now) then [ToRecord(rows[0])] + Matching(rows[1..], now)
    else Matching(rows[1..], now)
  }

  /** `ORDER BY updated_at DESC`: timestamps never increase along the sequence. */
  predicate NewestFirst(cs: seq<ChangeRecord>) {
    forall i, j :: 0 <= i < j < |cs| ==> cs[i].updatedAt >= cs[j].updatedAt
  }

  /** Puts `c` in front of the first record that is strictly older than it. */
  function Insert(c: ChangeRecord, cs: seq<ChangeRecord>): (r: seq<ChangeRecord>)
    requires NewestFirst(cs)
    ensures NewestFirst(r)
    ensures multiset(r) == multiset(cs) + multiset{c}
    ensures r[0] == c || (cs != [] && r[0] == cs[0])
  {
    if cs == [] || c.updatedAt >= cs[0].updatedAt then [c] + cs
    else
      var rest := Insert(c, cs[1..]);
      assert cs == [cs[0]] + cs[1..];
      assert cs[0].updatedAt >= rest[0].updatedAt;
      [cs[0]] + rest
  }

  /** Insertion sort, newest first. */
  function SortNewestFirst(cs: seq<ChangeRecord>): (r: seq<ChangeRecord>)
    ensures NewestFirst(r)
    ensures multiset(r) == multiset(cs)
  {
    if cs == [] then []
    else
      assert cs == [cs[0]] + cs[1..];
      Insert(cs[0], SortNewestFirst(cs[1..]))
  }

  /** The query's result: exactly the matching rows, each as often as it occurs, newest first. */
  function Detect(rows: seq<SourceRow>, now: int): (r: seq<ChangeRecord>)
    ensures NewestFirst(r)
    ensures multiset(r) == multiset(Matching(rows, now))
  {
    SortNewestFirst(Matching(rows, now))
  }

  /**
   * `check_for_updates`: `None` stands for a connection or query error, which is absorbed
   * and reads as an empty batch.
   */
  function CheckForUpdates(table: Option<seq<SourceRow>>, now: int): (r: seq<ChangeRecord>)
    ensures table.None? ==> r == []
    ensures table.Some? ==> multiset(r) == multiset(Matching(table.value, now))
    ensures NewestFirst(r)
    ensures forall i :: 0 <= i < |r| ==> r[i].updatedAt > now - WINDOW_SECONDS
  {
    match table
    case None => []
    case Some(rows) =>
      var r := Detect(rows, now);
      forall i | 0 <= i < |r| ensures r[i].updatedAt > now - WINDOW_SECONDS {
        assert r[i] in multiset(Matching(rows, now));
        DetectMembers(rows, now, r[i]);
      }
      r
  }

  /** A record is in the filtered rows exactly when some selected source row produced it. */
  lemma {:induction false} MatchingMembers(rows: seq<SourceRow>, now: int, c: ChangeRecord)
    ensures c in Matching(rows, now) <==>
      exists i :: 0 <= i < |rows| && Selected(rows[i], now) && ToRecord(rows[i]) == c
  {
    if rows != [] {
      MatchingMembers(rows[1..], now, c);
      if exists i :: 0 <= i < |rows| && Selected(rows[i], now) && ToRecord(rows[i]) == c {
        var i :| 0 <= i < |rows| && Selected(rows[i], now) && ToRecord(rows[i]) == c;
        if i > 0 {
          assert rows[1..][i - 1] == rows[i];
        }
      }
      if c in Matching(rows[1..], now) {
        var k :| 0 <= k < |rows[1..]| && Selected(rows[1..][k], now) && ToRecord(rows[1..][k]) == c;
        assert rows[k + 1] == rows[1..][k];
      }
    }
  }

  /** Detector filter: the selected records are exactly those of rows that pass the WHERE clause. */
  lemma DetectMembers(rows: seq<SourceRow>, now: int, c: ChangeRecord)
    ensures c in Detect(rows, now) <==>
      exists i :: 0 <= i < |rows| && Selected(rows[i], now) && ToRecord(rows[i]) == c
  {
    MatchingMembers(rows, now, c);
    assert c in Detect(rows, now) <==> c in multiset(Matching(rows, now));
  }

  /** A row changed 5 seconds ago is returned; one changed 120 seconds ago is not. */
  lemma DetectWindowExample(now: int, recent: SourceRow, outdated: SourceRow)
    requires recent.latestResponseId.Some? && recent.updatedAt == now - 5
    requires outdated.updatedAt == now - 120
    ensures ToRecord(recent) in Detect([recent, outdated], now)
    ensures forall c :: c in Detect([recent, outdated], now) ==> c.updatedAt == now - 5
  {
    var rows := [recent, outdated];
    DetectMembers(rows, now, ToRecord(recent));
    forall c | c in Detect(rows, now) ensures c.updatedAt == now - 5 {
      DetectMembers(rows, now, c);
    }
  }
}
