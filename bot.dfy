/**
 * Loop driver and Dedup Guard: one tick of the polling loop of `start_bot` (sync.py).
 *
 * The rows of the tick come from the detector.  What the external API and the database answer
 * for row `i` are inputs: `fetches[i]` is what `fetch_from_openai` yields for it and `saves[i]`
 * whether `save_to_database` commits (and at which `NOW()`).  An input is consulted only when
 * the row gets that far.  The oracle is deliberately more general than `Transcript.Fetch`: it
 * admits results the fetcher cannot produce (such as an empty transcript), so every property
 * proved here holds whatever the fetcher returns.  `Step` and `Run` state the meaning of a tick as functions;
 * `SyncBot.ProcessTick` is the loop itself, over the guard set and the destination table.
 */
module Bot {
  import opened Transcript
  import opened Writer
  import opened Detector

  /** The guard is cleared once it holds more keys than this. */
  const GUARD_CAPACITY := 1000

  /** The dedup key `f"{id}:{latest_response_id}"`. */
  function Key(id: string, responseId: string): string {
    id + ":" + responseId
  }

  /** What the database does with one upsert: commit at time `at`, or raise. */
  datatype SaveOutcome = Committed(at: int) | SaveError

  /** How the processing of one row ended. */
  datatype RowOutcome =
    | Seen         // its key is in the guard
    | Incomplete   // its id or its response id is empty
    | FetchFailed  // the fetch returned None
    | SaveFailed   // the save returned False
    | Synced       // saved, and its key added to the guard
    | Aborted      // a malformed payload raised; the exception ends the polling loop

  /** The row got as far as calling the fetcher. */
  predicate Fetches(o: RowOutcome) {
    o.FetchFailed? || o.SaveFailed? || o.Synced? || o.Aborted?
  }

  /** The row got as far as calling the writer. */
  predicate Saves(o: RowOutcome) {
    o.SaveFailed? || o.Synced?
  }

  /** The process state a tick reads and writes: the guard `processed_records` and the table. */
  datatype BotState = BotState(processed: set<string>, table: Table)

  datatype StepResult = StepResult(state: BotState, outcome: RowOutcome)

  /** What a tick has done so far: the state and one outcome per row processed. */
  datatype Progress = Progress(state: BotState, outcomes: seq<RowOutcome>)

  /** The last row raised, so the rest of the tick (and the loop) does not run. */
  predicate Halted(p: Progress) {
    |p.outcomes| > 0 && p.outcomes[|p.outcomes| - 1] == Aborted
  }

  /**
   * Adding a key after a successful save: the guard never holds more than GUARD_CAPACITY
   * keys, and when the add overflows it the guard is emptied as a whole, not trimmed.
   */
  function Admit(guard: set<string>, key: string): (g: set<string>)
    ensures |guard| <= GUARD_CAPACITY ==> |g| <= GUARD_CAPACITY
    ensures g != {} ==> g == guard + {key}
    ensures g == {} <==> |guard + {key}| > GUARD_CAPACITY
  {
    var added := guard + {key};
    if |added| > GUARD_CAPACITY then {} else added
  }

  /** The body of the `for row in rows` loop for one row. */
  function Step(s: BotState, r: ChangeRecord, fetch: FetchOutcome, save: SaveOutcome): (res: StepResult)
    ensures res.outcome == Seen <==> Key(r.id, r.responseId) in s.processed
    ensures res.outcome == Incomplete <==>
      Key(r.id, r.responseId) !in s.processed && (r.id == "" || r.responseId == "")
    ensures Fetches(res.outcome) <==>
      Key(r.id, r.responseId) !in s.processed && r.id != "" && r.responseId != ""
    ensures res.outcome == FetchFailed <==> Fetches(res.outcome) && fetch == NoData
    ensures res.outcome == Aborted <==> Fetches(res.outcome) && fetch == Malformed
    ensures Saves(res.outcome) <==> Fetches(res.outcome) && fetch.Fetched?
    ensures res.outcome == Synced <==> Saves(res.outcome) && save.Committed?
    ensures res.outcome != Synced ==> res.state == s
    ensures res.outcome == Synced ==>
      && res.state.table == Upsert(s.table, r.id, r.phone, r.responseId, fetch.transcript, save.at)
      && res.state.processed == Admit(s.processed, Key(r.id, r.responseId))
    ensures |s.processed| <= GUARD_CAPACITY ==> |res.state.processed| <= GUARD_CAPACITY
  {
    var key := Key(r.id, r.responseId);
    if key in s.processed then StepResult(s, Seen)
    else if r.responseId == "" || r.id == "" then StepResult(s, Incomplete)
    else match fetch
      case Malformed => StepResult(s, Aborted)
      case NoData => StepResult(s, FetchFailed)
      case Fetched(chatData) =>
        match save
        case SaveError => StepResult(s, SaveFailed)
        case Committed(now) =>
          var table := Upsert(s.table, r.id, r.phone, r.responseId, chatData, now);
          StepResult(BotState(Admit(s.processed, key), table), Synced)
  }

  /**
   * The first `n` rows of a tick, processed in order from state `s`; an aborted row is the
   * last one processed.
   */
  function Run(s: BotState, rows: seq<ChangeRecord>, fetches: seq<FetchOutcome>, saves: seq<SaveOutcome>, n: nat): (p: Progress)
    requires n <= |rows| && |fetches| == |rows| && |saves| == |rows|
    ensures |p.outcomes| <= n
    ensures !Halted(p) ==> |p.outcomes| == n
    ensures forall i :: 0 <= i < |p.outcomes| - 1 ==> p.outcomes[i] != Aborted
    decreases n
  {
    if n == 0 then Progress(s, [])
    else
      var p := Run(s, rows, fetches, saves, n - 1);
      if Halted(p) then p
      else
        var step := Step(p.state, rows[n - 1], fetches[n - 1], saves[n - 1]);
        Progress(step.state, p.outcomes + [step.outcome])
  }

  /** The keys of the rows that were synced. */
  function SyncedKeys(rows: seq<ChangeRecord>, outcomes: seq<RowOutcome>): set<string>
    requires |outcomes| <= |rows|
  {
    set i | 0 <= i < |outcomes| && outcomes[i] == Synced :: Key(rows[i].id, rows[i].responseId)
  }

  /** Once a row has aborted, further rows change nothing. */
  lemma {:induction false} RunHalted(s: BotState, rows: seq<ChangeRecord>, fetches: seq<FetchOutcome>, saves: seq<SaveOutcome>, m: nat, n: nat)
    requires m <= n <= |rows| && |fetches| == |rows| && |saves| == |rows|
    requires Halted(Run(s, rows, fetches, saves, m))
    ensures Run(s, rows, fetches, saves, n) == Run(s, rows, fetches, saves, m)
    decreases n
  {
    if n > m {
      RunHalted(s, rows, fetches, saves, m, n - 1);
    }
  }

  /**
   * Row `i` of a tick, if it is reached, is processed by `Step` from the state the rows before
   * it left, and what it leaves is the state row `i + 1` starts from.
   */
  lemma {:induction false} RunOutcomeAt(s: BotState, rows: seq<ChangeRecord>, fetches: seq<FetchOutcome>, saves: seq<SaveOutcome>, n: nat, i: nat)
    requires n <= |rows| && |fetches| == |rows| && |saves| == |rows|
    requires i < |Run(s, rows, fetches, saves, n).outcomes|
    ensures !Halted(Run(s, rows, fetches, saves, i))
    ensures var step := Step(Run(s, rows, fetches, saves, i).state, rows[i], fetches[i], saves[i]);
      && Run(s, rows, fetches, saves, n).outcomes[i] == step.outcome
      && Run(s, rows, fetches, saves, i + 1).state == step.state
    decreases n
  {
    var p := Run(s, rows, fetches, saves, n - 1);
    if !Halted(p) && |p.outcomes| == i {
      assert n == i + 1;
    } else {
      RunOutcomeAt(s, rows, fetches, saves, n - 1, i);
    }
  }

  /** Guard stays bounded: a tick started with at most GUARD_CAPACITY keys ends with at most as many. */
  lemma {:induction false} RunBounded(s: BotState, rows: seq<ChangeRecord>, fetches: seq<FetchOutcome>, saves: seq<SaveOutcome>, n: nat)
    requires n <= |rows| && |fetches| == |rows| && |saves| == |rows|
    requires |s.processed| <= GUARD_CAPACITY
    ensures |Run(s, rows, fetches, saves, n).state.processed| <= GUARD_CAPACITY
    decreases n
  {
    if n > 0 {
      RunBounded(s, rows, fetches, saves, n - 1);
    }
  }

  /** Each row adds at most one key to the guard. */
  lemma {:induction false} RunGuardSize(s: BotState, rows: seq<ChangeRecord>, fetches: seq<FetchOutcome>, saves: seq<SaveOutcome>, n: nat)
    requires n <= |rows| && |fetches| == |rows| && |saves| == |rows|
    ensures |Run(s, rows, fetches, saves, n).state.processed| <= |s.processed| + n
    decreases n
  {
    if n > 0 {
      RunGuardSize(s, rows, fetches, saves, n - 1);
      var p := Run(s, rows, fetches, saves, n - 1);
      var key := Key(rows[n - 1].id, rows[n - 1].responseId);
      assert |p.state.processed + {key}| <= |p.state.processed| + 1;
    }
  }

  /** Guard grows only on successful saves: every key it gains belongs to a synced row. */
  lemma {:induction false} RunGuardSources(s: BotState, rows: seq<ChangeRecord>, fetches: seq<FetchOutcome>, saves: seq<SaveOutcome>, n: nat)
    requires n <= |rows| && |fetches| == |rows| && |saves| == |rows|
    ensures var p := Run(s, rows, fetches, saves, n);
      p.state.processed <= s.processed + SyncedKeys(rows, p.outcomes)
    decreases n
  {
    if n > 0 {
      RunGuardSources(s, rows, fetches, saves, n - 1);
      var p := Run(s, rows, fetches, saves, n - 1);
      if !Halted(p) {
        var q := Run(s, rows, fetches, saves, n);
        assert q.outcomes[..|p.outcomes|] == p.outcomes;
        assert SyncedKeys(rows, p.outcomes) <= SyncedKeys(rows, q.outcomes) by {
          forall k | k in SyncedKeys(rows, p.outcomes) ensures k in SyncedKeys(rows, q.outcomes) {
            var i :| 0 <= i < |p.outcomes| && p.outcomes[i] == Synced && k == Key(rows[i].id, rows[i].responseId);
            assert q.outcomes[i] == Synced;
          }
        }
        if q.outcomes[n - 1] == Synced {
          assert Key(rows[n - 1].id, rows[n - 1].responseId) in SyncedKeys(rows, q.outcomes);
        }
      }
    }
  }

  /** A row that was not synced leaves its id's row of the table as it was. */
  lemma {:induction false} RunTableFrame(s: BotState, rows: seq<ChangeRecord>, fetches: seq<FetchOutcome>, saves: seq<SaveOutcome>, n: nat, id: string)
    requires n <= |rows| && |fetches| == |rows| && |saves| == |rows|
    requires forall i ::
      (0 <= i < |Run(s, rows, fetches, saves, n).outcomes| && Run(s, rows, fetches, saves, n).outcomes[i] == Synced)
      ==> rows[i].id != id
    ensures var t := Run(s, rows, fetches, saves, n).state.table;
      && (id in t <==> id in s.table)
      && (id in t ==> t[id] == s.table[id])
    decreases n
  {
    if n > 0 {
      var p := Run(s, rows, fetches, saves, n - 1);
      var q := Run(s, rows, fetches, saves, n);
      if !Halted(p) {
        assert forall i :: 0 <= i < |p.outcomes| ==> q.outcomes[i] == p.outcomes[i];
      }
      RunTableFrame(s, rows, fetches, saves, n - 1, id);
    }
  }

  /** No row in `a..b` that syncs pushes the guard past GUARD_CAPACITY, so the guard is never cleared there. */
  predicate NoOverflow(s: BotState, rows: seq<ChangeRecord>, fetches: seq<FetchOutcome>, saves: seq<SaveOutcome>, a: nat, b: nat)
    requires a <= b <= |rows| && |fetches| == |rows| && |saves| == |rows|
  {
    forall k :: a <= k < b ==> KeyFits(s, rows, fetches, saves, k)
  }

  /** If row `k` is reached and syncs, adding its key to the guard the earlier rows left does not overflow it. */
  predicate KeyFits(s: BotState, rows: seq<ChangeRecord>, fetches: seq<FetchOutcome>, saves: seq<SaveOutcome>, k: nat)
    requires k < |rows| && |fetches| == |rows| && |saves| == |rows|
  {
    var p := Run(s, rows, fetches, saves, k);
    (!Halted(p) && Step(p.state, rows[k], fetches[k], saves[k]).outcome == Synced) ==>
      |p.state.processed + {Key(rows[k].id, rows[k].responseId)}| <= GUARD_CAPACITY
  }

  /** Without an overflow, the guard only grows during a tick. */
  lemma {:induction false} RunGuardMonotone(s: BotState, rows: seq<ChangeRecord>, fetches: seq<FetchOutcome>, saves: seq<SaveOutcome>, m: nat, n: nat)
    requires m <= n <= |rows| && |fetches| == |rows| && |saves| == |rows|
    requires NoOverflow(s, rows, fetches, saves, m, n)
    ensures Run(s, rows, fetches, saves, m).state.processed <= Run(s, rows, fetches, saves, n).state.processed
    decreases n
  {
    if n > m {
      assert NoOverflow(s, rows, fetches, saves, m, n - 1);
      RunGuardMonotone(s, rows, fetches, saves, m, n - 1);
      var p := Run(s, rows, fetches, saves, n - 1);
      if !Halted(p) {
        assert KeyFits(s, rows, fetches, saves, n - 1);
        assert Step(p.state, rows[n - 1], fetches[n - 1], saves[n - 1]).outcome == Synced ==>
          |p.state.processed + {Key(rows[n - 1].id, rows[n - 1].responseId)}| <= GUARD_CAPACITY;
        StepKeepsGuard(p.state, rows[n - 1], fetches[n - 1], saves[n - 1]);
      }
    }
  }

  /** A row that does not sync, or syncs a key that fits in the guard, removes no key from it. */
  lemma StepKeepsGuard(s: BotState, r: ChangeRecord, fetch: FetchOutcome, save: SaveOutcome)
    requires Step(s, r, fetch, save).outcome == Synced ==> |s.processed + {Key(r.id, r.responseId)}| <= GUARD_CAPACITY
    ensures s.processed <= Step(s, r, fetch, save).state.processed
  {
  }

  /** A synced row's key stays in the guard up to row `m` when no row from `i` to `m` overflows it. */
  lemma SyncedKeyKept(s: BotState, rows: seq<ChangeRecord>, fetches: seq<FetchOutcome>, saves: seq<SaveOutcome>, i: nat, m: nat)
    requires |fetches| == |rows| && |saves| == |rows|
    requires i < m <= |rows| && i < |Run(s, rows, fetches, saves, |rows|).outcomes|
    requires NoOverflow(s, rows, fetches, saves, i, m)
    requires Run(s, rows, fetches, saves, |rows|).outcomes[i] == Synced
    ensures Key(rows[i].id, rows[i].responseId) in Run(s, rows, fetches, saves, m).state.processed
  {
    var key := Key(rows[i].id, rows[i].responseId);
    RunOutcomeAt(s, rows, fetches, saves, |rows|, i);
    assert KeyFits(s, rows, fetches, saves, i);
    assert |Run(s, rows, fetches, saves, i).state.processed + {key}| <= GUARD_CAPACITY;
    assert key in Run(s, rows, fetches, saves, i + 1).state.processed;
    assert NoOverflow(s, rows, fetches, saves, i + 1, m);
    RunGuardMonotone(s, rows, fetches, saves, i + 1, m);
  }

  /**
   * Seen keys are skipped: within one guard lifetime (no overflow from row `i` up to row `j`),
   * a row whose key an earlier row of the same tick synced is neither fetched nor saved.
   */
  lemma DedupWithinTick(s: BotState, rows: seq<ChangeRecord>, fetches: seq<FetchOutcome>, saves: seq<SaveOutcome>, i: nat, j: nat)
    requires |fetches| == |rows| && |saves| == |rows|
    requires i < j < |Run(s, rows, fetches, saves, |rows|).outcomes|
    requires NoOverflow(s, rows, fetches, saves, i, j)
    requires Key(rows[i].id, rows[i].responseId) == Key(rows[j].id, rows[j].responseId)
    requires Run(s, rows, fetches, saves, |rows|).outcomes[i] == Synced
    ensures Run(s, rows, fetches, saves, |rows|).outcomes[j] == Seen
  {
    SyncedKeyKept(s, rows, fetches, saves, i, j);
    RunOutcomeAt(s, rows, fetches, saves, |rows|, j);
  }

  /**
   * A synced row's key is still in the guard when the tick ends, unless a later row overflowed
   * it; so the same row, detected again on the next tick, is skipped as `Seen`.
   */
  lemma SyncedKeyRetained(s: BotState, rows: seq<ChangeRecord>, fetches: seq<FetchOutcome>, saves: seq<SaveOutcome>, i: nat,
                          fetch: FetchOutcome, save: SaveOutcome)
    requires |fetches| == |rows| && |saves| == |rows|
    requires i < |Run(s, rows, fetches, saves, |rows|).outcomes|
    requires NoOverflow(s, rows, fetches, saves, i, |rows|)
    requires Run(s, rows, fetches, saves, |rows|).outcomes[i] == Synced
    ensures Key(rows[i].id, rows[i].responseId) in Run(s, rows, fetches, saves, |rows|).state.processed
    ensures Step(Run(s, rows, fetches, saves, |rows|).state, rows[i], fetch, save).outcome == Seen
  {
    SyncedKeyKept(s, rows, fetches, saves, i, |rows|);
  }

  /** Failed fetches are isolated: the tick goes on with the next row, from the same state. */
  lemma FailureIsolated(s: BotState, rows: seq<ChangeRecord>, fetches: seq<FetchOutcome>, saves: seq<SaveOutcome>, i: nat)
    requires |fetches| == |rows| && |saves| == |rows|
    requires i + 1 < |rows|
    requires i < |Run(s, rows, fetches, saves, |rows|).outcomes|
    requires Run(s, rows, fetches, saves, |rows|).outcomes[i] == FetchFailed
    ensures i + 1 < |Run(s, rows, fetches, saves, |rows|).outcomes|
    ensures Run(s, rows, fetches, saves, i + 1).state == Run(s, rows, fetches, saves, i).state
  {
    RunOutcomeAt(s, rows, fetches, saves, |rows|, i);
  }

  /** A row whose save failed is not in the guard, so a later tick processes it again. */
  lemma RetriedAfterSaveFailure(s: BotState, r: ChangeRecord, fetch: FetchOutcome, save: SaveOutcome,
                                fetch2: FetchOutcome, save2: SaveOutcome)
    requires Step(s, r, fetch, save).outcome == SaveFailed
    ensures Fetches(Step(Step(s, r, fetch, save).state, r, fetch2, save2).outcome)
  {
  }

  /** Without `:` in ids, distinct (id, response id) pairs have distinct keys. */
  lemma KeyInjective(id1: string, resp1: string, id2: string, resp2: string)
    requires ':' !in id1 && ':' !in id2
    requires Key(id1, resp1) == Key(id2, resp2)
    ensures id1 == id2 && resp1 == resp2
  {
    var k := Key(id1, resp1);
    FirstColon(id1, resp1);
    FirstColon(id2, resp2);
    assert |id1| == |id2|;
    assert id1 == k[..|id1|] == id2;
    assert resp1 == k[|id1| + 1..] == resp2;
  }

  /** In a key whose id has no `:`, the first `:` is the separator. */
  lemma FirstColon(id: string, responseId: string)
    requires ':' !in id
    ensures Key(id, responseId)[|id|] == ':'
    ensures forall j :: 0 <= j < |id| ==> Key(id, responseId)[j] != ':'
  {
  }

  /** An id containing `:` can make two different rows share a key. */
  lemma KeyCollision()
    ensures Key("a:b", "c") == Key("a", "b:c")
  {
  }

  /**
   * The process state of `start_bot`: the global guard `processed_records` and the destination
   * table `openai_chat_history`, both updated in place.
   */
  class SyncBot {
    var processed: set<string>
    var table: Table

    ghost function State(): BotState
      reads this
    {
      BotState(processed, table)
    }

    ghost predicate Valid()
      reads this
    {
      |processed| <= GUARD_CAPACITY
    }

    /** Process start: `processed_records = set()`, over whatever the table already holds. */
    constructor (existing: Table)
      ensures Valid()
      ensures processed == {} && table == existing
    {
      processed := {};
      table := existing;
    }

    /** `save_to_database`: on a commit the upsert is applied; on an error nothing is written. */
    method SaveToDatabase(id: string, phone: string, responseId: string, chatData: seq<Entry>, save: SaveOutcome)
      returns (ok: bool)
      modifies this`table
      ensures ok <==> save.Committed?
      ensures table == if ok then Upsert(old(table), id, phone, responseId, chatData, save.at) else old(table)
    {
      match save
      case SaveError =>
        ok := false;
      case Committed(now) =>
        table := Upsert(table, id, phone, responseId, chatData, now);
        ok := true;
    }

    /**
     * One tick over the detector's rows: the new guard and table are those `Run` gives, the
     * guard stays within GUARD_CAPACITY, and `outcomes` says how each processed row ended.
     */
    method ProcessTick(rows: seq<ChangeRecord>, fetches: seq<FetchOutcome>, saves: seq<SaveOutcome>)
      returns (outcomes: seq<RowOutcome>)
      requires Valid()
      requires |fetches| == |rows| && |saves| == |rows|
      modifies this
      ensures Valid()
      ensures State() == Run(old(State()), rows, fetches, saves, |rows|).state
      ensures outcomes == Run(old(State()), rows, fetches, saves, |rows|).outcomes
    {
      ghost var start := State();
      outcomes := [];
      for i := 0 to |rows|
        invariant Valid()
        invariant Run(start, rows, fetches, saves, i) == Progress(State(), outcomes)
        invariant !Halted(Progress(State(), outcomes))
      {
        var row := rows[i];
        var recordKey := Key(row.id, row.responseId);
        if recordKey in processed {
          outcomes := outcomes + [Seen];
          continue;
        }
        if row.responseId == "" || row.id == "" {
          outcomes := outcomes + [Incomplete];
          continue;
        }
        var chatData := fetches[i];
        if chatData.Malformed? {
          outcomes := outcomes + [Aborted];
          RunHalted(start, rows, fetches, saves, i + 1, |rows|);
          return;
        }
        if chatData.NoData? {
          outcomes := outcomes + [FetchFailed];
          continue;
        }
        var ok := SaveToDatabase(row.id, row.phone, row.responseId, chatData.transcript, saves[i]);
        if ok {
          processed := processed + {recordKey};
          if |processed| > GUARD_CAPACITY {
            processed := {};
          }
          outcomes := outcomes + [Synced];
        } else {
          outcomes := outcomes + [SaveFailed];
        }
      }
    }
  }
}
