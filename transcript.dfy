/**
 * History Fetcher: the two GET calls of `fetch_from_openai` (sync.py) are made into
 * parameters, and what remains is the assembly of the transcript from the two decoded
 * payloads.  A JSON field that is absent from a payload is `None`; an access to it in the
 * source raises `KeyError`/`IndexError`, which is not caught by the `RequestException`
 * handler, so it is a distinct outcome (`Malformed`), never the "no data" sentinel.
 */
module Transcript {
  import opened Wrappers

  /** One block of an item's `content` array; only its `text` field is read. */
  datatype Block = Block(text: Option<string>)

  /** A conversation item, or an item of an envelope's `output` array. */
  datatype Item = Item(role: Option<string>, content: Option<seq<Block>>)

  /** Body of `GET /v1/responses/{id}/input_items`: `data` lists the items newest first. */
  datatype ItemsPage = ItemsPage(data: Option<seq<Item>>)

  /** Body of `GET /v1/responses/{id}`: the response envelope. */
  datatype Envelope = Envelope(output: Option<seq<Item>>)

  /** One transcript entry, `{'role': ..., 'content': ...}`. */
  datatype Entry = Entry(role: string, content: string)

  /** What one call of the fetcher yields. */
  datatype FetchOutcome =
    | Fetched(transcript: seq<Entry>)  // the assembled transcript
    | NoData                           // a request failed: the function returns None
    | Malformed                        // a payload lacks a field: the exception escapes

  /** The item has a role and a first content block carrying text. */
  predicate WellFormed(it: Item) {
    && it.role.Some?
    && it.content.Some?
    && |it.content.value| > 0
    && it.content.value[0].text.Some?
  }

  /** The entry an item becomes: its role and the text of its first content block. */
  function Project(it: Item): Entry
    requires WellFormed(it)
  {
    Entry(it.role.value, it.content.value[0].text.value)
  }

  /** `response.json().get("data", [])`: a missing `data` field reads as the empty list. */
  function History(page: ItemsPage): seq<Item> {
    match page.data
    case None => []
    case Some(items) => items
  }

  /** The envelope's `output` array has a first item, and that item is well formed. */
  predicate EnvelopeWellFormed(env: Envelope) {
    env.output.Some? && |env.output.value| > 0 && WellFormed(env.output.value[0])
  }

  /** Every field the assembly reads is present in both payloads. */
  predicate PayloadWellFormed(page: ItemsPage, env: Envelope) {
    && (forall i :: 0 <= i < |History(page)| ==> WellFormed(History(page)[i]))
    && EnvelopeWellFormed(env)
  }

  /** The slice `s[::-1]`: the last element comes first. */
  function Reversed<T>(s: seq<T>): seq<T> {
    if s == [] then [] else [s[|s| - 1]] + Reversed(s[..|s| - 1])
  }

  /** The list comprehension of sync.py:49; `None` when some item lacks a field it reads. */
  function ProjectAll(items: seq<Item>): Option<seq<Entry>> {
    if items == [] then Some([])
    else if !WellFormed(items[0]) then None
    else match ProjectAll(items[1..])
      case None => None
      case Some(rest) => Some([Project(items[0])] + rest)
  }

  /**
   * Transcript assembly: reverse the items, project them, then append the entry built from
   * `output[0]` of the envelope.  `None` stands for the exception a missing field raises.
   */
  function Assemble(page: ItemsPage, env: Envelope): Option<seq<Entry>> {
    match ProjectAll(Reversed(History(page)))
    case None => None
    case Some(entries) =>
      if EnvelopeWellFormed(env) then Some(entries + [Project(env.output.value[0])]) else None
  }

  /**
   * `fetch_from_openai`, with the two HTTP responses as parameters: `None` is a request that
   * raised a `RequestException` (network failure or a non-2xx status).  Both requests are made
   * before either body is read, so a failed request wins over a malformed payload.
   */
  function Fetch(items: Option<ItemsPage>, envelope: Option<Envelope>): (r: FetchOutcome)
    ensures r == NoData <==> items.None? || envelope.None?
    ensures r == Malformed <==>
      items.Some? && envelope.Some? && !PayloadWellFormed(items.value, envelope.value)
    ensures r.Fetched? ==> |r.transcript| == |History(items.value)| + 1
    ensures r.Fetched? ==> Assemble(items.value, envelope.value) == Some(r.transcript)
  {
    if items.None? || envelope.None? then NoData
    else
      AssembleSucceeds(items.value, envelope.value);
      match Assemble(items.value, envelope.value)
      case None => Malformed
      case Some(t) => Fetched(t)
  }

  lemma {:induction false} ReversedAt<T>(s: seq<T>, i: nat)
    requires i < |s|
    ensures |Reversed(s)| == |s|
    ensures Reversed(s)[i] == s[|s| - 1 - i]
  {
    if i > 0 {
      ReversedAt(s[..|s| - 1], i - 1);
    } else if |s| > 1 {
      ReversedAt(s[..|s| - 1], 0);
    }
  }

  lemma ReversedLength<T>(s: seq<T>)
    ensures |Reversed(s)| == |s|
  {
  }

  /** The comprehension succeeds exactly when every item is well formed, and then maps each one. */
  lemma {:induction false} ProjectAllSpec(items: seq<Item>)
    ensures ProjectAll(items).Some? <==> forall i :: 0 <= i < |items| ==> WellFormed(items[i])
    ensures ProjectAll(items).Some? ==>
      && |ProjectAll(items).value| == |items|
      && forall i :: 0 <= i < |items| ==> ProjectAll(items).value[i] == Project(items[i])
  {
    if items != [] {
      ProjectAllSpec(items[1..]);
      assert forall i :: 1 <= i < |items| ==> items[i] == items[1..][i - 1];
    }
  }

  /**
   * Transcript shape and order: for well-formed payloads the transcript has one entry per
   * history item, oldest first, followed by the envelope's output entry.
   */
  lemma AssembleWellFormed(page: ItemsPage, env: Envelope)
    requires PayloadWellFormed(page, env)
    ensures Assemble(page, env).Some?
    ensures var t, h := Assemble(page, env).value, History(page);
      && |t| == |h| + 1
      && (forall i :: 0 <= i < |h| ==> t[i] == Project(h[|h| - 1 - i]))
      && t[|h|] == Project(env.output.value[0])
  {
    var h := History(page);
    var r := Reversed(h);
    ReversedLength(h);
    forall i | 0 <= i < |r|
      ensures WellFormed(r[i]) && r[i] == h[|h| - 1 - i]
    {
      ReversedAt(h, i);
    }
    ProjectAllSpec(r);
  }

  /** A payload that lacks a field the assembly reads makes it fail as a whole. */
  lemma AssembleMalformed(page: ItemsPage, env: Envelope)
    requires !PayloadWellFormed(page, env)
    ensures Assemble(page, env) == None
  {
    var h := History(page);
    var r := Reversed(h);
    ReversedLength(h);
    ProjectAllSpec(r);
    if ProjectAll(r).Some? {
      forall i | 0 <= i < |h|
        ensures WellFormed(h[i])
      {
        ReversedAt(h, |h| - 1 - i);
        assert WellFormed(r[|h| - 1 - i]);
      }
    }
  }

  /** Assembly succeeds exactly on well-formed payloads; it never yields a partial transcript. */
  lemma AssembleSucceeds(page: ItemsPage, env: Envelope)
    ensures Assemble(page, env).Some? <==> PayloadWellFormed(page, env)
    ensures Assemble(page, env).Some? ==> |Assemble(page, env).value| == |History(page)| + 1
  {
    if PayloadWellFormed(page, env) {
      AssembleWellFormed(page, env);
    } else {
      AssembleMalformed(page, env);
    }
  }

  /** A payload without `data` yields the one-entry transcript of the envelope's output. */
  lemma MissingDataSingleEntry(env: Envelope)
    requires EnvelopeWellFormed(env)
    ensures Assemble(ItemsPage(None), env) == Some([Project(env.output.value[0])])
  {
    AssembleWellFormed(ItemsPage(None), env);
    var t := Assemble(ItemsPage(None), env).value;
    assert t == [Project(env.output.value[0])];
  }

  /** Two history items, newest first, and an output item give a three-entry transcript. */
  lemma AssembleExample()
    ensures
      var user := Item(Some("user"), Some([Block(Some("b"))]));
      var assistant := Item(Some("assistant"), Some([Block(Some("a"))]));
      var output := Item(Some("assistant"), Some([Block(Some("c"))]));
      Assemble(ItemsPage(Some([user, assistant])), Envelope(Some([output])))
        == Some([Entry("assistant", "a"), Entry("user", "b"), Entry("assistant", "c")])
  {
    var user := Item(Some("user"), Some([Block(Some("b"))]));
    var assistant := Item(Some("assistant"), Some([Block(Some("a"))]));
    var output := Item(Some("assistant"), Some([Block(Some("c"))]));
    assert Reversed([user, assistant]) == [assistant, user] by {
      assert [user, assistant][..1] == [user];
      assert [user][..0] == [];
      assert Reversed([user]) == [user];
    }
    var page, env := ItemsPage(Some([user, assistant])), Envelope(Some([output]));
    AssembleWellFormed(page, env);
    var t := Assemble(page, env).value;
    assert t[0] == Entry("assistant", "a") && t[1] == Entry("user", "b");
    assert t == [Entry("assistant", "a"), Entry("user", "b"), Entry("assistant", "c")];
  }
}
