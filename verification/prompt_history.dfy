/** The prompt history ledger (src/hooks/usePromptHistory.js): a newest-first
    list of generated prompts, at most 200 long, coerced from whatever JSON
    it is given. */
module PromptHistory {
  import opened Lists
  import opened JsValues

  const HISTORY_KEY: string := "pawsville_prompt_history_v1"
  const MAX_ITEMS: nat := 200

  datatype Mode = Single | Batch

  /** One history entry. */
  datatype Entry = Entry(id: string, ts: int, mode: Mode, scene: string, prompt: string)

  /** The coercion of one truthy element: string id (a generated one when
      missing or null), a numeric `ts` or else the clock, `single` only when
      the mode is exactly that string, string scene and prompt. */
  function CoerceEntry(x: Json, freshId: string, now: int): Entry
  {
    Entry(StrOr(Get(x, "id"), freshId),
          if Get(x, "ts").Some? && Get(x, "ts").value.JNum? then Get(x, "ts").value.n else now,
          if Get(x, "mode") == Some(JStr("single")) then Single else Batch,
          StrOr(Get(x, "scene"), ""),
          StrOr(Get(x, "prompt"), ""))
  }

  /** `x.scene || x.prompt`: at least one of them is not the empty string. */
  predicate HasText(e: Entry)
  {
    e.scene != "" || e.prompt != ""
  }

  /** The coerced truthy elements, before the text filter. `ids(k)` and
      `clock(k)` are what `Date.now`/`Math.random` give the k-th one. */
  function Coerced(xs: seq<Json>, ids: nat -> string, clock: nat -> int): (r: seq<Entry>)
    ensures |r| == |xs|
  {
    seq(|xs|, k requires 0 <= k < |xs| => CoerceEntry(xs[k], ids(k), clock(k)))
  }

  /** `normalizeHistory`: whatever it is given, a history of at most 200
      entries, each with some text; a value that is not an array gives the
      empty history. */
  function Normalize(value: Json, ids: nat -> string, clock: nat -> int): (r: seq<Entry>)
    ensures WellFormed(r)
    ensures !value.JArr? ==> r == []
  {
    if !value.JArr? then []
    else Take(Filter(HasText, Coerced(Filter(IsTruthy, value.items), ids, clock)), MAX_ITEMS)
  }

  /** A history as the ledger keeps it: at most 200 entries, each with some
      text. */
  predicate WellFormed(h: seq<Entry>)
  {
    |h| <= MAX_ITEMS && forall i :: 0 <= i < |h| ==> HasText(h[i])
  }

  /** How an entry is written (by JSON.stringify, or handed back in). */
  function EncodeEntry(e: Entry): Json
  {
    JObj(map["id" := JStr(e.id), "ts" := JNum(e.ts), "mode" := JStr(if e.mode == Single then "single" else "batch"),
             "scene" := JStr(e.scene), "prompt" := JStr(e.prompt)])
  }

  function EncodeAll(h: seq<Entry>): seq<Json>
  {
    Map(EncodeEntry, h)
  }

  /** The `{ total, lastTs }` statistics. */
  datatype Stats = Stats(total: nat, lastTs: Option<int>)

  /** The hook's `history` state. The write-back to storage after every
      change is a timing effect and is not part of this model. */
  class HistoryStore {
    var history: seq<Entry>

    predicate Valid()
      reads this
    {
      WellFormed(history)
    }

    /** The initial state: the stored list, normalised. */
    constructor(st: Storage, ids: nat -> string, clock: nat -> int)
      ensures history == Normalize(SafeParse(st, HISTORY_KEY), ids, clock)
      ensures Valid()
    {
      history := Normalize(SafeParse(st, HISTORY_KEY), ids, clock);
    }

    /** `addEntries`: the normalised batch goes in front of the old entries,
      and the list is cut to 200; a batch that normalises to nothing
      changes nothing. */
    method AddEntries(entries: Json, ids: nat -> string, clock: nat -> int, ids': nat -> string, clock': nat -> int)
      requires Valid()
      modifies this
      ensures var next := Normalize(entries, ids, clock);
              history == if next == [] then old(history) else Take(next + old(history), MAX_ITEMS)
      ensures Valid()
    {
      var next := Normalize(entries, ids, clock);
      if |next| == 0 {
        return;
      }
      var merged := Normalize(JArr(EncodeAll(next) + EncodeAll(history)), ids', clock');
      AddedRoundTrip(next, history, ids', clock');
      history := Take(merged, MAX_ITEMS);
    }

    /** `removeEntry(id)`. */
    method RemoveEntry(id: string)
      requires Valid()
      modifies this
      ensures history == Filter(OtherId(id), old(history))
      ensures Valid()
    {
      history := Filter(OtherId(id), history);
      FilterMembers(OtherId(id), old(history));
    }

    /** `clear`. */
    method Clear()
      modifies this
      ensures history == [] && Valid()
    {
      history := [];
    }

    /** `exportJson` with the clock reading `now`, as the value that is
      stringified. */
    function Export(now: int): (v: Json)
      reads this
      ensures Get(v, "exportedAt") == Some(JNum(now))
      ensures Get(v, "items") == Some(JArr(EncodeAll(history)))
    {
      JObj(map["exportedAt" := JNum(now), "items" := JArr(EncodeAll(history))])
    }

    /** `stats`. */
    function CurrentStats(): (s: Stats)
      reads this
      ensures s.total == |history|
      ensures s.lastTs.Some? <==> |history| > 0
      ensures |history| > 0 ==> s.lastTs == Some(history[0].ts)
    {
      Stats(|history|, if |history| > 0 then Some(history[0].ts) else None)
    }
  }

  /** The predicate "has another id". */
  function OtherId(id: string): Entry -> bool
  {
    (e: Entry) => e.id != id
  }

  // ----------------------------------------------------------------- lemmas

  /** A written entry reads back as itself. */
  lemma EntryRoundTrip(e: Entry, freshId: string, now: int)
    ensures CoerceEntry(EncodeEntry(e), freshId, now) == e
  {
    var x := EncodeEntry(e);
    assert Get(x, "id") == Some(JStr(e.id));
    assert Get(x, "ts") == Some(JNum(e.ts));
    assert Get(x, "mode") == Some(JStr(if e.mode == Single then "single" else "batch"));
    assert "batch" != "single";
    assert Get(x, "scene") == Some(JStr(e.scene));
    assert Get(x, "prompt") == Some(JStr(e.prompt));
  }

  /** Normalising written entries that all have text gives back their first
      200. */
  lemma ListRoundTrip(h: seq<Entry>, ids: nat -> string, clock: nat -> int)
    requires forall i :: 0 <= i < |h| ==> HasText(h[i])
    ensures Normalize(JArr(EncodeAll(h)), ids, clock) == Take(h, MAX_ITEMS)
  {
    var xs := EncodeAll(h);
    forall k | 0 <= k < |xs| ensures IsTruthy(xs[k]) {
      assert xs[k] == EncodeEntry(h[k]);
    }
    FilterAll(IsTruthy, xs);
    var c := Coerced(xs, ids, clock);
    forall k | 0 <= k < |h| ensures c[k] == h[k] {
      EntryRoundTrip(h[k], ids(k), clock(k));
    }
    assert c == h;
    FilterAll(HasText, h);
  }

  /** Normalising is idempotent: a normalised history normalises to
      itself. */
  lemma NormalizeIdempotent(value: Json, ids: nat -> string, clock: nat -> int, ids': nat -> string, clock': nat -> int)
    ensures var h := Normalize(value, ids, clock); Normalize(JArr(EncodeAll(h)), ids', clock') == h
  {
    var h := Normalize(value, ids, clock);
    ListRoundTrip(h, ids', clock');
  }

  /** The merge `addEntries` performs is the plain concatenation, cut to
      200. */
  lemma AddedRoundTrip(next: seq<Entry>, h: seq<Entry>, ids: nat -> string, clock: nat -> int)
    requires WellFormed(next) && WellFormed(h)
    ensures Take(Normalize(JArr(EncodeAll(next) + EncodeAll(h)), ids, clock), MAX_ITEMS) == Take(next + h, MAX_ITEMS)
  {
    assert EncodeAll(next) + EncodeAll(h) == EncodeAll(next + h);
    ListRoundTrip(next + h, ids, clock);
  }

  /** After `addEntries` the new batch leads, in its own order, and the old
      entries follow in theirs, as far as 200 entries reach. */
  lemma AddedOrder(next: seq<Entry>, h: seq<Entry>)
    ensures var r := Take(next + h, MAX_ITEMS);
            (forall i :: 0 <= i < |next| && i < MAX_ITEMS ==> r[i] == next[i])
            && (forall j :: 0 <= j < |h| && |next| + j < MAX_ITEMS ==> r[|next| + j] == h[j])
  {
  }

  /** Entries whose text is only white space are kept: only the empty string
      counts as no text. */
  lemma WhiteSpaceTextKept(ids: nat -> string, clock: nat -> int)
    ensures var x := JObj(map["scene" := JStr(" ")]);
            Normalize(JArr([x]), ids, clock) == [Entry(ids(0), clock(0), Batch, " ", "")]
  {
    var x := JObj(map["scene" := JStr(" ")]);
    assert IsTruthy(x);
    FilterAll(IsTruthy, [x]);
    var e := CoerceEntry(x, ids(0), clock(0));
    assert Get(x, "id") == None && Get(x, "ts") == None && Get(x, "mode") == None && Get(x, "prompt") == None;
    assert e == Entry(ids(0), clock(0), Batch, " ", "");
    assert HasText(e);
    FilterAll(HasText, [e]);
  }

  /** `removeEntry` drops every entry with the id and keeps the others in
      order; an absent id changes nothing. */
  lemma RemoveEntryEffect(h: seq<Entry>, id: string)
    ensures var r := Filter(OtherId(id), h);
            (forall i :: 0 <= i < |r| ==> r[i].id != id && r[i] in h)
            && (forall i :: 0 <= i < |h| && h[i].id != id ==> h[i] in r)
            && ((forall i :: 0 <= i < |h| ==> h[i].id != id) ==> r == h)
            && SelectedInOrder(r, h, Positions(OtherId(id), h), OtherId(id))
  {
    FilterMembers(OtherId(id), h);
    FilterInOrder(OtherId(id), h);
    if forall i :: 0 <= i < |h| ==> h[i].id != id {
      FilterAll(OtherId(id), h);
    }
  }

  /** The exported items read back as the history itself. */
  lemma ExportRoundTrip(h: seq<Entry>, ids: nat -> string, clock: nat -> int)
    requires WellFormed(h)
    ensures Normalize(JArr(EncodeAll(h)), ids, clock) == h
  {
    ListRoundTrip(h, ids, clock);
  }
}
