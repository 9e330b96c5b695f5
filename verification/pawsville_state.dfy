/** The builder's state store (src/hooks/usePawsvilleState.js): the
    normalisers that turn any parsed JSON into a well-formed state, the
    serialiser, the two-key versioned load, the reducer, and the store object
    that holds the state and writes it to local storage. */
module PawsvilleState {
  import opened Lists
  import opened JsStrings
  import opened JsValues
  import opened PawsvilleDefaults

  // ------------------------------------------------------------- characters

  /** One surviving entry of `normalizeCharacters`: string id, name and text,
      boolean flags. `freshId` stands for the generated `c<now><random>` id. */
  function CoerceCharacter(c: Json, freshId: string): Character
  {
    Character(StrOr(Get(c, "id"), freshId), StrOr(Get(c, "name"), "Unnamed"), StrOr(Get(c, "text"), ""),
              Truthy(Get(c, "active")), Truthy(Get(c, "isOpen")))
  }

  /** `normalizeCharacters`. `ids(k)` is the id generated for the k-th
      surviving entry when it has none. */
  function NormalizeCharacters(raw: Json, ids: nat -> string): (r: seq<Character>)
    ensures !raw.JArr? ==> r == DefaultChars()
    ensures raw.JArr? ==> |r| == |Filter(IsTruthy, raw.items)| <= |raw.items|
  {
    if !raw.JArr? then DefaultChars()
    else
      var kept := Filter(IsTruthy, raw.items);
      seq(|kept|, k requires 0 <= k < |kept| => CoerceCharacter(kept[k], ids(k)))
  }

  /** How the serialiser writes a character. */
  function EncodeCharacter(c: Character): Json
  {
    JObj(map["id" := JStr(c.id), "name" := JStr(c.name), "text" := JStr(c.text),
             "active" := JBool(c.active), "isOpen" := JBool(c.isOpen)])
  }

  function EncodeChars(cs: seq<Character>): seq<Json>
  {
    Map(EncodeCharacter, cs)
  }

  // ------------------------------------------------------------------ order

  const ALLOWED: set<string> := {"global", "chars", "scene"}

  /** The `id` of an order entry when it is a string, "" otherwise. */
  function EntryId(o: Json): string
  {
    match Get(o, "id")
    case Some(JStr(s)) => s
    case _ => ""
  }

  /** `o && allowed.has(o.id)` */
  predicate AllowedEntry(o: Json)
  {
    IsTruthy(o) && Get(o, "id").Some? && Get(o, "id").value.JStr? && EntryId(o) in ALLOWED
  }

  /** The entry rebuilt with its canonical display name. */
  function EntryOf(o: Json): OrderEntry
  {
    OrderEntry(EntryId(o), CanonicalName(EntryId(o)))
  }

  function IdsOf(o: seq<OrderEntry>): set<string>
  {
    set i | 0 <= i < |o| :: o[i].id
  }

  /** The predicate "its id is not among `present`". */
  function Missing(present: set<string>): OrderEntry -> bool
  {
    (e: OrderEntry) => e.id !in present
  }

  /** What `normalizeOrder` returns: the allowed entries under canonical
      names, followed by the default entries whose id did not occur.
      Whatever it is given, the result is a well-formed order. */
  function NormalizedOrder(raw: Json): (r: seq<OrderEntry>)
    ensures !raw.JArr? || |raw.items| == 0 ==> r == DefaultOrder()
    ensures OrderWellFormed(r)
  {
    if !raw.JArr? || |raw.items| == 0 then
      DefaultOrderWellFormed();
      DefaultOrder()
    else
      var kept := Map(EntryOf, Filter(AllowedEntry, raw.items));
      var add := Filter(Missing(IdsOf(kept)), DefaultOrder());
      KeptEntriesShape(raw.items);
      AddedDefaultsShape(IdsOf(kept));
      AddedDefaultsCover(IdsOf(kept));
      IdsOfAppend(kept, add);
      kept + add
  }

  /** `normalizeOrder`, with its loop that appends the missing defaults. */
  method NormalizeOrder(raw: Json) returns (r: seq<OrderEntry>)
    ensures r == NormalizedOrder(raw)
  {
    if !raw.JArr? || |raw.items| == 0 {
      return DefaultOrder();
    }
    r := Map(EntryOf, Filter(AllowedEntry, raw.items));
    ghost var kept := r;
    var ids := IdsOf(r);
    var d := DefaultOrder();
    for i := 0 to |d|
      invariant r == kept + Filter(Missing(ids), d[..i])
    {
      assert d[..i + 1] == d[..i] + [d[i]];
      if d[i].id !in ids {
        r := r + [d[i]];
      }
    }
    assert d[..|d|] == d;
  }

  /** A well-formed order: canonical names, and exactly the three section
      ids occur (each at least once). */
  predicate OrderWellFormed(o: seq<OrderEntry>)
  {
    CanonicalNames(o) && IdsOf(o) == ALLOWED
  }

  predicate CanonicalNames(o: seq<OrderEntry>)
  {
    forall i :: 0 <= i < |o| ==> o[i].name == CanonicalName(o[i].id)
  }

  function EncodeEntry(e: OrderEntry): Json
  {
    JObj(map["id" := JStr(e.id), "name" := JStr(e.name)])
  }

  function EncodeOrder(o: seq<OrderEntry>): seq<Json>
  {
    Map(EncodeEntry, o)
  }

  // ---------------------------------------------------------------- globals

  const GLOBAL_KEYS: set<string> := {"style", "camera", "light", "texture", "rules"}

  /** `base.globals[k]` as `String(..)` sees it: the default value, or
      "undefined" for `texture`, which the defaults do not hold. */
  function BaseGlobal(k: string): string
  {
    if k in DefaultGlobals() then DefaultGlobals()[k] else "undefined"
  }

  /** `String(data[k] ?? data.globals?.[k] ?? base.globals[k])` */
  function PickGlobal(data: Json, k: string): string
  {
    StrOr(Coalesce(Get(data, k), GetIn(Get(data, "globals"), k)), BaseGlobal(k))
  }


  /** `raw && typeof raw === 'object' ? raw : {}` */
  function DataOf(raw: Json): Json
  {
    if raw.JObj? || raw.JArr? then raw else JObj(map[])
  }

  /** `deserializeState`. When neither spelling of a list is present the
      source normalises the default list, which gives the default list back
      (BaseListsNormal), so the default is used directly. */
  function Deserialize(raw: Json, ids: nat -> string): (r: State)
    ensures r.globals.Keys == GLOBAL_KEYS
    ensures OrderWellFormed(r.promptOrder)
    ensures !raw.JObj? ==> r.characters == DefaultChars() && r.promptOrder == DefaultOrder()
  {
    DefaultOrderWellFormed();
    var data := DataOf(raw);
    var chars := Coalesce(Get(data, "chars"), Get(data, "characters"));
    var order := Coalesce(Get(data, "order"), Get(data, "promptOrder"));
    State(map k | k in GLOBAL_KEYS :: PickGlobal(data, k),
          if Nullish(chars) then DefaultChars() else NormalizeCharacters(chars.value, ids),
          if Nullish(order) then DefaultOrder() else NormalizedOrder(order.value))
  }

  /** `serializeToV5`: the five globals that are present (JSON.stringify drops
      undefined ones), the characters and the order. */
  function Serialize(s: State): (r: Json)
    ensures forall k :: k in GLOBAL_KEYS ==>
              Get(r, k) == if k in s.globals then Some(JStr(s.globals[k])) else None
    ensures Get(r, "globals") == None
    ensures Get(r, "chars") == Some(JArr(EncodeChars(s.characters)))
    ensures Get(r, "order") == Some(JArr(EncodeOrder(s.promptOrder)))
  {
    JObj((map k | k in GLOBAL_KEYS && k in s.globals :: JStr(s.globals[k]))
           ["chars" := JArr(EncodeChars(s.characters))]
           ["order" := JArr(EncodeOrder(s.promptOrder))])
  }

  /** The five globals a reload yields: present values kept, absent ones
      replaced by their base value, any other key dropped. */
  function Completed(g: Globals): Globals
  {
    map k | k in GLOBAL_KEYS :: if k in g then g[k] else BaseGlobal(k)
  }

  // ---------------------------------------------------------------- storage

  /** The result of `loadFromStorage`. */
  datatype Boot = Boot(state: State, migratedFromV4: bool)

  /** `loadFromStorage`; `None` is the case without a `window`. Whatever
      storage holds, the loaded order is well formed. Parsed v5 data is
      used; corrupt v5 text gives the default state without looking at v4;
      a v4 state is read (and flagged as migrated) only when the v5 key
      holds nothing; anything else gives the default state. */
  function LoadFromStorage(st: Option<Storage>, ids: nat -> string): (r: Boot)
    ensures OrderWellFormed(r.state.promptOrder)
    ensures st.None? ==> r == Boot(DefaultState(), false)
    ensures st.Some? && STORAGE_KEY_V5 in st.value && st.value[STORAGE_KEY_V5].Parsed? ==>
              r == Boot(Deserialize(st.value[STORAGE_KEY_V5].value, ids), false)
    ensures st.Some? && STORAGE_KEY_V5 in st.value && st.value[STORAGE_KEY_V5].Corrupt? ==>
              r == Boot(DefaultState(), false)
    ensures r.migratedFromV4 <==>
              st.Some? && (STORAGE_KEY_V5 !in st.value || st.value[STORAGE_KEY_V5] == EmptyText)
              && STORAGE_KEY_V4 in st.value && st.value[STORAGE_KEY_V4].Parsed?
    ensures r.migratedFromV4 ==>
              st.Some? && STORAGE_KEY_V4 in st.value && st.value[STORAGE_KEY_V4].Parsed?
              && r.state == Deserialize(st.value[STORAGE_KEY_V4].value, ids)
    ensures st.Some? && (STORAGE_KEY_V5 !in st.value || st.value[STORAGE_KEY_V5] == EmptyText)
            && !(STORAGE_KEY_V4 in st.value && st.value[STORAGE_KEY_V4].Parsed?) ==>
              r == Boot(DefaultState(), false)
  {
    DefaultOrderWellFormed();
    if st.None? then Boot(DefaultState(), false)
    else
      var v5 := if STORAGE_KEY_V5 in st.value then st.value[STORAGE_KEY_V5] else EmptyText;
      var v4 := if STORAGE_KEY_V4 in st.value then st.value[STORAGE_KEY_V4] else EmptyText;
      match v5
      case Parsed(v) => Boot(Deserialize(v, ids), false)
      case Corrupt => Boot(DefaultState(), false)
      case EmptyText =>
        match v4
        case Parsed(v) => Boot(Deserialize(v, ids), true)
        case _ => Boot(DefaultState(), false)
  }

  // ---------------------------------------------------------------- reducer

  /** The reducer's actions. `AddCharacter` carries the generated id, and
      `Replace` the id generator `deserializeState` needs. */
  datatype Action =
    | SetGlobal(key: string, value: string)
    | AddCharacter(newId: string)
    | DeleteCharacter(id: string)
    | ToggleActive(id: string)
    | SetName(id: string, value: string)
    | SetText(id: string, value: string)
    | ToggleOpen(id: string)
    | MoveOrder(index: int, direction: int)
    | Replace(data: Json, ids: nat -> string)
    | Reset
    | Unknown

  /** Whether the character does not have the given id. */
  function OtherId(id: string): Character -> bool
  {
    (c: Character) => c.id != id
  }

  function CharacterId(c: Character): string { c.id }

  function FlipActive(c: Character): Character { c.(active := !c.active) }
  function FlipOpen(c: Character): Character { c.(isOpen := !c.isOpen) }
  function WithName(v: string): Character -> Character { (c: Character) => c.(name := v) }
  function WithText(v: string): Character -> Character { (c: Character) => c.(text := v) }
  function Closed(c: Character): Character { c.(isOpen := false) }

  /** The character `characters/add` appends. */
  function NewCharacter(id: string): Character
  {
    Character(id, "New Character", "", true, true)
  }

  /** `arr` with positions i and j exchanged, as `swapInArray` leaves its copy. */
  function Swapped<T>(s: seq<T>, i: nat, j: nat): (r: seq<T>)
    requires i < |s| && j < |s|
    ensures |r| == |s|
  {
    s[j := s[i]][i := s[j]]
  }

  /** `swapInArray`: copies the array and swaps two slots of the copy. */
  method SwapInArray<T>(arr: seq<T>, i: nat, j: nat) returns (r: seq<T>)
    requires i < |arr| && j < |arr|
    ensures r == Swapped(arr, i, j)
    ensures multiset(r) == multiset(arr)
  {
    var copy := new T[|arr|](k requires 0 <= k < |arr| => arr[k]);
    assert copy[..] == arr;
    var tmp := copy[j];
    copy[j] := copy[i];
    copy[i] := tmp;
    r := copy[..];
    SwappedIsPermutation(arr, i, j);
  }

  /** The guard of `order/move` as written: only the target index is
      checked. */
  predicate MoveGuardAsWritten(len: int, index: int, direction: int)
  {
    !(index + direction < 0 || index + direction >= len)
  }

  /** The guard the swap needs: both positions inside the list. */
  predicate MoveAllowed(len: int, index: int, direction: int)
  {
    0 <= index < len && 0 <= index + direction < len
  }

  /** `reducer(state, action)`. Each action touches only its own part of
      the state: the globals, the characters or the order; setting a
      global changes that key alone; moving keeps the entries of the order;
      replacing and resetting give a well-formed order, resetting the
      default state; an unknown action changes nothing. */
  function Reduce(s: State, a: Action): (r: State)
    ensures !(a.SetGlobal? || a.Replace? || a.Reset?) ==> r.globals == s.globals
    ensures a.SetGlobal? || a.MoveOrder? || a.Unknown? ==> r.characters == s.characters
    ensures !(a.MoveOrder? || a.Replace? || a.Reset?) ==> r.promptOrder == s.promptOrder
    ensures a.SetGlobal? ==> r.globals.Keys == s.globals.Keys + {a.key} && r.globals[a.key] == a.value
    ensures a.SetGlobal? ==> forall k :: k in s.globals && k != a.key ==> r.globals[k] == s.globals[k]
    ensures a.MoveOrder? ==> multiset(r.promptOrder) == multiset(s.promptOrder)
    ensures a.Replace? || a.Reset? ==> OrderWellFormed(r.promptOrder)
    ensures a.Reset? ==> r == DefaultState()
    ensures a.Unknown? ==> r == s
  {
    match a
    case SetGlobal(key, value) => s.(globals := s.globals[key := value])
    case AddCharacter(newId) => s.(characters := Map(Closed, s.characters) + [NewCharacter(newId)])
    case DeleteCharacter(id) => s.(characters := Filter(OtherId(id), s.characters))
    case ToggleActive(id) => s.(characters := UpdateWhere(s.characters, CharacterId, id, FlipActive))
    case SetName(id, value) => s.(characters := UpdateWhere(s.characters, CharacterId, id, WithName(value)))
    case SetText(id, value) => s.(characters := UpdateWhere(s.characters, CharacterId, id, WithText(value)))
    case ToggleOpen(id) => s.(characters := UpdateWhere(s.characters, CharacterId, id, FlipOpen))
    case MoveOrder(index, direction) =>
      if MoveAllowed(|s.promptOrder|, index, direction)
      then s.(promptOrder := Swapped(s.promptOrder, index, index + direction))
      else s
    case Replace(value, ids) => Deserialize(value, ids)
    case Reset => DefaultOrderWellFormed(); DefaultState()
    case Unknown => s
  }

  // ------------------------------------------------------------------ store

  /** The outcome of the `load` action. */
  datatype LoadOutcome = Loaded | NothingSaved | ParseError

  /** The hook's state: the current builder state, the boot-time migration
      flag, and the local storage it persists to. */
  class PawsvilleStore {
    var state: State
    var migratedFromV4: bool
    var storage: Storage

    /** The state always holds a well-formed order. */
    predicate Valid()
      reads this
    {
      OrderWellFormed(state.promptOrder)
    }

    /** The hook's first render: boot from storage. */
    constructor(st: Storage, ids: nat -> string)
      ensures Boot(state, migratedFromV4) == LoadFromStorage(Some(st), ids)
      ensures storage == st
      ensures Valid()
    {
      var boot := LoadFromStorage(Some(st), ids);
      state := boot.state;
      migratedFromV4 := boot.migratedFromV4;
      storage := st;
    }

    /** `dispatch(action)`. */
    method Dispatch(a: Action)
      requires Valid()
      modifies this
      ensures state == Reduce(old(state), a)
      ensures storage == old(storage) && migratedFromV4 == old(migratedFromV4)
      ensures Valid()
    {
      ReducePreservesOrder(state, a);
      state := Reduce(state, a);
    }

    /** `saveNow(state)`; `writeOk` says whether `setItem` succeeded. */
    method Save(writeOk: bool) returns (ok: bool)
      modifies this
      ensures ok == writeOk
      ensures storage == if writeOk then old(storage)[STORAGE_KEY_V5 := Parsed(Serialize(state))] else old(storage)
      ensures state == old(state) && migratedFromV4 == old(migratedFromV4)
    {
      if writeOk {
        storage := storage[STORAGE_KEY_V5 := Parsed(Serialize(state))];
      }
      ok := writeOk;
    }

    /** The `load` action: replace the state from the v5 key. */
    method Load(ids: nat -> string) returns (outcome: LoadOutcome)
      requires Valid()
      modifies this
      ensures storage == old(storage) && migratedFromV4 == old(migratedFromV4)
      ensures STORAGE_KEY_V5 !in storage || storage[STORAGE_KEY_V5] == EmptyText ==> outcome == NothingSaved && state == old(state)
      ensures STORAGE_KEY_V5 in storage && storage[STORAGE_KEY_V5] == Corrupt ==> outcome == ParseError && state == old(state)
      ensures STORAGE_KEY_V5 in storage && storage[STORAGE_KEY_V5].Parsed? ==>
                outcome == Loaded && state == Reduce(old(state), Replace(storage[STORAGE_KEY_V5].value, ids))
      ensures Valid()
    {
      if STORAGE_KEY_V5 !in storage || storage[STORAGE_KEY_V5] == EmptyText {
        return NothingSaved;
      }
      match storage[STORAGE_KEY_V5]
      case Corrupt =>
        outcome := ParseError;
      case Parsed(v) =>
        Dispatch(Replace(v, ids));
        outcome := Loaded;
    }

    /** The `reset` action; `removeOk` says whether `removeItem` succeeded. */
    method Reset(removeOk: bool)
      requires Valid()
      modifies this
      ensures storage == if removeOk then old(storage) - {STORAGE_KEY_V5} else old(storage)
      ensures state == DefaultState() && migratedFromV4 == old(migratedFromV4)
      ensures Valid()
    {
      if removeOk {
        storage := storage - {STORAGE_KEY_V5};
      }
      Dispatch(Action.Reset);
    }
  }

  // ----------------------------------------------------------------- lemmas

  lemma SwappedIsPermutation<T>(s: seq<T>, i: nat, j: nat)
    requires i < |s| && j < |s|
    ensures multiset(Swapped(s, i, j)) == multiset(s)
  {
  }

  lemma DefaultOrderWellFormed()
    ensures OrderWellFormed(DefaultOrder())
  {
    var d := DefaultOrder();
    assert d[0].id == "global" && d[1].id == "chars" && d[2].id == "scene";
    assert IdsOf(d) == ALLOWED;
  }

  lemma IdsOfAppend(a: seq<OrderEntry>, b: seq<OrderEntry>)
    ensures IdsOf(a + b) == IdsOf(a) + IdsOf(b)
  {
    forall x | x in IdsOf(a + b) ensures x in IdsOf(a) + IdsOf(b) {
      var i :| 0 <= i < |a + b| && (a + b)[i].id == x;
      if i < |a| {
        assert a[i].id == x;
      } else {
        assert b[i - |a|].id == x;
      }
    }
    forall x | x in IdsOf(a) + IdsOf(b) ensures x in IdsOf(a + b) {
      if x in IdsOf(a) {
        var i :| 0 <= i < |a| && a[i].id == x;
        assert (a + b)[i].id == x;
      } else {
        var i :| 0 <= i < |b| && b[i].id == x;
        assert (a + b)[|a| + i].id == x;
      }
    }
  }

  /** The kept entries of a non-empty order list carry allowed ids under
      canonical names. */
  lemma KeptEntriesShape(items: seq<Json>)
    ensures var kept := Map(EntryOf, Filter(AllowedEntry, items));
            CanonicalNames(kept) && IdsOf(kept) <= ALLOWED
  {
    var f := Filter(AllowedEntry, items);
    var kept := Map(EntryOf, f);
    forall x | x in IdsOf(kept) ensures x in ALLOWED {
      var i :| 0 <= i < |kept| && kept[i].id == x;
      assert AllowedEntry(f[i]);
    }
  }

  /** The appended defaults are default entries. */
  lemma AddedDefaultsShape(present: set<string>)
    ensures var add := Filter(Missing(present), DefaultOrder());
            CanonicalNames(add) && IdsOf(add) <= ALLOWED
  {
    var d := DefaultOrder();
    var add := Filter(Missing(present), d);
    FilterMembers(Missing(present), d);
    assert forall e :: e in d ==> e.id in ALLOWED && e.name == CanonicalName(e.id);
    forall x | x in IdsOf(add) ensures x in ALLOWED {
      var i :| 0 <= i < |add| && add[i].id == x;
      assert add[i] in d;
    }
  }

  /** Every section id the kept entries lack is among the appended
      defaults. */
  lemma AddedDefaultsCover(present: set<string>)
    ensures ALLOWED - present <= IdsOf(Filter(Missing(present), DefaultOrder()))
  {
    var d := DefaultOrder();
    var add := Filter(Missing(present), d);
    FilterMembers(Missing(present), d);
    forall k | 0 <= k < 3 && d[k].id !in present ensures d[k].id in IdsOf(add) {
      assert Missing(present)(d[k]);
      assert d[k] in add;
      var i :| 0 <= i < |add| && add[i] == d[k];
    }
    assert ALLOWED == {d[0].id, d[1].id, d[2].id};
  }

  /** Swapping two entries keeps the set of ids and the names. */
  lemma SwappedWellFormed(o: seq<OrderEntry>, i: nat, j: nat)
    requires i < |o| && j < |o| && OrderWellFormed(o)
    ensures OrderWellFormed(Swapped(o, i, j))
  {
    var w := Swapped(o, i, j);
    assert forall k :: 0 <= k < |o| ==> w[k] == (if k == i then o[j] else if k == j then o[i] else o[k]);
    forall x | x in IdsOf(o) ensures x in IdsOf(w) {
      var k :| 0 <= k < |o| && o[k].id == x;
      if k == i {
        assert w[j].id == x;
      } else if k == j {
        assert w[i].id == x;
      } else {
        assert w[k].id == x;
      }
    }
  }

  lemma ReducePreservesOrder(s: State, a: Action)
    requires OrderWellFormed(s.promptOrder)
    ensures OrderWellFormed(Reduce(s, a).promptOrder)
  {
    match a
    case MoveOrder(index, direction) =>
      if MoveAllowed(|s.promptOrder|, index, direction) {
        SwappedWellFormed(s.promptOrder, index, index + direction);
      }
    case Reset => DefaultOrderWellFormed();
    case _ =>
  }

  // ------------------------------------------------------- round trips

  /** A character survives being written and normalised again. */
  lemma CharacterRoundTrip(c: Character, freshId: string)
    ensures CoerceCharacter(EncodeCharacter(c), freshId) == c
  {
    var e := EncodeCharacter(c);
    assert Get(e, "id") == Some(JStr(c.id));
    assert Get(e, "name") == Some(JStr(c.name));
    assert Get(e, "text") == Some(JStr(c.text));
    assert Get(e, "active") == Some(JBool(c.active));
    assert Get(e, "isOpen") == Some(JBool(c.isOpen));
  }

  /** Normalising the written characters gives them back, whatever ids the
      generator would have produced. */
  lemma CharsRoundTrip(cs: seq<Character>, ids: nat -> string)
    ensures NormalizeCharacters(JArr(EncodeChars(cs)), ids) == cs
  {
    var items := EncodeChars(cs);
    forall k | 0 <= k < |items| ensures IsTruthy(items[k]) {
      assert items[k] == EncodeCharacter(cs[k]);
    }
    FilterAll(IsTruthy, items);
    forall k | 0 <= k < |cs| ensures CoerceCharacter(items[k], ids(k)) == cs[k] {
      CharacterRoundTrip(cs[k], ids(k));
    }
  }

  /** The falsy entries of a character list are dropped: normalising the list
      is normalising its truthy entries alone. */
  lemma FalsyCharactersDropped(items: seq<Json>, ids: nat -> string)
    ensures NormalizeCharacters(JArr(items), ids) == NormalizeCharacters(JArr(Filter(IsTruthy, items)), ids)
  {
    FilterAll(IsTruthy, Filter(IsTruthy, items));
  }

  /** What a surviving entry becomes: a present id, name or text is its
      `String(..)`; a missing or null name is "Unnamed", a missing or null
      text is "", a missing or null id is a generated one; the flags are the
      truthiness of the fields. */
  lemma NormalizedCharacterFields(items: seq<Json>, ids: nat -> string, k: nat)
    requires k < |Filter(IsTruthy, items)|
    ensures var e := Filter(IsTruthy, items)[k]; var c := NormalizeCharacters(JArr(items), ids)[k];
            IsTruthy(e) && e in items
            && (Nullish(Get(e, "id")) ==> c.id == ids(k))
            && (!Nullish(Get(e, "id")) ==> c.id == ToStr(Get(e, "id").value))
            && (Nullish(Get(e, "name")) ==> c.name == "Unnamed")
            && (!Nullish(Get(e, "name")) ==> c.name == ToStr(Get(e, "name").value))
            && (Nullish(Get(e, "text")) ==> c.text == "")
            && (!Nullish(Get(e, "text")) ==> c.text == ToStr(Get(e, "text").value))
            && (c.active <==> Truthy(Get(e, "active")))
            && (c.isOpen <==> Truthy(Get(e, "isOpen")))
  {
    var kept := Filter(IsTruthy, items);
    FilterMembers(IsTruthy, items);
    assert kept[k] in items;
    assert NormalizeCharacters(JArr(items), ids)[k] == CoerceCharacter(kept[k], ids(k));
  }

  /** A well-formed order survives being written and normalised again. */
  lemma OrderRoundTrip(o: seq<OrderEntry>)
    requires OrderWellFormed(o)
    ensures NormalizedOrder(JArr(EncodeOrder(o))) == o
  {
    assert "global" in IdsOf(o);
    var items := EncodeOrder(o);
    assert |items| > 0;
    EncodedEntriesKept(o);
    NoDefaultMissing(o);
    assert NormalizedOrder(JArr(items)) == o + [];
  }

  /** When all three sections occur, no default is appended. */
  lemma NoDefaultMissing(o: seq<OrderEntry>)
    requires IdsOf(o) == ALLOWED
    ensures Filter(Missing(IdsOf(o)), DefaultOrder()) == []
  {
    var d := DefaultOrder();
    forall i | 0 <= i < |d| ensures !Missing(IdsOf(o))(d[i]) {
      assert d[i].id in ALLOWED;
    }
    FilterNone(Missing(IdsOf(o)), d);
  }

  /** Every written entry of a well-formed order is allowed and reads back
      as itself. */
  lemma EncodedEntriesKept(o: seq<OrderEntry>)
    requires OrderWellFormed(o)
    ensures Map(EntryOf, Filter(AllowedEntry, EncodeOrder(o))) == o
  {
    var items := EncodeOrder(o);
    forall i | 0 <= i < |items| ensures AllowedEntry(items[i]) && EntryOf(items[i]) == o[i] {
      assert o[i].id in IdsOf(o);
      assert items[i] == EncodeEntry(o[i]);
      assert Get(items[i], "id") == Some(JStr(o[i].id));
    }
    FilterAll(AllowedEntry, items);
  }

  /** Writing a state with a well-formed order and reading it back gives the
      same characters and order, and the five globals with absent ones
      replaced by their base value; other global keys are lost. */
  lemma SerializeRoundTrip(s: State, ids: nat -> string)
    requires OrderWellFormed(s.promptOrder)
    ensures Deserialize(Serialize(s), ids) == State(Completed(s.globals), s.characters, s.promptOrder)
  {
    var ser := Serialize(s);
    SerializedGlobals(s);
    CharsRoundTrip(s.characters, ids);
    OrderRoundTrip(s.promptOrder);
    assert DataOf(ser) == ser;
  }

  /** The globals read back from a serialised state. */
  lemma SerializedGlobals(s: State)
    ensures (map k | k in GLOBAL_KEYS :: PickGlobal(Serialize(s), k)) == Completed(s.globals)
  {
    var g := map k | k in GLOBAL_KEYS :: PickGlobal(Serialize(s), k);
    forall k | k in GLOBAL_KEYS ensures g[k] == Completed(s.globals)[k] {
    }
  }

  /** A deserialised state is a fixed point of writing and reading back. */
  lemma DeserializeStable(raw: Json, ids: nat -> string, ids': nat -> string)
    ensures Deserialize(Serialize(Deserialize(raw, ids)), ids') == Deserialize(raw, ids)
  {
    CompleteStateRoundTrip(Deserialize(raw, ids), ids');
  }

  /** A state with exactly the five globals and a well-formed order survives
      writing and reading back unchanged. */
  lemma CompleteStateRoundTrip(s: State, ids: nat -> string)
    requires OrderWellFormed(s.promptOrder) && s.globals.Keys == GLOBAL_KEYS
    ensures Deserialize(Serialize(s), ids) == s
  {
    SerializeRoundTrip(s, ids);
    assert Completed(s.globals) == s.globals;
  }

  /** The default lists are normal: normalising their written form gives
      them back. */
  lemma BaseListsNormal(ids: nat -> string)
    ensures NormalizeCharacters(JArr(EncodeChars(DefaultChars())), ids) == DefaultChars()
    ensures NormalizedOrder(JArr(EncodeOrder(DefaultOrder()))) == DefaultOrder()
  {
    CharsRoundTrip(DefaultChars(), ids);
    DefaultOrderWellFormed();
    OrderRoundTrip(DefaultOrder());
  }

  /** A value that is not an object (or array) is read as `{}`: the base
      globals, in which `texture` is the string "undefined", and the default
      lists. */
  lemma NonObjectGivesBase(raw: Json, ids: nat -> string)
    requires !raw.JObj?
    ensures Deserialize(raw, ids) == State(Completed(map[]), DefaultChars(), DefaultOrder())
    ensures Completed(map[])["texture"] == "undefined" && Completed(map[])["style"] == ""
  {
    assert "texture" !in DefaultGlobals();
  }

  /** A flat global that is neither null nor missing wins, as its
      `String(..)`, over the nested `globals` one, which wins over the base
      value. */
  lemma GlobalPrecedence(raw: Json, ids: nat -> string, k: string)
    requires raw.JObj? && k in GLOBAL_KEYS
    ensures var flat := Get(raw, k); var nested := GetIn(Get(raw, "globals"), k);
            var v := Deserialize(raw, ids).globals[k];
            (!Nullish(flat) ==> v == ToStr(flat.value))
            && (Nullish(flat) && !Nullish(nested) ==> v == ToStr(nested.value))
            && (Nullish(flat) && Nullish(nested) ==> v == BaseGlobal(k))
  {
  }

  /** A reload right after a successful save restores the saved state, up to
      the globals completion of SerializeRoundTrip, and is not a migration. */
  lemma SaveThenReload(st: Storage, s: State, ids: nat -> string)
    requires OrderWellFormed(s.promptOrder)
    ensures LoadFromStorage(Some(st[STORAGE_KEY_V5 := Parsed(Serialize(s))]), ids)
            == Boot(State(Completed(s.globals), s.characters, s.promptOrder), false)
  {
    SerializeRoundTrip(s, ids);
  }

  // ------------------------------------------------------------ reducer

  /** `characters/add` appends one card, open, and closes all the others
      without touching anything else. */
  lemma AddCharacterEffect(s: State, id: string)
    ensures var r := Reduce(s, AddCharacter(id)); var n := |s.characters|;
            r.globals == s.globals && r.promptOrder == s.promptOrder
            && |r.characters| == n + 1 && r.characters[n] == NewCharacter(id)
            && (forall i :: 0 <= i < |r.characters| ==> (r.characters[i].isOpen <==> i == n))
            && (forall i :: 0 <= i < n ==> r.characters[i].(isOpen := s.characters[i].isOpen) == s.characters[i])
  {
    var r := Reduce(s, AddCharacter(id));
    var n := |s.characters|;
    forall i | 0 <= i < n ensures r.characters[i] == Closed(s.characters[i]) {
      assert r.characters[i] == Map(Closed, s.characters)[i];
    }
  }

  /** `characters/delete` removes every card with the id and keeps the others
      in order; an unknown id changes nothing. */
  lemma DeleteCharacterEffect(s: State, id: string)
    ensures var r := Reduce(s, DeleteCharacter(id));
            r.globals == s.globals && r.promptOrder == s.promptOrder
            && (forall i :: 0 <= i < |r.characters| ==> r.characters[i].id != id && r.characters[i] in s.characters)
            && (forall i :: 0 <= i < |s.characters| && s.characters[i].id != id ==> s.characters[i] in r.characters)
            && ((forall i :: 0 <= i < |s.characters| ==> s.characters[i].id != id) ==> r == s)
            && SelectedInOrder(r.characters, s.characters, Positions(OtherId(id), s.characters), OtherId(id))
  {
    var p := OtherId(id);
    var r := Reduce(s, DeleteCharacter(id));
    assert r == s.(characters := Filter(p, s.characters));
    FilterMembers(p, s.characters);
    FilterInOrder(p, s.characters);
    if forall i :: 0 <= i < |s.characters| ==> s.characters[i].id != id {
      FilterAll(p, s.characters);
    }
  }

  /** `characters/toggleActive` flips the flag of the cards with the id and
      changes nothing else. */
  lemma ToggleActiveEffect(s: State, id: string)
    ensures var r := Reduce(s, ToggleActive(id));
            r.globals == s.globals && r.promptOrder == s.promptOrder && |r.characters| == |s.characters|
            && forall i :: 0 <= i < |s.characters| ==>
                 r.characters[i].(active := s.characters[i].active) == s.characters[i]
                 && (r.characters[i].active <==> (s.characters[i].active != (s.characters[i].id == id)))
  {
    var r := Reduce(s, ToggleActive(id));
    forall i | 0 <= i < |s.characters|
      ensures r.characters[i] == if s.characters[i].id == id then FlipActive(s.characters[i]) else s.characters[i]
    {
    }
  }

  /** Toggling twice restores the state. */
  lemma ToggleActiveTwice(s: State, id: string)
    ensures Reduce(Reduce(s, ToggleActive(id)), ToggleActive(id)) == s
  {
    var m := Reduce(s, ToggleActive(id));
    var r := Reduce(m, ToggleActive(id));
    ToggleActiveEffect(s, id);
    ToggleActiveEffect(m, id);
    forall i | 0 <= i < |s.characters| ensures r.characters[i] == s.characters[i] {
      assert r.characters[i].(active := m.characters[i].active) == m.characters[i];
    }
    assert r.characters == s.characters;
  }

  /** `characters/toggleOpen` flips the open flag of the cards with the id
      and changes nothing else. */
  lemma ToggleOpenEffect(s: State, id: string)
    ensures var r := Reduce(s, ToggleOpen(id));
            r.globals == s.globals && r.promptOrder == s.promptOrder && |r.characters| == |s.characters|
            && (forall i :: 0 <= i < |s.characters| ==>
                 r.characters[i].(isOpen := s.characters[i].isOpen) == s.characters[i]
                 && (r.characters[i].isOpen <==> (s.characters[i].isOpen != (s.characters[i].id == id))))
  {
    var r := Reduce(s, ToggleOpen(id));
    forall i | 0 <= i < |s.characters|
      ensures r.characters[i] == if s.characters[i].id == id then FlipOpen(s.characters[i]) else s.characters[i]
    {
    }
  }

  /** Toggling a card open twice restores the state. */
  lemma ToggleOpenTwice(s: State, id: string)
    ensures Reduce(Reduce(s, ToggleOpen(id)), ToggleOpen(id)) == s
  {
    var m := Reduce(s, ToggleOpen(id));
    var r := Reduce(m, ToggleOpen(id));
    ToggleOpenEffect(s, id);
    ToggleOpenEffect(m, id);
    forall i | 0 <= i < |s.characters| ensures r.characters[i] == s.characters[i] {
      assert r.characters[i].(isOpen := m.characters[i].isOpen) == m.characters[i];
    }
    assert r.characters == s.characters;
  }

  /** `characters/setName` and `characters/setText` replace one field of the
      cards with the id and nothing else. */
  lemma SetFieldEffect(s: State, id: string, v: string)
    ensures var r := Reduce(s, SetName(id, v));
            r.globals == s.globals && r.promptOrder == s.promptOrder && |r.characters| == |s.characters|
            && forall i :: 0 <= i < |s.characters| ==>
                 r.characters[i].(name := s.characters[i].name) == s.characters[i]
                 && r.characters[i].name == (if s.characters[i].id == id then v else s.characters[i].name)
    ensures var r := Reduce(s, SetText(id, v));
            r.globals == s.globals && r.promptOrder == s.promptOrder && |r.characters| == |s.characters|
            && forall i :: 0 <= i < |s.characters| ==>
                 r.characters[i].(text := s.characters[i].text) == s.characters[i]
                 && r.characters[i].text == (if s.characters[i].id == id then v else s.characters[i].text)
  {
  }

  /** A global set to a value survives a save and reload when it is one of
      the five keys, and is dropped otherwise. */
  lemma SetGlobalPersists(s: State, key: string, v: string, ids: nat -> string)
    requires OrderWellFormed(s.promptOrder)
    ensures var r := Deserialize(Serialize(Reduce(s, SetGlobal(key, v))), ids);
            (key in GLOBAL_KEYS ==> r.globals[key] == v) && (key !in GLOBAL_KEYS ==> key !in r.globals)
  {
    SerializeRoundTrip(Reduce(s, SetGlobal(key, v)), ids);
  }

  /** `order/move`: when both positions are inside the list the two entries
      trade places and the list is a permutation of the old one; otherwise
      nothing changes. */
  lemma MoveOrderEffect(s: State, index: int, direction: int)
    ensures var r := Reduce(s, MoveOrder(index, direction)); var o := s.promptOrder; var j := index + direction;
            r.globals == s.globals && r.characters == s.characters
            && (MoveAllowed(|o|, index, direction) ==>
                  multiset(r.promptOrder) == multiset(o) && |r.promptOrder| == |o|
                  && r.promptOrder[index] == o[j] && r.promptOrder[j] == o[index]
                  && forall k :: 0 <= k < |o| && k != index && k != j ==> r.promptOrder[k] == o[k])
            && (!MoveAllowed(|o|, index, direction) ==> r == s)
  {
    if MoveAllowed(|s.promptOrder|, index, direction) {
      SwappedIsPermutation(s.promptOrder, index, index + direction);
    }
  }

  /** Moving an entry back undoes the move. */
  lemma MoveOrderUndo(s: State, index: int, direction: int)
    requires MoveAllowed(|s.promptOrder|, index, direction)
    ensures Reduce(Reduce(s, MoveOrder(index, direction)), MoveOrder(index + direction, -direction)) == s
  {
    var j := index + direction;
    var m := Reduce(s, MoveOrder(index, direction));
    assert m == s.(promptOrder := Swapped(s.promptOrder, index, j));
    assert MoveAllowed(|m.promptOrder|, j, -direction);
    var r := Reduce(m, MoveOrder(j, -direction));
    assert r == m.(promptOrder := Swapped(m.promptOrder, j, index));
    SwappedBack(s.promptOrder, index, j);
  }

  /** Swapping the same two positions again restores the list. */
  lemma SwappedBack<T>(o: seq<T>, i: nat, j: nat)
    requires i < |o| && j < |o|
    ensures Swapped(Swapped(o, i, j), j, i) == o
  {
    var w := Swapped(Swapped(o, i, j), j, i);
    assert forall k :: 0 <= k < |o| ==> w[k] == o[k];
  }

  /** The guard as written lets an out-of-range index through: with three
      entries, index -1 and direction +1 the target 0 is inside the list,
      so the swap would read and write slot -1. */
  lemma MoveGuardAdmitsBadIndex()
    ensures MoveGuardAsWritten(3, -1, 1) && !MoveAllowed(3, -1, 1)
    ensures MoveGuardAsWritten(3, 3, -1) && !MoveAllowed(3, 3, -1)
  {
  }

  /** For an index inside the list, the guard as written and the full guard
      agree. */
  lemma MoveGuardsAgree(len: int, index: int, direction: int)
    requires 0 <= index < len
    ensures MoveGuardAsWritten(len, index, direction) <==> MoveAllowed(len, index, direction)
  {
  }

  /** An unknown action returns the same state. */
  lemma UnknownActionIgnored(s: State)
    ensures Reduce(s, Unknown) == s
  {
  }

  /** With only `global` present, the two other defaults are appended. */
  lemma MissingAfterGlobal()
    ensures Filter(Missing({"global"}), DefaultOrder()) == [DefaultOrder()[1], DefaultOrder()[2]]
  {
    var d := DefaultOrder();
    var p := Missing({"global"});
    assert d == [d[0]] + [d[1], d[2]];
    FilterCons(p, d[0], [d[1], d[2]]);
    FilterAll(p, [d[1], d[2]]);
  }

  /** A list whose entries all name the `global` section keeps every one of
      them and gains the other two sections after them. */
  lemma OnlyGlobalEntries(items: seq<Json>)
    requires |items| > 0
    requires forall i :: 0 <= i < |items| ==> AllowedEntry(items[i]) && EntryId(items[i]) == "global"
    ensures forall i :: 0 <= i < |items| ==> Map(EntryOf, items)[i] == DefaultOrder()[0]
    ensures NormalizedOrder(JArr(items)) == Map(EntryOf, items) + [DefaultOrder()[1], DefaultOrder()[2]]
  {
    FilterAll(AllowedEntry, items);
    var kept := Map(EntryOf, items);
    forall x | x in IdsOf(kept) ensures x == "global" {
      var i :| 0 <= i < |kept| && kept[i].id == x;
      assert kept[i] == EntryOf(items[i]);
    }
    assert kept[0].id in IdsOf(kept);
    assert IdsOf(kept) == {"global"};
    MissingAfterGlobal();
  }

  /** Repeated section entries are kept, not merged: two `global` entries
      yield two Global Settings sections followed by the missing two. */
  lemma DuplicateEntriesKept()
    ensures var g := JObj(map["id" := JStr("global")]); var d := DefaultOrder();
            NormalizedOrder(JArr([g, g])) == [d[0], d[0], d[1], d[2]]
  {
    var g := JObj(map["id" := JStr("global")]);
    var d := DefaultOrder();
    assert EntryId(g) == "global";
    OnlyGlobalEntries([g, g]);
    assert Map(EntryOf, [g, g]) == [d[0], d[0]];
  }
}
