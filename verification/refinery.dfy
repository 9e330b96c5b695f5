/** The Refinery wardrobe editor (src/components/Refinery.jsx): characters
    with outfits, the scene text with tag insertion, and the enhance run that
    sends each scene line to an AI model with a system prompt built from the
    characters and settings. */
module Refinery {
  import opened Lists
  import opened JsStrings
  import opened JsValues
  import opened AppDefaults

  // ------------------------------------------------------------ loading

  /** What `localStorage.getItem(STORAGE_KEY)` and `JSON.parse` yield: nothing
      (null or ""), text that does not parse, or the saved record, whose
      fields may each be missing or null (`None`). */
  datatype Saved =
    | NoData
    | Unparsable
    | Record(chars: Option<seq<Actor>>, style: Option<string>, neg: Option<string>, tex: Option<string>)

  datatype Initial = Initial(chars: seq<Actor>, style: string, negative: string, texture: string)

  /** `value || fallback` for an optional string. */
  function OrText(v: Option<string>, fallback: string): string
  {
    if v.Some? && v.value != "" then v.value else fallback
  }

  /** `loadInitialState`: nothing stored, or text that does not parse, gives
      all defaults; a record takes each truthy field and falls back for each
      falsy one on its own. An empty character list is truthy and is kept. */
  function LoadInitialState(saved: Saved): (r: Initial)
    ensures !saved.Record? ==> r == Initial(RefineryDefaults(), "", "", "standard")
    ensures saved.Record? ==>
              (r.chars == if saved.chars.Some? then saved.chars.value else RefineryDefaults())
              && (r.style == if saved.style.Some? && saved.style.value != "" then saved.style.value else "")
              && (r.negative == if saved.neg.Some? && saved.neg.value != "" then saved.neg.value else "")
              && (r.texture == if saved.tex.Some? && saved.tex.value != "" then saved.tex.value else "standard")
    ensures AllWardrobesOk(r.chars) <==> !saved.Record? || saved.chars.None? || AllWardrobesOk(saved.chars.value)
  {
    AppDefaultsFacts();
    match saved
    case Record(chars, style, neg, tex) =>
      Initial(if chars.Some? then chars.value else RefineryDefaults(), OrText(style, ""), OrText(neg, ""), OrText(tex, "standard"))
    case _ => Initial(RefineryDefaults(), "", "", "standard")
  }

  // ----------------------------------------------------- character edits

  /** The character `addChar` appends; `now` is `Date.now()`. */
  function NewActor(now: nat): Actor
  {
    Actor("rc" + NatToString(now), "New", "@new", "", [Outfit("Default", "")], 0, true)
  }

  /** The fields `updateChar` is called with, each with its new value. */
  datatype Field = OpenFlag(b: bool) | Tag(s: string) | Desc(s: string) | ActiveOutfit(i: int)

  /** `{ ...c, [key]: value }` */
  function WithField(f: Field): Actor -> Actor
  {
    (a: Actor) =>
      match f
      case OpenFlag(b) => a.(open := b)
      case Tag(s) => a.(tag := s)
      case Desc(s) => a.(desc := s)
      case ActiveOutfit(i) => a.(activeOutfit := i)
  }

  function ActorId(a: Actor): string { a.id }

  /** The active outfit's description replaced. The guard is what the method
      requires of the characters it touches. */
  function WithOutfitDesc(desc: string): Actor -> Actor
  {
    (a: Actor) =>
      if 0 <= a.activeOutfit < |a.outfits|
      then a.(outfits := a.outfits[a.activeOutfit := a.outfits[a.activeOutfit].(desc := desc)])
      else a
  }

  /** A new outfit appended and made active. */
  function WithNewOutfit(name: string): Actor -> Actor
  {
    (a: Actor) => a.(outfits := a.outfits + [Outfit(name, "")], activeOutfit := |a.outfits|)
  }

  /** `outfits.filter((_, i) => i !== k)` */
  function RemoveIndex<T>(s: seq<T>, k: int): seq<T>
  {
    if 0 <= k < |s| then s[..k] + s[k + 1..] else s
  }

  /** The active outfit removed, and the first one made active. */
  function WithoutActiveOutfit(a: Actor): Actor
  {
    a.(outfits := RemoveIndex(a.outfits, a.activeOutfit), activeOutfit := 0)
  }

  /** `chars.find(c => c.id === id)` */
  function FindActor(chars: seq<Actor>, id: string): (r: Option<Actor>)
    ensures r.Some? ==> r.value in chars && r.value.id == id
    ensures r.None? ==> forall i :: 0 <= i < |chars| ==> chars[i].id != id
  {
    if |chars| == 0 then None
    else if chars[0].id == id then Some(chars[0])
    else FindActor(chars[1..], id)
  }

  /** The guard of `deleteOutfit`, before the confirmation: the first
      character with the id has more than one outfit. */
  predicate CanDeleteOutfit(chars: seq<Actor>, id: string)
  {
    var found := FindActor(chars, id);
    found.Some? && |found.value.outfits| > 1
  }

  predicate OtherActor(id: string, a: Actor)
  {
    a.id != id
  }

  function NotId(id: string): Actor -> bool
  {
    (a: Actor) => OtherActor(id, a)
  }

  predicate AllWardrobesOk(chars: seq<Actor>)
  {
    forall i :: 0 <= i < |chars| ==> WardrobeOk(chars[i])
  }

  predicate IdsDistinct(chars: seq<Actor>)
  {
    forall i, j :: 0 <= i < j < |chars| ==> chars[i].id != chars[j].id
  }

  // --------------------------------------------------------- tag insert

  /** `s.slice(0, start) + tag + ' ' + s.slice(end)` for a selection inside
      the text. */
  function Spliced(s: string, start: nat, end: nat, tag: string): string
    requires start <= end <= |s|
  {
    s[..start] + tag + " " + s[end..]
  }

  // ---------------------------------------------------------- enhancing

  /** What the AI call yields: text, or a thrown error with its message. */
  datatype AiReply = Reply(text: string) | Failure(message: string)

  /** The entry pushed for one reply. */
  function ReplyText(r: AiReply): string
  {
    match r
    case Reply(t) => t
    case Failure(m) => "Error: " + m
  }

  /** The texture instruction line. */
  function TextureInstruction(texture: string): string
  {
    if texture == "extreme" then "MICRO-TEXTURE: Describe weave, pores, scratches."
    else if texture == "high" then "High detail."
    else "Standard."
  }

  /** One actor's block: its trigger, its description and the description of
      its active outfit, "" when there is none. */
  function ActorText(a: Actor): string
  {
    var outfit := if 0 <= a.activeOutfit < |a.outfits| then a.outfits[a.activeOutfit].desc else "";
    "TRIGGER: " + a.tag + "\nDESC: " + a.desc + "\nOUTFIT: " + outfit
  }

  function ActorsText(chars: seq<Actor>): string
  {
    Join(Map(ActorText, chars), "\n\n")
  }

  const ROLE_LINE: string := "Role: Expert Image Prompt Engineer.\nStyle: "
  const FIRST_INSTRUCTION: string := "\nInstructions:\n1. Replace tags (@cat) with DESC + OUTFIT. NO NAMES.\n2. "
  const LAST_INSTRUCTIONS: string := "\n3. Focus on Composition/Light.\n4. Output ONLY prompt."

  /** The system prompt of the enhance run. The texture instruction is the
      second numbered instruction: it sits right after `2. `, behind the
      style, negative and actors sections and the first instruction. */
  function SystemPrompt(style: string, negative: string, actors: string, texInst: string): (r: string)
    ensures var head := ROLE_LINE + style + "\nNegative: " + negative + "\nActors:\n" + actors + FIRST_INSTRUCTION;
            |head| + |texInst| <= |r| && r[..|head|] == head && r[|head|..|head| + |texInst|] == texInst
  {
    var head := ROLE_LINE + style + "\nNegative: " + negative + "\nActors:\n" + actors + FIRST_INSTRUCTION;
    head + texInst + LAST_INSTRUCTIONS
  }

  /** The results of sending every input with the system prompt: one per
      input, in order; a failed call gives the error text for its input and
      does not stop the others. */
  function Enhanced(api: ApiConfig, system: string, inputs: seq<string>, ai: (ApiConfig, string, string) -> AiReply): (r: seq<string>)
    ensures |r| == |inputs|
    ensures forall i :: 0 <= i < |inputs| ==>
              (ai(api, system, inputs[i]).Reply? ==> r[i] == ai(api, system, inputs[i]).text)
              && (ai(api, system, inputs[i]).Failure? ==> r[i] == "Error: " + ai(api, system, inputs[i]).message)
  {
    seq(|inputs|, i requires 0 <= i < |inputs| => ReplyText(ai(api, system, inputs[i])))
  }

  /** The loop of `runEnhance`: each input in turn, a failed call recorded as
      its error text. */
  method SendAll(api: ApiConfig, system: string, inputs: seq<string>, ai: (ApiConfig, string, string) -> AiReply)
    returns (newResults: seq<string>)
    ensures newResults == Enhanced(api, system, inputs, ai)
  {
    newResults := [];
    for i := 0 to |inputs|
      invariant |newResults| == i
      invariant forall j :: 0 <= j < i ==> newResults[j] == ReplyText(ai(api, system, inputs[j]))
    {
      var reply := ai(api, system, inputs[i]);
      match reply
      case Reply(text) =>
        newResults := newResults + [text];
      case Failure(message) =>
        newResults := newResults + ["Error: " + message];
    }
  }

  /** The component's state. */
  class RefineryEditor {
    var chars: seq<Actor>
    var style: string
    var negative: string
    var texture: string
    var sceneInput: string
    var results: seq<string>

    /** Every character's wardrobe is valid. */
    predicate Valid()
      reads this
    {
      AllWardrobesOk(chars)
    }

    /** The first render: the loaded settings, no scene text, no results. */
    constructor(saved: Saved)
      ensures Initial(chars, style, negative, texture) == LoadInitialState(saved)
      ensures sceneInput == "" && results == []
      ensures Valid() <==> AllWardrobesOk(LoadInitialState(saved).chars)
    {
      var init := LoadInitialState(saved);
      chars := init.chars;
      style := init.style;
      negative := init.negative;
      texture := init.texture;
      sceneInput := "";
      results := [];
    }

    /** `addChar`, with `now` the clock reading. */
    method AddChar(now: nat)
      modifies this
      ensures chars == old(chars) + [NewActor(now)]
      ensures style == old(style) && negative == old(negative) && texture == old(texture)
      ensures sceneInput == old(sceneInput) && results == old(results)
      ensures old(Valid()) ==> Valid()
    {
      chars := chars + [NewActor(now)];
    }

    /** `deleteChar`; `confirmed` is the answer to the dialog. */
    method DeleteChar(id: string, confirmed: bool)
      modifies this
      ensures chars == if confirmed then Filter(NotId(id), old(chars)) else old(chars)
      ensures style == old(style) && negative == old(negative) && texture == old(texture)
      ensures sceneInput == old(sceneInput) && results == old(results)
      ensures old(Valid()) ==> Valid()
    {
      if confirmed {
        FilterMembers(NotId(id), chars);
        chars := Filter(NotId(id), chars);
      }
    }

    /** `updateChar(id, key, value)`. */
    method UpdateChar(id: string, f: Field)
      modifies this
      ensures chars == UpdateWhere(old(chars), ActorId, id, WithField(f))
      ensures style == old(style) && negative == old(negative) && texture == old(texture)
      ensures sceneInput == old(sceneInput) && results == old(results)
    {
      chars := UpdateWhere(chars, ActorId, id, WithField(f));
    }

    /** `updateOutfitDesc`: the index it writes at is the active outfit of
      each character with the id. */
    method UpdateOutfitDesc(id: string, desc: string)
      requires forall i :: 0 <= i < |chars| && chars[i].id == id ==> 0 <= chars[i].activeOutfit < |chars[i].outfits|
      modifies this
      ensures chars == UpdateWhere(old(chars), ActorId, id, WithOutfitDesc(desc))
      ensures style == old(style) && negative == old(negative) && texture == old(texture)
      ensures sceneInput == old(sceneInput) && results == old(results)
      ensures old(Valid()) ==> Valid()
    {
      chars := UpdateWhere(chars, ActorId, id, WithOutfitDesc(desc));
    }

    /** `addOutfit`; `name` is what the prompt dialog returned (None when
      cancelled). */
    method AddOutfit(id: string, name: Option<string>)
      modifies this
      ensures chars == if name.Some? && name.value != "" then UpdateWhere(old(chars), ActorId, id, WithNewOutfit(name.value)) else old(chars)
      ensures style == old(style) && negative == old(negative) && texture == old(texture)
      ensures sceneInput == old(sceneInput) && results == old(results)
      ensures old(Valid()) ==> Valid()
    {
      if name.Some? && name.value != "" {
        chars := UpdateWhere(chars, ActorId, id, WithNewOutfit(name.value));
      }
    }

    /** `deleteOutfit`; `confirmed` is the answer to the dialog. */
    method DeleteOutfit(id: string, confirmed: bool)
      modifies this
      ensures chars == if CanDeleteOutfit(old(chars), id) && confirmed
                       then UpdateWhere(old(chars), ActorId, id, WithoutActiveOutfit) else old(chars)
      ensures style == old(style) && negative == old(negative) && texture == old(texture)
      ensures sceneInput == old(sceneInput) && results == old(results)
      ensures old(Valid()) && IdsDistinct(old(chars)) ==> Valid()
    {
      var found := FindActor(chars, id);
      if found.Some? && |found.value.outfits| > 1 && confirmed {
        if Valid() && IdsDistinct(chars) {
          DeleteOutfitKeepsWardrobes(chars, id);
        }
        chars := UpdateWhere(chars, ActorId, id, WithoutActiveOutfit);
      }
    }

    /** `insertTag`: the selection [start, end) of the scene text is replaced
      by the tag and a space; without a text field nothing happens. */
    method InsertTag(tag: string, hasInput: bool, start: nat, end: nat)
      requires hasInput ==> start <= end <= |sceneInput|
      modifies this
      ensures sceneInput == if hasInput then Spliced(old(sceneInput), start, end, tag) else old(sceneInput)
      ensures chars == old(chars) && results == old(results)
      ensures style == old(style) && negative == old(negative) && texture == old(texture)
    {
      if hasInput {
        sceneInput := sceneInput[..start] + tag + " " + sceneInput[end..];
      }
    }

    /** `runEnhance` with the AI call `ai`. Without a key it only asks for
      one; without a non-blank line it does nothing; otherwise it sends the
      lines one after the other and records one text per line. */
    method RunEnhance(api: ApiConfig, ai: (ApiConfig, string, string) -> AiReply) returns (askedForKey: bool)
      modifies this
      ensures askedForKey <==> api.key == ""
      ensures var inputs := NonBlankLines(old(sceneInput));
              var system := SystemPrompt(old(style), old(negative), ActorsText(old(chars)), TextureInstruction(old(texture)));
              results == if api.key == "" || inputs == [] then old(results) else Enhanced(api, system, inputs, ai)
      ensures chars == old(chars) && sceneInput == old(sceneInput)
      ensures style == old(style) && negative == old(negative) && texture == old(texture)
    {
      if api.key == "" {
        return true;
      }
      askedForKey := false;
      var inputs := NonBlankLines(sceneInput);
      if |inputs| == 0 {
        return;
      }
      results := [];
      var system := SystemPrompt(style, negative, ActorsText(chars), TextureInstruction(texture));
      results := SendAll(api, system, inputs, ai);
    }

    /** `copyAll`: the text put on the clipboard. */
    function CopyAll(): (r: string)
      reads this
      ensures CopiedEnds(results, r)
    {
      CopyAllText(results)
    }
  }

  // ----------------------------------------------------------------- lemmas

  /** `addChar` appends a character with a valid one-outfit wardrobe. */
  lemma NewActorShape(now: nat)
    ensures WardrobeOk(NewActor(now)) && NewActor(now).outfits == [Outfit("Default", "")]
    ensures NewActor(now).activeOutfit == 0 && NewActor(now).open
    ensures |NewActor(now).id| > 2 && NewActor(now).id[..2] == "rc"
  {
  }

  /** `updateChar` changes only the named field of the characters with the
      id. */
  lemma UpdateCharEffect(chars: seq<Actor>, id: string, f: Field)
    ensures var r := UpdateWhere(chars, ActorId, id, WithField(f));
            forall i :: 0 <= i < |chars| ==>
              r[i].id == chars[i].id && r[i].name == chars[i].name && r[i].outfits == chars[i].outfits
              && (chars[i].id != id ==> r[i] == chars[i])
              && (chars[i].id == id ==>
                   (f.Tag? ==> r[i] == chars[i].(tag := f.s)) && (f.Desc? ==> r[i] == chars[i].(desc := f.s))
                   && (f.OpenFlag? ==> r[i] == chars[i].(open := f.b))
                   && (f.ActiveOutfit? ==> r[i] == chars[i].(activeOutfit := f.i)))
  {
  }

  /** Selecting an outfit inside the wardrobe, or editing any other field,
      keeps every wardrobe valid. */
  lemma UpdateCharKeepsWardrobes(chars: seq<Actor>, id: string, f: Field)
    requires AllWardrobesOk(chars)
    requires f.ActiveOutfit? ==> forall i :: 0 <= i < |chars| && chars[i].id == id ==> 0 <= f.i < |chars[i].outfits|
    ensures AllWardrobesOk(UpdateWhere(chars, ActorId, id, WithField(f)))
  {
    var r := UpdateWhere(chars, ActorId, id, WithField(f));
    forall i | 0 <= i < |chars| ensures WardrobeOk(r[i]) {
      assert WardrobeOk(chars[i]);
    }
  }

  /** `updateOutfitDesc` replaces the description of the active outfit of the
      characters with the id; their other outfits, the outfit names and the
      other characters are unchanged. */
  lemma UpdateOutfitDescEffect(chars: seq<Actor>, id: string, desc: string)
    requires forall i :: 0 <= i < |chars| && chars[i].id == id ==> 0 <= chars[i].activeOutfit < |chars[i].outfits|
    ensures var r := UpdateWhere(chars, ActorId, id, WithOutfitDesc(desc));
            forall i :: 0 <= i < |chars| ==>
              (chars[i].id != id ==> r[i] == chars[i])
              && (chars[i].id == id ==>
                    var a := chars[i].activeOutfit;
                    r[i].(outfits := chars[i].outfits) == chars[i]
                    && |r[i].outfits| == |chars[i].outfits|
                    && r[i].outfits[a] == Outfit(chars[i].outfits[a].name, desc)
                    && forall k :: 0 <= k < |chars[i].outfits| && k != a ==> r[i].outfits[k] == chars[i].outfits[k])
  {
  }

  /** `addOutfit` appends the named outfit and makes it the active one, so
      the wardrobe stays valid. */
  lemma AddOutfitEffect(a: Actor, name: string)
    ensures var b := WithNewOutfit(name)(a);
            |b.outfits| == |a.outfits| + 1 && b.outfits[|a.outfits|] == Outfit(name, "")
            && b.activeOutfit == |a.outfits| && b.outfits[..|a.outfits|] == a.outfits
            && WardrobeOk(b)
  {
  }

  /** `deleteOutfit` on a wardrobe of two or more removes exactly the active
      outfit and makes the first one active, so the wardrobe stays valid. */
  lemma DeleteOutfitEffect(a: Actor)
    requires WardrobeOk(a) && |a.outfits| > 1
    ensures var b := WithoutActiveOutfit(a); var k := a.activeOutfit;
            |b.outfits| == |a.outfits| - 1 && b.activeOutfit == 0 && WardrobeOk(b)
            && (forall j :: 0 <= j < k ==> b.outfits[j] == a.outfits[j])
            && (forall j :: k <= j < |b.outfits| ==> b.outfits[j] == a.outfits[j + 1])
  {
  }

  /** With distinct ids the guard's character is the only one changed, so
      `deleteOutfit` keeps every wardrobe valid. */
  lemma DeleteOutfitKeepsWardrobes(chars: seq<Actor>, id: string)
    requires AllWardrobesOk(chars) && IdsDistinct(chars) && CanDeleteOutfit(chars, id)
    ensures AllWardrobesOk(UpdateWhere(chars, ActorId, id, WithoutActiveOutfit))
  {
    var found := FindActor(chars, id).value;
    var r := UpdateWhere(chars, ActorId, id, WithoutActiveOutfit);
    forall i | 0 <= i < |chars| ensures WardrobeOk(r[i]) {
      if chars[i].id == id {
        var j :| 0 <= j < |chars| && chars[j] == found;
        assert i == j;
        DeleteOutfitEffect(chars[i]);
      }
    }
  }

  /** The guard reads only the first character with the id: a second
      character with the same id and a single outfit is left with none. */
  lemma DeleteOutfitDuplicateId()
    ensures var two := Actor("x", "A", "@a", "", [Outfit("1", ""), Outfit("2", "")], 0, true);
            var one := Actor("x", "B", "@b", "", [Outfit("1", "")], 0, true);
            CanDeleteOutfit([two, one], "x")
            && UpdateWhere([two, one], ActorId, "x", WithoutActiveOutfit)[1].outfits == []
  {
    var two := Actor("x", "A", "@a", "", [Outfit("1", ""), Outfit("2", "")], 0, true);
    var one := Actor("x", "B", "@b", "", [Outfit("1", "")], 0, true);
    assert FindActor([two, one], "x") == Some(two);
    assert UpdateWhere([two, one], ActorId, "x", WithoutActiveOutfit)[1] == WithoutActiveOutfit(one);
    assert RemoveIndex(one.outfits, 0) == [];
  }

  /** Tag insertion replaces exactly the selection by the tag and a space:
      the text before and after the selection is kept. */
  lemma SplicedShape(s: string, start: nat, end: nat, tag: string)
    requires start <= end <= |s|
    ensures var r := Spliced(s, start, end, tag);
            |r| == |s| + |tag| + 1 - (end - start)
            && (forall i :: 0 <= i < start ==> r[i] == s[i])
            && (forall i :: 0 <= i < |tag| ==> r[start + i] == tag[i])
            && r[start + |tag|] == ' '
            && (forall i :: end <= i < |s| ==> r[i + |tag| + 1 + start - end] == s[i])
  {
  }

  /** At a caret (empty selection), removing the inserted tag and space gives
      the text back. */
  lemma SplicedAtCaret(s: string, at: nat, tag: string)
    requires at <= |s|
    ensures var r := Spliced(s, at, at, tag);
            r[..at] + r[at + |tag| + 1..] == s
  {
    var r := Spliced(s, at, at, tag);
    assert r[..at] == s[..at];
    assert r[at + |tag| + 1..] == s[at..];
    assert s[..at] + s[at..] == s;
  }

  /** Every character contributes one block to the actors text, in list
      order; the last block ends it. */
  lemma ActorsTextShape(chars: seq<Actor>)
    ensures chars == [] ==> ActorsText(chars) == ""
    ensures chars != [] ==>
              var t := ActorsText(chars); var last := ActorText(chars[|chars| - 1]);
              |last| <= |t| && t[|t| - |last|..] == last
  {
    if chars != [] {
      JoinEndsWithLast(Map(ActorText, chars), "\n\n");
    }
  }
}
