/** The Refinery and Frankensteiner entities and their default data
    (src/constants/defaults.js). */
module AppDefaults {
  import opened JsStrings
  import PawsvilleDefaults
  import PromptHistory

  /** A named outfit of a Refinery character. */
  datatype Outfit = Outfit(name: string, desc: string)

  /** A Refinery character: a trigger tag, a description and a wardrobe with
      one active outfit. */
  datatype Actor = Actor(id: string, name: string, tag: string, desc: string,
                         outfits: seq<Outfit>, activeOutfit: int, open: bool)

  /** A Frankensteiner character block. */
  datatype Block = Block(id: string, name: string, text: string, active: bool)

  /** The AI provider settings. */
  datatype ApiConfig = ApiConfig(provider: string, key: string)

  const REFINERY_STORAGE_KEY: string := "pawsville_refinery_v12"

  /** The separator of every "Copy All" button. */
  const COPY_ALL_SEP: string := "\n\n---\n\n"

  /** The wardrobe invariant: at least one outfit, and the active one is one
      of them. */
  predicate WardrobeOk(a: Actor)
  {
    |a.outfits| > 0 && 0 <= a.activeOutfit < |a.outfits|
  }

  function RefineryDefaults(): seq<Actor>
  {
    [Actor("rc1", "Tabby", "@cat", "orange tabby cat, anthropomorphic", [Outfit("Hoodie", "blue hoodie")], 0, true)]
  }

  function FrankensteinerDefaults(): seq<Block>
  {
    [Block("fc1", "Skater Cat", "Orange tabby cat on a skateboard", true)]
  }

  function DefaultApiConfig(): ApiConfig
  {
    ApiConfig("gemini", "")
  }

  /** What a "Copy All" text holds for the given texts: nothing for none,
      the text itself for one; otherwise it starts with the first text and
      ends with the last. */
  predicate CopiedEnds(texts: seq<string>, r: string)
  {
    (texts == [] ==> r == "")
    && (|texts| == 1 ==> r == texts[0])
    && (|texts| > 0 ==>
          |texts[0]| <= |r| && r[..|texts[0]|] == texts[0]
          && |texts[|texts| - 1]| <= |r| && r[|r| - |texts[|texts| - 1]|..] == texts[|texts| - 1])
  }

  /** The text a "Copy All" button puts on the clipboard: the texts in order,
      joined by the separator. */
  function CopyAllText(texts: seq<string>): (r: string)
    ensures CopiedEnds(texts, r)
  {
    if |texts| > 0 then
      JoinStartsWithFirst(texts, COPY_ALL_SEP);
      JoinEndsWithLast(texts, COPY_ALL_SEP);
      Join(texts, COPY_ALL_SEP)
    else Join(texts, COPY_ALL_SEP)
  }

  /** What the default data promises: the Refinery default satisfies the
      wardrobe invariant, the Frankensteiner default is one active block with
      text, the API key starts empty, and the Refinery storage key differs
      from the builder's and the history's. */
  lemma AppDefaultsFacts()
    ensures |RefineryDefaults()| == 1 && WardrobeOk(RefineryDefaults()[0]) && RefineryDefaults()[0].activeOutfit == 0
    ensures |FrankensteinerDefaults()| == 1 && FrankensteinerDefaults()[0].active
    ensures NonBlank(FrankensteinerDefaults()[0].text)
    ensures DefaultApiConfig().provider == "gemini" && DefaultApiConfig().key == ""
    ensures REFINERY_STORAGE_KEY != PawsvilleDefaults.STORAGE_KEY_V5
    ensures REFINERY_STORAGE_KEY != PawsvilleDefaults.STORAGE_KEY_V4
    ensures REFINERY_STORAGE_KEY != PromptHistory.HISTORY_KEY
  {
    assert !IsSpace(FrankensteinerDefaults()[0].text[0]);
    assert REFINERY_STORAGE_KEY[10] != PawsvilleDefaults.STORAGE_KEY_V5[10];
    assert REFINERY_STORAGE_KEY[10] != PawsvilleDefaults.STORAGE_KEY_V4[10];
    assert REFINERY_STORAGE_KEY[10] != PromptHistory.HISTORY_KEY[10];
  }

  /** "Copy All" of two non-empty lists is the two joined by one
      separator. */
  lemma CopyAllShape(a: seq<string>, b: seq<string>)
    ensures |a| > 0 && |b| > 0 ==> CopyAllText(a + b) == CopyAllText(a) + COPY_ALL_SEP + CopyAllText(b)
  {
    if |a| > 0 && |b| > 0 {
      JoinAppend(a, b, COPY_ALL_SEP);
    }
  }
}
