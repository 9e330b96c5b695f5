/** The builder's entities and their default values
    (src/constants/pawsvilleDefaults.js). */
module PawsvilleDefaults {

  const STORAGE_KEY_V5: string := "pawsville_v5"
  const STORAGE_KEY_V4: string := "pawsville_v4"

  /** A character card of the builder. */
  datatype Character = Character(id: string, name: string, text: string, active: bool, isOpen: bool)

  /** One section of the prompt structure: `global`, `chars` or `scene`,
      with its display name. */
  datatype OrderEntry = OrderEntry(id: string, name: string)

  /** The global settings object; a key that is absent is `undefined`. */
  type Globals = map<string, string>

  datatype State = State(globals: Globals, characters: seq<Character>, promptOrder: seq<OrderEntry>)

  /** The display name `normalizeOrder` gives each section id. */
  function CanonicalName(id: string): string
  {
    if id == "global" then "Global Settings"
    else if id == "chars" then "Characters"
    else "Scene Description"
  }

  function DefaultChars(): seq<Character>
  {
    [ Character("c1", "Orange Tabby", "", true, false),
      Character("c2", "Baby Dragon", "", true, false),
      Character("c3", "Duckling", "", false, false),
      Character("c4", "Queen", "", false, false),
      Character("c5", "Bully", "", false, false) ]
  }

  function DefaultOrder(): seq<OrderEntry>
  {
    [ OrderEntry("global", "Global Settings"),
      OrderEntry("chars", "Characters"),
      OrderEntry("scene", "Scene Description") ]
  }

  /** The default globals: four empty fields and no `texture` key. */
  function DefaultGlobals(): Globals
  {
    map["style" := "", "camera" := "", "light" := "", "rules" := ""]
  }

  /** `getDefaultState()`. Values are immutable here, so every call yields an
      equal, independent copy, as the source's deep clone does. */
  function DefaultState(): State
  {
    State(DefaultGlobals(), DefaultChars(), DefaultOrder())
  }

  /** What the default data promises: distinct storage keys, the three
      sections once each under their canonical names, four empty globals and
      no texture, five characters c1..c5 with empty text of which only the
      first two are active. */
  lemma DefaultsFacts()
    ensures STORAGE_KEY_V5 != STORAGE_KEY_V4
    ensures |DefaultOrder()| == 3
    ensures DefaultOrder()[0].id == "global" && DefaultOrder()[1].id == "chars" && DefaultOrder()[2].id == "scene"
    ensures forall i :: 0 <= i < 3 ==> DefaultOrder()[i].name == CanonicalName(DefaultOrder()[i].id)
    ensures DefaultGlobals().Keys == {"style", "camera", "light", "rules"}
    ensures "texture" !in DefaultState().globals
    ensures forall k :: k in DefaultGlobals() ==> DefaultGlobals()[k] == ""
    ensures |DefaultChars()| == 5
    ensures forall i, j :: 0 <= i < j < 5 ==> DefaultChars()[i].id != DefaultChars()[j].id
    ensures forall i :: 0 <= i < 5 ==> DefaultChars()[i].text == "" && (DefaultChars()[i].active <==> i < 2)
  {
  }
}
