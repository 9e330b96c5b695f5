# Pawsville prompt tools, modelled in Dafny

Pawsville is a browser tool that assembles text prompts for image
generators. This project models its logic, leaving out the rendering:

- **Prompt builder.** `buildPrompt` turns a scene, four global settings, a
  character list and a section order into labelled blocks. Each global
  becomes a line: `STYLE:`, `CAMERA:`, `LIGHTING:` or `NEGATIVE:`. Each
  character becomes `CHARACTER (NAME):`, and the scene becomes `SCENE:`.
  The blocks are joined by a blank line.
- **Builder panel.** It drives `buildPrompt` over a batch of scene lines,
  or over a single scene.
- **Builder state.** This is a reducer over globals, characters and section
  order. It comes with:
  - normalisers that coerce parsed JSON (integers, strings, booleans, null,
    arrays and objects) into a state;
  - a serialiser;
  - a two-key versioned loader (v5, then legacy v4).
- **Prompt history.** A newest-first list capped at 200 entries.
- **Refinery.** A wardrobe editor: actors, each with outfits and an active
  outfit. It builds a system prompt and sends scene lines to an AI service
  one after the other.
- **Frankensteiner.** A simpler composer that stacks style, camera,
  character blocks and scene.
- **Dashboard.** Statistics and the set of expanded history rows.

Modules, one per file:

| file | module | what it holds |
|---|---|---|
| lists.dfy | `Lists` | `Option`, and the array methods the tool uses (filter, map, slice, Set delete) |
| strings.dfy | `JsStrings` | `trim`, `split`, `join` and ASCII `toUpperCase`, with JavaScript's semantics |
| json.dfy | `JsValues` | parsed JSON values, the coercions `String(x ?? d)`, `Boolean(x)` and `??`, and the key/value store |
| pawsville_defaults.dfy | `PawsvilleDefaults` | the builder's entities and default state |
| prompt_builder.dfy | `PromptBuilder` | `buildPrompt` |
| pawsville_state.dfy | `PawsvilleState` | normalisers, (de)serialisation, loading, the reducer, and the store class |
| prompt_history.dfy | `PromptHistory` | `normalizeHistory` and the history class |
| defaults.dfy | `AppDefaults` | the Refinery and Frankensteiner defaults and the API default |
| refinery.dfy | `Refinery` | the Refinery editor class |
| frankensteiner.dfy | `Frankensteiner` | the Frankensteiner composer class |
| builder_panel.dfy | `BuilderPanel` | the batch and single prompt panel |
| dashboard_panel.dfy | `DashboardPanel` | dashboard statistics, open-row set, and the Export and Clear guards |

**Modelling conventions**

- Code that builds results by pushing inside loops is written as methods
  with loops. These are `buildPrompt`'s helpers, the missing-entry loop of
  `normalizeOrder`, the in-place swap, and the enhance loop. Each method is
  proved equal to a specification function, and the properties are proved
  about that function.
- Components whose state the handlers replace are classes with those
  fields. Their methods state the whole new state.
- `Date.now`, `Math.random`, `confirm`, `prompt`, the AI call and the
  storage are parameters:
  - fresh ids and clock readings are functions of the position
    (`ids: nat -> string`, `clock: nat -> int`) or a number `now`;
  - dialog answers are booleans or optional strings;
  - the AI call is a function that returns text or an error message;
  - storage is a map from key to `EmptyText`, `Corrupt` (text that does not
    parse) or `Parsed(value)`.

Two behaviours of the code are worth stating plainly:

- `buildPrompt` renders no texture line, even though the builder state keeps a
  `texture` global.
- `removeEntry` removes every history entry with the id, not just the first.

## Model

| member | source | states |
|---|---|---|
| PromptBuilder.Add | src/utils/promptBuilder.js:6-9 | pushes `LABEL: t` for the trimmed value, and nothing for a blank or absent value |
| PromptBuilder.GetGlobalText | src/utils/promptBuilder.js:4-15 | the loop result equals the specification `GlobalText`: STYLE, CAMERA, LIGHTING, NEGATIVE in that order |
| PromptBuilder.GetCharsText | src/utils/promptBuilder.js:17-27 | the loop over characters equals `CharsText` |
| PromptBuilder.GetSceneText | src/utils/promptBuilder.js:29-32 | `SCENE: ` plus the trimmed scene, or "" for a blank or absent scene |
| PromptBuilder.RenderEntry | src/utils/promptBuilder.js:35-38 | an entry renders its section's text; an unknown id renders "" |
| PromptBuilder.CollectParts | src/utils/promptBuilder.js:34-40 | the parts loop keeps the non-empty section texts in the caller's order |
| PromptBuilder.BuildPrompt | src/utils/promptBuilder.js:1-43 | the method computes exactly `Assemble`, the prompt whose contract and the lemmas below describe |
| PromptBuilder.GlobalLinesShape | src/utils/promptBuilder.js:10-14 | every global line is solid; there is none iff all four fields are blank or absent |
| PromptBuilder.GlobalTextShape | src/utils/promptBuilder.js:4-15 | the global block is "" iff all four fields are blank; otherwise it has no white space at either end |
| PromptBuilder.LabelLineShape | src/utils/promptBuilder.js:6-9 | a label line is emitted iff the value is not blank, and it is solid |
| PromptBuilder.CharLinesEmpty | src/utils/promptBuilder.js:19-26 | no character line iff no character is both active and has non-blank text |
| PromptBuilder.CharLinesAreRenderedCharacters | src/utils/promptBuilder.js:19-26 | the character lines are `CHARACTER (UPPER(name)): trimmedText` for exactly the active characters with text, in list order |
| PromptBuilder.CharLinesSolid | src/utils/promptBuilder.js:19-26 | every character line has no white space at either end |
| PromptBuilder.CharacterLineSolid | src/utils/promptBuilder.js:22-23 | one rendered character's line starts with its label and ends with its trimmed text |
| PromptBuilder.CharsTextShape | src/utils/promptBuilder.js:17-27 | the character block is "" iff no character renders; a missing list counts as empty |
| PromptBuilder.SceneTextShape | src/utils/promptBuilder.js:29-32 | the scene block is "" iff the scene is blank or absent |
| PromptBuilder.SectionsSnoc | src/utils/promptBuilder.js:34-40 | one more order entry appends its non-empty section text |
| PromptBuilder.SectionsAppend | src/utils/promptBuilder.js:34-40 | the sections of a concatenated order are the concatenated sections |
| PromptBuilder.UnknownEntryIgnored | src/utils/promptBuilder.js:35-39 | an entry whose id is not global, chars or scene contributes nothing |
| PromptBuilder.RepeatedEntryRenderedTwice | src/utils/promptBuilder.js:34-40 | a repeated id renders its section again |
| PromptBuilder.SectionsSolid | src/utils/promptBuilder.js:39 | no pushed part is empty or starts or ends with white space |
| PromptBuilder.SectionsEmpty | src/utils/promptBuilder.js:39 | no part is pushed iff every entry's section text is "" |
| PromptBuilder.TextsShaped | src/utils/promptBuilder.js:4-32 | the three section texts are each "" or solid |
| PromptBuilder.ComposeShape | src/utils/promptBuilder.js:39-42 | the joined prompt never starts or ends with a separator; it is "" iff every section is empty |
| PromptBuilder.Assemble | src/utils/promptBuilder.js:34-42 | the prompt is "" or solid, and "" iff every entry of the order (absent order = empty) renders nothing |
| PromptBuilder.AllBlankIsEmpty | src/utils/promptBuilder.js:6-9 | blank globals, no rendered character and a blank scene give "" |
| PromptBuilder.OtherGlobalsIgnored | src/utils/promptBuilder.js:4-15 | setting texture or any other key besides the four leaves the prompt unchanged |
| PromptBuilder.SceneTrimIrrelevant | src/utils/promptBuilder.js:30 | trimming the scene beforehand does not change the prompt |
| PromptBuilder.DefaultOrderSections | src/constants/pawsvilleDefaults.js:12-16 | under the default order the sections are global, chars, scene, empty ones skipped |
| PromptBuilder.ComposeDefaultOrder | src/utils/promptBuilder.js:34-42 | with the default order and three non-empty blocks the prompt is global, blank line, characters, blank line, scene |
| PromptBuilder.DefaultOrderPrompt | src/utils/promptBuilder.js:1-43 | the same statement, for the prompt of a scene and a context |
| PawsvilleDefaults.DefaultsFacts | src/constants/pawsvilleDefaults.js:1-34 | the storage keys differ; the default order is global, chars, scene with canonical names; the globals are four empty fields with no texture; there are five distinct characters with empty text, and only c1 and c2 are active |
| PawsvilleState.NormalizeOrder | src/hooks/usePawsvilleState.js:22-35 | the push loop computes `NormalizedOrder`: kept allowed entries renamed, then the missing defaults in default order |
| PawsvilleState.NormalizedOrder | src/hooks/usePawsvilleState.js:22-35 | any input gives only global/chars/scene entries under canonical names, each id at least once; a non-array or empty array gives the default order |
| PawsvilleState.KeptEntriesShape | src/hooks/usePawsvilleState.js:25-30 | the kept entries are allowed ids with canonical names |
| PawsvilleState.AddedDefaultsShape | src/hooks/usePawsvilleState.js:33 | the appended defaults carry canonical names and allowed ids |
| PawsvilleState.AddedDefaultsCover | src/hooks/usePawsvilleState.js:32-33 | every allowed id that was absent is appended |
| PawsvilleState.OnlyGlobalEntries | src/hooks/usePawsvilleState.js:22-35 | an order of only `global` entries keeps all of them and appends chars and scene |
| PawsvilleState.DuplicateEntriesKept | src/hooks/usePawsvilleState.js:31-33 | `[global, global]` normalises to four entries: the duplicate survives |
| PawsvilleState.MissingAfterGlobal | src/hooks/usePawsvilleState.js:33 | with only global present, chars and scene are appended in default order |
| PawsvilleState.OrderRoundTrip | src/hooks/usePawsvilleState.js:22-35 | a well-formed order survives encoding and normalising unchanged |
| PawsvilleState.NoDefaultMissing | src/hooks/usePawsvilleState.js:33 | when all three ids are present nothing is appended |
| PawsvilleState.EncodedEntriesKept | src/hooks/usePawsvilleState.js:25-30 | every encoded well-formed entry passes the filter and maps back to itself |
| PawsvilleState.CharacterRoundTrip | src/hooks/usePawsvilleState.js:13-19 | an encoded character coerces back to itself |
| PawsvilleState.CharsRoundTrip | src/hooks/usePawsvilleState.js:9-20 | an encoded character list normalises back to itself |
| PawsvilleState.NormalizeCharacters | src/hooks/usePawsvilleState.js:9-20 | a non-array gives the default characters; an array gives one character per truthy item, so never more than it holds |
| PawsvilleState.FalsyCharactersDropped | src/hooks/usePawsvilleState.js:12 | normalising drops falsy entries first, keeping the order |
| PawsvilleState.NormalizedCharacterFields | src/hooks/usePawsvilleState.js:13-19 | each kept entry's id, name and text are `String(field)` when the field is present and not null, else the fresh id, 'Unnamed' and ''; the flags are `Boolean(field)` |
| PawsvilleState.Deserialize | src/hooks/usePawsvilleState.js:37-52 | every deserialised state has exactly the five global keys (texture included) and a well-formed order; a non-object gives the default characters and order |
| PawsvilleState.NonObjectGivesBase | src/hooks/usePawsvilleState.js:38-39 | a non-object input gives the default lists, empty fields, and a texture equal to the string "undefined" |
| PawsvilleState.GlobalPrecedence | src/hooks/usePawsvilleState.js:43-47 | each global is `String` of the flat key when that is present and not null, else `String` of the nested `globals` key when that is, else the default |
| PawsvilleState.Serialize | src/hooks/usePawsvilleState.js:68-78 | the serialised object holds each present global flat as a string (an absent one is absent), `chars` and `order` encoded, and no `globals` key |
| PawsvilleState.SerializedGlobals | src/hooks/usePawsvilleState.js:42-48 | reading the globals back from a serialised state gives them completed to five keys |
| PawsvilleState.SerializeRoundTrip | src/hooks/usePawsvilleState.js:68-78 | deserialising a serialised state restores the characters and order, and the globals completed to five keys |
| PawsvilleState.CompleteStateRoundTrip | src/hooks/usePawsvilleState.js:37-78 | a state with exactly the five globals survives serialise then deserialise unchanged |
| PawsvilleState.DeserializeStable | src/hooks/usePawsvilleState.js:37-78 | for any deserialised state, serialising and deserialising again gives it back |
| PawsvilleState.BaseListsNormal | src/constants/pawsvilleDefaults.js:4-16 | the default characters and order are fixed points of the normalisers |
| PawsvilleState.LoadFromStorage | src/hooks/usePawsvilleState.js:54-66 | whatever storage holds, the loaded order is well formed; no storage gives the default state; parsed v5 data is deserialised, unflagged; corrupt v5 text gives the default state without reading v4; with v5 empty or absent, parsed v4 data is deserialised and flagged as migrated, and anything else gives the default state; the flag is set only in that v4 case |
| PawsvilleState.SaveThenReload | src/hooks/usePawsvilleState.js:148-155 | after a successful save, loading returns the saved state (globals completed to five keys), unflagged |
| PawsvilleState.SwapInArray | src/hooks/usePawsvilleState.js:80-86 | swapping in a copied array exchanges the two positions and keeps the same multiset |
| PawsvilleState.SwappedWellFormed | src/hooks/usePawsvilleState.js:127-132 | a swap keeps an order well formed |
| PawsvilleState.Reduce | src/hooks/usePawsvilleState.js:88-140 | each action changes only its part of the state: setGlobal sets one key and keeps every other global's value, a move keeps the order's multiset and the characters, character actions keep globals and order, replace gives a well-formed order, reset gives the default state, an unknown action changes nothing |
| PawsvilleState.ReducePreservesOrder | src/hooks/usePawsvilleState.js:88-140 | every action keeps the order well formed (the move case under the corrected guard) |
| PawsvilleState.MoveOrderEffect | src/hooks/usePawsvilleState.js:127-132 | an out-of-range move changes nothing; otherwise exactly the two positions are swapped |
| PawsvilleState.MoveOrderUndo | src/hooks/usePawsvilleState.js:127-132 | moving back in the other direction undoes a move |
| PawsvilleState.SwappedBack | src/hooks/usePawsvilleState.js:80-86 | swapping the same two positions twice restores the list |
| PawsvilleState.MoveGuardsAgree | src/hooks/usePawsvilleState.js:129-130 | for an index inside the list the written guard and the corrected guard agree |
| PawsvilleState.MoveGuardAdmitsBadIndex | src/hooks/usePawsvilleState.js:129-131 | the written guard lets index -1 (direction 1) and index 3 (direction -1) through on three entries |
| PawsvilleState.AddCharacterEffect | src/hooks/usePawsvilleState.js:95-104 | add closes every card and appends one active, open, empty "New Character" |
| PawsvilleState.DeleteCharacterEffect | src/hooks/usePawsvilleState.js:105-106 | delete keeps exactly the characters with another id, each at its original position's order (an increasing index map), and changes nothing else |
| PawsvilleState.ToggleActiveEffect | src/hooks/usePawsvilleState.js:107-111 | only the active flag of matching characters flips |
| PawsvilleState.ToggleActiveTwice | src/hooks/usePawsvilleState.js:107-111 | toggling active twice restores the state |
| PawsvilleState.ToggleOpenEffect | src/hooks/usePawsvilleState.js:122-126 | only the open flag of matching characters flips |
| PawsvilleState.ToggleOpenTwice | src/hooks/usePawsvilleState.js:122-126 | toggling open twice restores the state |
| PawsvilleState.SetFieldEffect | src/hooks/usePawsvilleState.js:112-121 | setName and setText change only that field of matching characters |
| PawsvilleState.SetGlobalPersists | src/hooks/usePawsvilleState.js:90-94 | a global set on one of the five keys survives a save and reload |
| PawsvilleState.UnknownActionIgnored | src/hooks/usePawsvilleState.js:137-138 | an unknown action returns the state unchanged |
| PawsvilleState.PawsvilleStore.constructor | src/hooks/usePawsvilleState.js:143-144 | the store boots from storage as the loader says |
| PawsvilleState.PawsvilleStore.Dispatch | src/hooks/usePawsvilleState.js:144 | the state becomes the reducer's result and stays well formed |
| PawsvilleState.PawsvilleStore.Save | src/hooks/usePawsvilleState.js:148-155 | returns whether the write succeeded; a failed write leaves storage unchanged |
| PawsvilleState.PawsvilleStore.Load | src/hooks/usePawsvilleState.js:183-192 | nothing saved and a parse error leave the state alone; parsed data replaces it |
| PawsvilleState.PawsvilleStore.Reset | src/hooks/usePawsvilleState.js:193-200 | removes the v5 key when possible and resets to the default state |
| PromptHistory.Normalize | src/hooks/usePromptHistory.js:14-27 | normalised history has at most 200 entries, each with a non-empty scene or prompt; a non-array gives the empty history |
| PromptHistory.EntryRoundTrip | src/hooks/usePromptHistory.js:18-24 | an encoded entry coerces back to itself |
| PromptHistory.ListRoundTrip | src/hooks/usePromptHistory.js:14-27 | entries with text survive encoding and normalising, cut to the first 200 |
| PromptHistory.NormalizeIdempotent | src/hooks/usePromptHistory.js:14-27 | normalising a normalised history again changes nothing |
| PromptHistory.WhiteSpaceTextKept | src/hooks/usePromptHistory.js:25 | an entry whose only text is one space is kept |
| PromptHistory.AddedRoundTrip | src/hooks/usePromptHistory.js:48 | re-normalising the new batch followed by the old history is the plain concatenation, cut to 200 |
| PromptHistory.AddedOrder | src/hooks/usePromptHistory.js:48 | the new batch comes first in its own order, then the old entries, within the 200 bound |
| PromptHistory.RemoveEntryEffect | src/hooks/usePromptHistory.js:51-53 | remove keeps exactly the entries with another id, in their original order (an increasing index map), and is a no-op for an absent id |
| PromptHistory.ExportRoundTrip | src/hooks/usePromptHistory.js:65-67 | the exported items normalise back to the history itself |
| PromptHistory.HistoryStore.constructor | src/hooks/usePromptHistory.js:30-34 | starts from the normalised stored list; unparsable text counts as null |
| PromptHistory.HistoryStore.AddEntries | src/hooks/usePromptHistory.js:45-49 | an empty batch changes nothing; otherwise the batch goes first, then the old entries, cut to 200 |
| PromptHistory.HistoryStore.RemoveEntry | src/hooks/usePromptHistory.js:51-53 | the history becomes its entries with another id, and stays well formed |
| PromptHistory.HistoryStore.Clear | src/hooks/usePromptHistory.js:55-63 | the history becomes empty |
| PromptHistory.HistoryStore.Export | src/hooks/usePromptHistory.js:65-67 | the export carries the clock reading and the entries verbatim |
| PromptHistory.HistoryStore.CurrentStats | src/hooks/usePromptHistory.js:69-73 | total is the length; the last timestamp is that of the first entry, or none |
| AppDefaults.AppDefaultsFacts | src/constants/defaults.js:1-31 | the Refinery default satisfies the wardrobe invariant; the Frankensteiner default is one active block with non-blank text; the API default is gemini with an empty key; the Refinery storage key differs from the v4 and v5 keys |
| AppDefaults.CopyAllText | src/components/Frankensteiner.jsx:50-53 | Copy All of no text is "", of one text is that text, and otherwise starts with the first text and ends with the last |
| AppDefaults.CopyAllShape | src/components/Frankensteiner.jsx:50-53 | Copy All of two non-empty runs is the two joined by one separator |
| Refinery.LoadInitialState | src/components/Refinery.jsx:8-29 | nothing stored or unparsable gives all defaults; each missing or empty field falls back on its own; the loaded actors keep the wardrobe invariant iff the stored ones do |
| Refinery.NewActorShape | src/components/Refinery.jsx:81-91 | the new actor has the id `rc` plus the clock, the single outfit Default, activeOutfit 0, and is open |
| Refinery.UpdateCharEffect | src/components/Refinery.jsx:99-101 | only the named field of matching actors changes |
| Refinery.UpdateCharKeepsWardrobes | src/components/Refinery.jsx:99-101 | editing a field keeps every wardrobe valid when a new activeOutfit is in range |
| Refinery.UpdateOutfitDescEffect | src/components/Refinery.jsx:103-112 | only the description of the active outfit of matching actors changes |
| Refinery.AddOutfitEffect | src/components/Refinery.jsx:114-128 | appends the named outfit with an empty description and makes it active |
| Refinery.DeleteOutfitEffect | src/components/Refinery.jsx:130-141 | removes exactly the active outfit, shortens the list by one, and makes outfit 0 active |
| Refinery.DeleteOutfitKeepsWardrobes | src/components/Refinery.jsx:130-141 | with distinct ids, a permitted delete keeps every wardrobe valid |
| Refinery.DeleteOutfitDuplicateId | src/components/Refinery.jsx:131-136 | with two actors sharing an id, the guard checks only the first, and the second can lose its only outfit |
| Refinery.SplicedShape | src/components/Refinery.jsx:143-151 | the splice keeps the text before the selection, inserts the tag and a space, and keeps the text after it; the length changes by `|tag| + 1 - (end - start)` |
| Refinery.SplicedAtCaret | src/components/Refinery.jsx:147 | with no selection, the splice is an insertion |
| Refinery.SendAll | src/components/Refinery.jsx:185-193 | the loop records one text per input, in order |
| Refinery.Enhanced | src/components/Refinery.jsx:185-193 | one result per line, in order: the reply text, or `Error: ` plus the message for a failure, instead of stopping |
| Refinery.SystemPrompt | src/components/Refinery.jsx:170-183 | the system prompt starts with the role line, style, negative, actors block and `1.` instruction, and the texture instruction follows right after them |
| Refinery.ActorsTextShape | src/components/Refinery.jsx:166-168 | the actors block is empty for no actors, and otherwise ends with the last actor's block |
| Refinery.RefineryEditor.constructor | src/components/Refinery.jsx:32-38 | starts from the loaded state, with no scene text and no results |
| Refinery.RefineryEditor.AddChar | src/components/Refinery.jsx:81-91 | appends the new actor and keeps the invariant |
| Refinery.RefineryEditor.DeleteChar | src/components/Refinery.jsx:93-97 | removes the actors with the id only when confirmed |
| Refinery.RefineryEditor.UpdateChar | src/components/Refinery.jsx:99-101 | the actors become the field update of the matching ones |
| Refinery.RefineryEditor.UpdateOutfitDesc | src/components/Refinery.jsx:103-112 | rewrites the active outfit's description and keeps the invariant |
| Refinery.RefineryEditor.AddOutfit | src/components/Refinery.jsx:114-128 | an empty or cancelled name changes nothing; otherwise the outfit is added |
| Refinery.RefineryEditor.DeleteOutfit | src/components/Refinery.jsx:130-141 | acts only when the first actor with the id has two or more outfits and the user confirms |
| Refinery.RefineryEditor.InsertTag | src/components/Refinery.jsx:143-151 | splices the tag into the scene text when the input exists |
| Refinery.RefineryEditor.RunEnhance | src/components/Refinery.jsx:154-197 | with no key it only asks for one; with no line it does nothing; otherwise results are the per-line replies |
| Refinery.RefineryEditor.CopyAll | src/components/Refinery.jsx:239-241 | the copied text holds the results: "" for none, the one result, or starting with the first and ending with the last |
| Frankensteiner.Prompts | src/components/Frankensteiner.jsx:39-47 | one prompt per non-blank scene line |
| Frankensteiner.CharsBlockShape | src/components/Frankensteiner.jsx:36-38 | the character block is "" iff no block is active with text, and otherwise is solid |
| Frankensteiner.ScenePartKept | src/components/Frankensteiner.jsx:42-43 | the scene part is never dropped |
| Frankensteiner.ScenePrompt | src/components/Frankensteiner.jsx:42-44 | every prompt ends with `SCENE: ` and the untrimmed scene line, and a non-blank style starts it, untrimmed |
| Frankensteiner.ScenePromptSceneOnly | src/components/Frankensteiner.jsx:42-44 | with blank style and camera and no block, the prompt is the scene part alone |
| Frankensteiner.PromptsPerLine | src/components/Frankensteiner.jsx:39-47 | prompt i is built from the i-th non-blank line and ends with it |
| Frankensteiner.ToggleCharActiveEffect | src/components/Frankensteiner.jsx:31-33 | only the active flag of matching blocks flips, and twice restores the list |
| Frankensteiner.UpdateCharEffect | src/components/Frankensteiner.jsx:27-29 | only the given field of matching blocks changes |
| Frankensteiner.AddCharEffect | src/components/Frankensteiner.jsx:12-19 | the new block is active with empty text and leaves the character block unchanged |
| Frankensteiner.DeleteCharEffect | src/components/Frankensteiner.jsx:21-25 | delete keeps exactly the blocks with another id, in their original order (an increasing index map) |
| Frankensteiner.Composer.constructor | src/components/Frankensteiner.jsx:6-10 | empty style, camera and scene; default blocks; no results |
| Frankensteiner.Composer.AddChar | src/components/Frankensteiner.jsx:12-19 | appends `New Block` with id `fc` plus the clock |
| Frankensteiner.Composer.DeleteChar | src/components/Frankensteiner.jsx:21-25 | removes the blocks with the id only when confirmed |
| Frankensteiner.Composer.UpdateChar | src/components/Frankensteiner.jsx:27-29 | sets name or text on matching blocks |
| Frankensteiner.Composer.ToggleCharActive | src/components/Frankensteiner.jsx:31-33 | flips active on matching blocks |
| Frankensteiner.Composer.BuildPrompts | src/components/Frankensteiner.jsx:35-48 | results become the per-line prompts; nothing else changes |
| Frankensteiner.Composer.CopyAll | src/components/Frankensteiner.jsx:50-53 | the copied text holds the results: "" for none, the one result, or starting with the first and ending with the last |
| BuilderPanel.BatchLines | src/components/BuilderPanel.jsx:33-36 | the batch lines are the trimmed non-blank lines of the text, in order, each solid |
| BuilderPanel.TrimThenDropEmpty | src/components/BuilderPanel.jsx:33-36 | trimming then dropping empty strings is dropping blank strings then trimming |
| BuilderPanel.BatchLinesShape | src/components/BuilderPanel.jsx:33-36 | no batch line holds a line break, and there is none iff every line is blank |
| BuilderPanel.BatchResultsPerLine | src/components/BuilderPanel.jsx:44-48 | one closed row per line: the scene is the trimmed line, and the prompt equals the single-mode prompt of the raw line |
| BuilderPanel.ToggleResultEffect | src/components/BuilderPanel.jsx:106-108 | the toggle flips row i alone, and twice restores the rows |
| BuilderPanel.CopyAllRows | src/components/BuilderPanel.jsx:92 | Copy All lists the prompts in row order between separators |
| BuilderPanel.Panel.GenerateBatch | src/components/BuilderPanel.jsx:18-52 | with the builder state's globals, characters and order as context, the rows become one per batch line (none when there are no lines); the count reported is the number of lines |
| BuilderPanel.Panel.GenerateSingle | src/components/BuilderPanel.jsx:54-57 | the output is the prompt of the untrimmed single body, built with the builder state's globals, characters and order |
| BuilderPanel.Panel.ToggleResult | src/components/BuilderPanel.jsx:106-108 | the rows become the toggled rows |
| BuilderPanel.Panel.CopyAll | src/components/BuilderPanel.jsx:92 | the copied text holds the row prompts: "" for no rows, the one prompt, or starting with the first row's prompt and ending with the last's |
| DashboardPanel.TextureLabel | src/components/DashboardPanel.jsx:14-18 | High exactly for `high`, Extreme exactly for `extreme`, Standard for everything else, absent included |
| DashboardPanel.TextureLabelAgrees | src/components/DashboardPanel.jsx:14-18 | high, extreme and everything else map to the same three cases as Refinery's texture instruction; absent and "undefined" are Standard |
| DashboardPanel.Statistics | src/components/DashboardPanel.jsx:23-30 | total is the character count; active is the number of positions holding an active character; the texture figure is High exactly for a stored `high`, Extreme exactly for `extreme`, otherwise Standard; prompts is the history length; Last is the first entry's time unless that is absent or 0 |
| DashboardPanel.ActiveCount | src/components/DashboardPanel.jsx:25 | active is 0 iff no character is active, and equals the total iff all are |
| DashboardPanel.StatisticsMatchStore | src/components/DashboardPanel.jsx:27-28 | the prompt count and last time agree with the history store's statistics, apart from a zero timestamp |
| DashboardPanel.Clicked | src/components/DashboardPanel.jsx:105-111 | only the clicked id changes membership: a present id is removed (one shorter), an absent one is added (one longer) |
| DashboardPanel.EnterPressed | src/components/DashboardPanel.jsx:115 | only the id changes membership, and it is open afterwards iff it was not before |
| DashboardPanel.ToggleEffect | src/components/DashboardPanel.jsx:106-111 | a click adds an absent id and removes a present one, keeps the set free of repeats, and affects no other id |
| DashboardPanel.HandlersAgree | src/components/DashboardPanel.jsx:105-115 | the Enter-key handler computes the same set as the click |
| DashboardPanel.ToggleTwice | src/components/DashboardPanel.jsx:106-111 | two clicks restore the set of open rows |
| DashboardPanel.ExportCopy | src/components/DashboardPanel.jsx:45-49 | missing or empty export text copies nothing; other text is copied as it is |
| DashboardPanel.Dashboard.Click | src/components/DashboardPanel.jsx:105-112 | the open set becomes the clicked set and stays free of repeats |
| DashboardPanel.Dashboard.EnterKey | src/components/DashboardPanel.jsx:115 | the open set becomes the filtered-or-appended set and stays free of repeats |
| DashboardPanel.Dashboard.ClearClick | src/components/DashboardPanel.jsx:57-62 | clears the history iff it is non-empty and the user confirms |
| JsStrings.Trim | src/utils/promptBuilder.js:7 | `trim` is "" iff the string is blank, and otherwise has no white space at either end |
| JsStrings.TrimIdempotent | src/utils/promptBuilder.js:7 | trimming twice is trimming once |
| JsStrings.TrimDropsOnlyEnds | src/utils/promptBuilder.js:7 | `trim` removes white space only: the result is the input with its leading and trailing white space cut off, characters unchanged in between |
| JsStrings.Split | src/components/Frankensteiner.jsx:39 | `split` gives at least one piece, and no piece holds the separator |
| JsStrings.SplitJoin | src/components/Frankensteiner.jsx:39 | joining the pieces with the separator gives the text back |
| JsStrings.NonBlankLinesShape | src/components/Refinery.jsx:160 | the kept lines are exactly the non-blank lines, untrimmed, each at its original position's order (an increasing index map) |
| JsStrings.Upper | src/utils/promptBuilder.js:22 | upper-casing keeps the length, maps each ASCII lower-case letter to its capital (code minus 32), and keeps every other character |
| JsValues.ToStr | src/hooks/usePawsvilleState.js:14-16 | `String(v)`: a string is itself, null is "null", booleans "true"/"false", an integer its decimal form, an object "[object Object]", a one-element array its element's string ("" for null) |
| JsValues.NatToStringValue | src/hooks/usePawsvilleState.js:14 | the decimal form of a natural number is non-empty digits that read back as the number |
| JsValues.IntToStringValue | src/hooks/usePawsvilleState.js:14 | the decimal form of an integer is an optional minus and digits that read back as its magnitude |
| Lists.FilterInOrder | src/hooks/usePawsvilleState.js:106 | `filter` keeps exactly the elements that pass, each from an increasing position of the input |
| Lists.RemoveFirstMembers | src/components/DashboardPanel.jsx:108 | Set delete keeps only elements of the list and every element other than the one removed |
| Lists.FilterCount | src/components/DashboardPanel.jsx:25 | `filter` returns as many elements as there are positions where the predicate holds |

## Left out

- I/O:
  - The builder state's debounced autosave effect is not modelled.
  - The history hook's storage writes are not modelled: the mirror effect that writes the list after every change, and clear's `removeItem`.
  - The clipboard, toasts, the image upload, `runVision` and the API payloads are not modelled.
  - The AI call is an opaque function.
- Time and locale: `formatTime` (locale date formatting) is not modelled. The dashboard's `lastTs` stands for its input.
- Refinery storage:
  - `saveRefinery` and `loadRefinery` are not modelled. They write and read the same four fields that `loadInitialState` reads.
  - Stored Refinery data is modelled as a typed record, so stored actors that are not well-shaped objects are not covered.
- JSON coverage:
  - Numbers are integers. NaN, infinities and fractions are not modelled, so `Number.isFinite` is true for every number.
- `JsValues.ToStr`: it models `String(v)` only where `String` returns. Three cases differ:
  - `String` throws a TypeError on an object with its own `toString` key, and on an array holding such an object. The model returns "[object Object]" instead.
  - Integers of 10^21 or more print in exponent form; the model always prints every digit.
  - The same difference carries into `PawsvilleState.Deserialize` and `PromptHistory.Normalize`. In the source, such a v5 value makes the builder loader catch the error and fall back to the default state, and a stored history holding one makes the history hook throw when it mounts. The model normalises both like any other value.
  - `JSON.stringify` followed by `JSON.parse` is taken to be the identity on the values written. Saving therefore stores the serialised value itself.
- `JsStrings.Upper`: `toUpperCase` is modelled on ASCII letters only. Other letters keep their case.
- Unreachable fallbacks:
  - `buildPrompt`'s `?? 'Unnamed'` fallback and its optional chaining on characters cannot be reached here, because the model's characters always carry a name and are never null.
  - `typeof window === 'undefined'` is modelled as "no storage" in the builder loader only.
- `Refinery.RefineryEditor.UpdateOutfitDesc`: requires the matching actors' `activeOutfit` to be in range. Out of range, the source writes past the end of the array or to a negative key, and the model does not follow it there.
- `Refinery.RefineryEditor.DeleteOutfit`: keeps the wardrobe invariant only when actor ids are distinct. `Refinery.DeleteOutfitDuplicateId` shows why.
- `PawsvilleState.Reduce`: the move case uses the corrected guard `MoveAllowed`, which also requires the index itself to lie in the list. The guard as written, at src/hooks/usePawsvilleState.js:130, checks only the target. Its behaviour is modelled separately (see Findings).
- `PawsvilleState.ReducePreservesOrder`: holds for the corrected move guard. Under the guard as written, an out-of-range index would put `undefined` into the order.
- `PawsvilleState.PawsvilleStore.Dispatch`: requires a well-formed order, which every state the store can reach has. The corrected move guard is used (see Findings).
- `PawsvilleState.SerializeRoundTrip`: requires a well-formed order, which every deserialised state has. Without it, the normaliser would rewrite a hand-made order.
- Rendering components are not part of this model: layout, header, accordion, cards, modal and sortable list.

## Findings

| source | as written | input that shows it | evidently intended | confidence | as-written member | corrected member |
|---|---|---|---|---|---|---|
| src/hooks/usePawsvilleState.js:127-132 | `order/move` checks only that `index + direction` is in range, never `index` itself | three entries, index -1 and direction 1: the swap reads position -1, so the first entry becomes `undefined`; with index 3 and direction -1 the swap writes position 3, so the order grows to four entries with `undefined` at position 2 | move only when both `index` and `index + direction` are valid positions | not executed; the shipped up/down buttons only send in-range indices | PawsvilleState.MoveGuardAdmitsBadIndex | PawsvilleState.MoveOrderEffect |
