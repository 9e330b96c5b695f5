/** The Frankensteiner composer (src/components/Frankensteiner.jsx): a list
    of text blocks, and one prompt per scene line made of the style, the
    camera, the active blocks and the scene. */
module Frankensteiner {
  import opened Lists
  import opened JsStrings
  import opened JsValues
  import opened AppDefaults

  /** `c.active && c.text.trim()` */
  predicate Contributes(b: Block)
  {
    b.active && NonBlank(b.text)
  }

  function TrimmedText(b: Block): string
  {
    Trim(b.text)
  }

  /** The character block: the trimmed texts of the contributing blocks, in
      list order, joined by a blank line. */
  function CharsBlock(blocks: seq<Block>): string
  {
    Join(Map(TrimmedText, Filter(Contributes, blocks)), "\n\n")
  }

  /** The prompt for one scene: style, camera, character block and the scene
      line, blank parts dropped, the others joined untrimmed. It always ends
      with `SCENE: ` and the scene line, and a non-blank style starts it. */
  function ScenePrompt(style: string, camera: string, chars: string, scene: string): (r: string)
    ensures var tail := "SCENE: " + scene; |tail| <= |r| && r[|r| - |tail|..] == tail
    ensures NonBlank(style) ==> |style| <= |r| && r[..|style|] == style
  {
    var parts := [style, camera, chars, "SCENE: " + scene];
    var kept := Filter(NonBlank, parts);
    ScenePartKept(scene);
    assert parts[..3] == [style, camera, chars];
    assert kept == Filter(NonBlank, parts[..3]) + ["SCENE: " + scene];
    JoinEndsWithLast(kept, "\n\n");
    assert parts == [style] + parts[1..];
    FilterCons(NonBlank, style, parts[1..]);
    JoinStartsWithFirst(kept, "\n\n");
    Join(kept, "\n\n")
  }

  /** `buildPrompts`: one prompt per non-blank scene line. */
  function Prompts(style: string, camera: string, blocks: seq<Block>, sceneInput: string): (r: seq<string>)
    ensures |r| == |NonBlankLines(sceneInput)|
  {
    var chars := CharsBlock(blocks);
    var scenes := NonBlankLines(sceneInput);
    seq(|scenes|, i requires 0 <= i < |scenes| => ScenePrompt(style, camera, chars, scenes[i]))
  }

  /** The block `addChar` appends; `now` is `Date.now()`. */
  function NewBlock(now: nat): Block
  {
    Block("fc" + NatToString(now), "New Block", "", true)
  }

  /** The fields `updateChar` is called with. */
  datatype BlockField = Name(value: string) | Text(value: string)

  function WithField(f: BlockField): Block -> Block
  {
    (b: Block) =>
      match f
      case Name(v) => b.(name := v)
      case Text(v) => b.(text := v)
  }

  function FlipActive(b: Block): Block
  {
    b.(active := !b.active)
  }

  function BlockId(b: Block): string { b.id }

  function NotId(id: string): Block -> bool
  {
    (b: Block) => b.id != id
  }

  /** The component's state. */
  class Composer {
    var style: string
    var camera: string
    var blocks: seq<Block>
    var sceneInput: string
    var results: seq<string>

    constructor()
      ensures style == "" && camera == "" && blocks == FrankensteinerDefaults()
      ensures sceneInput == "" && results == []
    {
      style := "";
      camera := "";
      blocks := FrankensteinerDefaults();
      sceneInput := "";
      results := [];
    }

    /** `addChar`, with `now` the clock reading. */
    method AddChar(now: nat)
      modifies this
      ensures blocks == old(blocks) + [NewBlock(now)]
      ensures style == old(style) && camera == old(camera) && sceneInput == old(sceneInput) && results == old(results)
    {
      blocks := blocks + [NewBlock(now)];
    }

    /** `deleteChar`; `confirmed` is the answer to the dialog. */
    method DeleteChar(id: string, confirmed: bool)
      modifies this
      ensures blocks == if confirmed then Filter(NotId(id), old(blocks)) else old(blocks)
      ensures style == old(style) && camera == old(camera) && sceneInput == old(sceneInput) && results == old(results)
    {
      if confirmed {
        blocks := Filter(NotId(id), blocks);
      }
    }

    /** `updateChar(id, key, value)`. */
    method UpdateChar(id: string, f: BlockField)
      modifies this
      ensures blocks == UpdateWhere(old(blocks), BlockId, id, WithField(f))
      ensures style == old(style) && camera == old(camera) && sceneInput == old(sceneInput) && results == old(results)
    {
      blocks := UpdateWhere(blocks, BlockId, id, WithField(f));
    }

    /** `toggleCharActive`. */
    method ToggleCharActive(id: string)
      modifies this
      ensures blocks == UpdateWhere(old(blocks), BlockId, id, FlipActive)
      ensures style == old(style) && camera == old(camera) && sceneInput == old(sceneInput) && results == old(results)
    {
      blocks := UpdateWhere(blocks, BlockId, id, FlipActive);
    }

    /** `buildPrompts`. */
    method BuildPrompts()
      modifies this
      ensures results == Prompts(style, camera, blocks, sceneInput)
      ensures style == old(style) && camera == old(camera) && blocks == old(blocks) && sceneInput == old(sceneInput)
    {
      results := Prompts(style, camera, blocks, sceneInput);
    }

    /** `copyAll`: the text put on the clipboard. */
    function CopyAll(): (r: string)
      reads this
      ensures CopiedEnds(results, r)
    {
      CopyAllText(results)
    }
  }

  // ----------------------------------------------------------------- lemmas

  /** The character block is empty exactly when no block is active with text;
      otherwise it starts and ends with a non-space character. */
  lemma CharsBlockShape(blocks: seq<Block>)
    ensures CharsBlock(blocks) == "" <==> forall i :: 0 <= i < |blocks| ==> !Contributes(blocks[i])
    ensures CharsBlock(blocks) == "" || Solid(CharsBlock(blocks))
  {
    var kept := Filter(Contributes, blocks);
    var texts := Map(TrimmedText, kept);
    assert AllSolid(texts);
    JoinSolid(texts, "\n\n");
    FilterMembers(Contributes, blocks);
    if kept != [] {
      assert Contributes(kept[0]);
      assert kept[0] in blocks;
    }
  }

  /** A scene line is never blank, so the scene part is always kept. */
  lemma ScenePartKept(scene: string)
    ensures NonBlank("SCENE: " + scene)
  {
    assert ("SCENE: " + scene)[0] == 'S';
  }

  /** With blank style and camera and no character block, the prompt is the
      scene part alone. */
  lemma ScenePromptSceneOnly(style: string, camera: string, scene: string)
    requires IsBlank(style) && IsBlank(camera)
    ensures ScenePrompt(style, camera, "", scene) == "SCENE: " + scene
  {
    var parts := [style, camera, "", "SCENE: " + scene];
    ScenePartKept(scene);
    assert parts[..3] == [style, camera, ""];
    FilterNone(NonBlank, parts[..3]);
    assert Filter(NonBlank, parts) == [] + ["SCENE: " + scene];
  }

  /** One prompt per non-blank scene line, in order, each built from that
      line and ending with it. */
  lemma PromptsPerLine(style: string, camera: string, blocks: seq<Block>, sceneInput: string)
    ensures var r := Prompts(style, camera, blocks, sceneInput); var scenes := NonBlankLines(sceneInput);
            |r| == |scenes|
            && forall i :: 0 <= i < |r| ==>
                 r[i] == ScenePrompt(style, camera, CharsBlock(blocks), scenes[i])
                 && |"SCENE: " + scenes[i]| <= |r[i]|
                 && r[i][|r[i]| - |"SCENE: " + scenes[i]|..] == "SCENE: " + scenes[i]
  {
  }

  /** `toggleCharActive` flips only the flag of the blocks with the id, and
      twice restores the list. */
  lemma ToggleCharActiveEffect(blocks: seq<Block>, id: string)
    ensures var r := UpdateWhere(blocks, BlockId, id, FlipActive);
            forall i :: 0 <= i < |blocks| ==>
              r[i].(active := blocks[i].active) == blocks[i] && (r[i].active <==> (blocks[i].active != (blocks[i].id == id)))
    ensures UpdateWhere(UpdateWhere(blocks, BlockId, id, FlipActive), BlockId, id, FlipActive) == blocks
  {
    var r := UpdateWhere(blocks, BlockId, id, FlipActive);
    var rr := UpdateWhere(r, BlockId, id, FlipActive);
    forall i | 0 <= i < |blocks|
      ensures r[i].(active := blocks[i].active) == blocks[i] && rr[i] == blocks[i]
      ensures r[i].active <==> (blocks[i].active != (blocks[i].id == id))
    {
      if blocks[i].id == id {
        assert r[i] == FlipActive(blocks[i]);
        assert rr[i] == FlipActive(r[i]);
      } else {
        assert r[i] == blocks[i];
        assert rr[i] == r[i];
      }
    }
  }

  /** `updateChar` changes only the given field of the blocks with the id. */
  lemma UpdateCharEffect(blocks: seq<Block>, id: string, f: BlockField)
    ensures var r := UpdateWhere(blocks, BlockId, id, WithField(f));
            forall i :: 0 <= i < |blocks| ==>
              r[i].id == blocks[i].id && r[i].active == blocks[i].active
              && (blocks[i].id != id ==> r[i] == blocks[i])
              && (blocks[i].id == id && f.Name? ==> r[i] == blocks[i].(name := f.value))
              && (blocks[i].id == id && f.Text? ==> r[i] == blocks[i].(text := f.value))
  {
  }

  /** `addChar` appends one active block with no text, which contributes
      nothing to the character block until text is typed. */
  lemma AddCharEffect(blocks: seq<Block>, now: nat)
    ensures NewBlock(now).active && NewBlock(now).text == ""
    ensures CharsBlock(blocks + [NewBlock(now)]) == CharsBlock(blocks)
  {
    assert !Contributes(NewBlock(now));
    assert (blocks + [NewBlock(now)])[..|blocks|] == blocks;
    assert Filter(Contributes, blocks + [NewBlock(now)]) == Filter(Contributes, blocks);
  }

  /** `deleteChar` removes every block with the id and keeps the others in
      order. */
  lemma DeleteCharEffect(blocks: seq<Block>, id: string)
    ensures var r := Filter(NotId(id), blocks);
            (forall i :: 0 <= i < |r| ==> r[i].id != id && r[i] in blocks)
            && (forall i :: 0 <= i < |blocks| && blocks[i].id != id ==> blocks[i] in r)
            && SelectedInOrder(r, blocks, Positions(NotId(id), blocks), NotId(id))
  {
    FilterMembers(NotId(id), blocks);
    FilterInOrder(NotId(id), blocks);
  }
}
