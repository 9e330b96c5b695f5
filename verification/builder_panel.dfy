/** The builder's prompt panel (src/components/BuilderPanel.jsx): a batch of
    scenes, one per line, and a single scene, each turned into prompts with
    the current globals, characters and order. */
module BuilderPanel {
  import opened Lists
  import opened JsStrings
  import opened PawsvilleDefaults
  import opened PromptBuilder
  import opened AppDefaults

  /** `promptCtx`: the builder state's globals, characters and order, all
      present. */
  function PanelContext(s: State): Context
  {
    Context(Some(s.globals), Some(s.characters), Some(s.promptOrder))
  }

  /** The batch lines: split on line breaks, each trimmed, empty ones
      dropped. They are the non-blank lines, trimmed, in order, so none is
      empty or has white space at either end. */
  function BatchLines(text: string): (r: seq<string>)
    ensures r == Map(Trim, NonBlankLines(text))
    ensures forall i :: 0 <= i < |r| ==> Solid(r[i])
  {
    TrimThenDropEmpty(Split(text, '\n'));
    Filter(NonEmpty, Map(Trim, Split(text, '\n')))
  }

  /** One row of the batch output. */
  datatype BatchResult = BatchResult(scene: string, prompt: string, open: bool)

  function PromptOf(r: BatchResult): string
  {
    r.prompt
  }

  /** The rows `generateBatch` stores: each line, its prompt, closed. */
  function BatchResults(lines: seq<string>, ctx: Context): (r: seq<BatchResult>)
    ensures |r| == |lines|
  {
    seq(|lines|, i requires 0 <= i < |lines| => BatchResult(lines[i], Assemble(Some(lines[i]), ctx), false))
  }

  /** The toggle of row `i`; any other index changes nothing. */
  function ToggledAt(rs: seq<BatchResult>, i: int): (r: seq<BatchResult>)
    ensures |r| == |rs|
  {
    seq(|rs|, k requires 0 <= k < |rs| => if k == i then rs[k].(open := !rs[k].open) else rs[k])
  }

  /** The panel's state. */
  class Panel {
    var batchBodies: string
    var batchResults: seq<BatchResult>
    var singleBody: string
    var singleOutput: string

    constructor()
      ensures batchBodies == "" && batchResults == [] && singleBody == "" && singleOutput == ""
    {
      batchBodies := "";
      batchResults := [];
      singleBody := "";
      singleOutput := "";
    }

    /** `generateBatch`; `count` is the number reported to the user, 0 for
        "No scenes found". */
    method GenerateBatch(s: State) returns (count: nat)
      modifies this
      ensures count == |BatchLines(batchBodies)|
      ensures batchResults == BatchResults(BatchLines(batchBodies), PanelContext(s))
      ensures batchBodies == old(batchBodies) && singleBody == old(singleBody) && singleOutput == old(singleOutput)
    {
      var lines := BatchLines(batchBodies);
      if |lines| == 0 {
        batchResults := [];
        return 0;
      }
      batchResults := BatchResults(lines, PanelContext(s));
      count := |lines|;
    }

    /** `generateSingle`: the untrimmed single body, built with the shared
        prompt builder. */
    method GenerateSingle(s: State)
      modifies this
      ensures singleOutput == Assemble(Some(singleBody), PanelContext(s))
      ensures batchBodies == old(batchBodies) && batchResults == old(batchResults) && singleBody == old(singleBody)
    {
      singleOutput := BuildPrompt(Some(singleBody), PanelContext(s));
    }

    /** The open/close toggle of row `i`. */
    method ToggleResult(i: int)
      modifies this
      ensures batchResults == ToggledAt(old(batchResults), i)
      ensures batchBodies == old(batchBodies) && singleBody == old(singleBody) && singleOutput == old(singleOutput)
    {
      batchResults := ToggledAt(batchResults, i);
    }

    /** The "Copy All" text: the prompts in row order. */
    function CopyAll(): (r: string)
      reads this
      ensures CopiedEnds(Map(PromptOf, batchResults), r)
    {
      CopyAllText(Map(PromptOf, batchResults))
    }
  }

  // ----------------------------------------------------------------- lemmas

  /** Trimming then dropping empty strings is dropping blank strings then
      trimming. */
  lemma {:induction false} TrimThenDropEmpty(xs: seq<string>)
    ensures Filter(NonEmpty, Map(Trim, xs)) == Map(Trim, Filter(NonBlank, xs))
    decreases |xs|
  {
    if |xs| > 0 {
      var init := xs[..|xs| - 1];
      var last := xs[|xs| - 1];
      var tail := if NonBlank(last) then [last] else [];
      TrimThenDropEmpty(init);
      var trimmed := Map(Trim, xs);
      assert trimmed[..|xs| - 1] == Map(Trim, init);
      assert trimmed[|xs| - 1] == Trim(last);
      assert Filter(NonEmpty, trimmed) == Filter(NonEmpty, Map(Trim, init)) + Map(Trim, tail);
      assert Filter(NonBlank, xs) == Filter(NonBlank, init) + tail;
      MapAppend(Trim, Filter(NonBlank, init), tail);
    }
  }

  /** No batch line holds a line break, and there is none exactly when every
      line of the text is blank. */
  lemma BatchLinesShape(text: string)
    ensures forall i :: 0 <= i < |BatchLines(text)| ==> '\n' !in BatchLines(text)[i]
    ensures BatchLines(text) == [] <==> forall i :: 0 <= i < |Split(text, '\n')| ==> IsBlank(Split(text, '\n')[i])
  {
    var lines := Split(text, '\n');
    var kept := NonBlankLines(text);
    NonBlankLinesShape(text);
    forall i | 0 <= i < |kept| ensures '\n' !in Trim(kept[i]) {
      TrimKeepsCharacters(kept[i]);
    }
    if kept != [] {
      assert kept[0] in lines;
    }
  }

  /** One row per non-blank line, in order: the row's scene is the trimmed
      line, its prompt is what the single mode gives for the untrimmed line,
      and it starts closed. */
  lemma BatchResultsPerLine(text: string, ctx: Context)
    ensures var r := BatchResults(BatchLines(text), ctx); var raw := NonBlankLines(text);
            |r| == |raw|
            && forall i :: 0 <= i < |r| ==>
                 r[i].scene == Trim(raw[i]) && r[i].prompt == Assemble(Some(raw[i]), ctx) && !r[i].open
  {
    var raw := NonBlankLines(text);
    BatchLinesShape(text);
    forall i | 0 <= i < |raw| ensures Assemble(Some(Trim(raw[i])), ctx) == Assemble(Some(raw[i]), ctx) {
      SceneTrimIrrelevant(raw[i], ctx);
    }
  }

  /** The toggle flips the flag of row `i` alone, and twice restores the rows. */
  lemma ToggleResultEffect(rs: seq<BatchResult>, i: int)
    ensures var r := ToggledAt(rs, i);
            forall k :: 0 <= k < |rs| ==>
              r[k].scene == rs[k].scene && r[k].prompt == rs[k].prompt
              && (r[k].open <==> (rs[k].open != (k == i)))
    ensures ToggledAt(ToggledAt(rs, i), i) == rs
  {
  }

  /** "Copy All" puts the prompts in row order between separators. */
  lemma CopyAllRows(rs: seq<BatchResult>, row: BatchResult)
    ensures CopyAllText(Map(PromptOf, [row])) == row.prompt
    ensures |rs| > 0 ==>
      CopyAllText(Map(PromptOf, rs + [row])) == CopyAllText(Map(PromptOf, rs)) + COPY_ALL_SEP + row.prompt
  {
    MapAppend(PromptOf, rs, [row]);
    CopyAllShape(Map(PromptOf, rs), Map(PromptOf, [row]));
  }
}
