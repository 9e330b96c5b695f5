/** The prompt assembler `buildPrompt` (src/utils/promptBuilder.js): labelled
    sections, in the caller's order, joined by a blank line. The functions
    state what the prompt is; the methods compute it the way the source does,
    by pushing into local lists, and are proved to agree with the functions. */
module PromptBuilder {
  import opened Lists
  import opened JsStrings
  import opened PawsvilleDefaults

  /** The separator between lines and between sections. */
  const SEP: string := "\n\n"

  /** The store snapshot the assembler reads; any part may be missing. */
  datatype Context = Context(globals: Option<Globals>, characters: Option<seq<Character>>, promptOrder: Option<seq<OrderEntry>>)

  /** `globals?.[key] ?? ''` */
  function Field(g: Option<Globals>, key: string): string
  {
    if g.Some? && key in g.value then g.value[key] else ""
  }

  /** The `add(val, caption)` helper: `LABEL: value` for a non-blank value. */
  function LabelLine(val: string, caption: string): seq<string>
  {
    var t := Trim(val);
    if t == "" then [] else [caption + ": " + t]
  }

  /** The global lines, always in the order STYLE, CAMERA, LIGHTING, NEGATIVE. */
  function GlobalLines(g: Option<Globals>): seq<string>
  {
    LabelLine(Field(g, "style"), "STYLE") + LabelLine(Field(g, "camera"), "CAMERA")
    + LabelLine(Field(g, "light"), "LIGHTING") + LabelLine(Field(g, "rules"), "NEGATIVE")
  }

  function GlobalText(g: Option<Globals>): string
  {
    Join(GlobalLines(g), SEP)
  }

  /** Whether a character is rendered: active, with a non-blank description. */
  predicate Rendered(c: Character)
  {
    c.active && NonBlank(c.text)
  }

  function CharacterLine(c: Character): string
  {
    "CHARACTER (" + Upper(c.name) + "): " + Trim(c.text)
  }

  function CharLines(cs: seq<Character>): seq<string>
  {
    if |cs| == 0 then []
    else
      var c := cs[|cs| - 1];
      CharLines(cs[..|cs| - 1]) + (if Rendered(c) then [CharacterLine(c)] else [])
  }

  function CharsText(cs: Option<seq<Character>>): string
  {
    Join(CharLines(OrEmpty(cs)), SEP)
  }

  function SceneText(scene: Option<string>): string
  {
    var t := Trim(GetOr(scene, ""));
    if t == "" then "" else "SCENE: " + t
  }


  /** The three section texts, as the source's three inner getters compute
      them for one call. */
  datatype Texts = Texts(globalText: string, charsText: string, sceneText: string)

  function TextsOf(scene: Option<string>, ctx: Context): Texts
  {
    Texts(GlobalText(ctx.globals), CharsText(ctx.characters), SceneText(scene))
  }

  /** The text one order entry renders; ids other than the three render "". */
  function SectionText(id: string, t: Texts): string
  {
    if id == "global" then t.globalText
    else if id == "chars" then t.charsText
    else if id == "scene" then t.sceneText
    else ""
  }

  /** `if (text) parts.push(text)` */
  function Kept(text: string): seq<string>
  {
    if text == "" then [] else [text]
  }

  /** The non-empty section texts, one per order entry, in order. */
  function Sections(order: seq<OrderEntry>, t: Texts): seq<string>
  {
    if |order| == 0 then []
    else Sections(order[..|order| - 1], t) + Kept(SectionText(order[|order| - 1].id, t))
  }

  /** The non-empty section texts of `order`, joined by a blank line. */
  function Compose(order: seq<OrderEntry>, t: Texts): string
  {
    Join(Sections(order, t), SEP)
  }

  /** The string `buildPrompt` returns. It never begins or ends with white
      space, so it has no leading or trailing blank line, and it is empty
      exactly when every listed section renders empty (an absent order lists
      none). */
  function Assemble(scene: Option<string>, ctx: Context): (r: string)
    ensures r == "" || Solid(r)
    ensures var order := OrEmpty(ctx.promptOrder);
            r == "" <==> forall i :: 0 <= i < |order| ==> SectionText(order[i].id, TextsOf(scene, ctx)) == ""
  {
    TextsShaped(scene, ctx);
    ComposeShape(OrEmpty(ctx.promptOrder), TextsOf(scene, ctx));
    Compose(OrEmpty(ctx.promptOrder), TextsOf(scene, ctx))
  }

  // ---------------------------------------------------------------- methods

  /** The `add(val, label)` helper of `getGlobalText`. */
  method Add(p: seq<string>, val: string, caption: string) returns (p': seq<string>)
    ensures p' == p + LabelLine(val, caption)
  {
    var t := Trim(val);
    p' := p;
    if t != "" {
      p' := p' + [caption + ": " + t];
    }
  }

  /** The inner `getGlobalText`. */
  method GetGlobalText(g: Option<Globals>) returns (text: string)
    ensures text == GlobalText(g)
  {
    var p: seq<string> := [];
    p := Add(p, Field(g, "style"), "STYLE");
    assert p == LabelLine(Field(g, "style"), "STYLE");
    p := Add(p, Field(g, "camera"), "CAMERA");
    p := Add(p, Field(g, "light"), "LIGHTING");
    p := Add(p, Field(g, "rules"), "NEGATIVE");
    assert p == GlobalLines(g);
    text := Join(p, SEP);
  }

  /** The inner `getCharsText`. */
  method GetCharsText(characters: Option<seq<Character>>) returns (text: string)
    ensures text == CharsText(characters)
  {
    var cs := OrEmpty(characters);
    var p: seq<string> := [];
    for i := 0 to |cs|
      invariant p == CharLines(cs[..i])
    {
      CharLinesSnoc(cs, i);
      var desc := Trim(cs[i].text);
      if cs[i].active && desc != "" {
        var name := Upper(cs[i].name);
        p := p + ["CHARACTER (" + name + "): " + desc];
      }
    }
    assert cs[..|cs|] == cs;
    text := Join(p, SEP);
  }

  /** The inner `getSceneText`. */
  method GetSceneText(sceneBody: Option<string>) returns (text: string)
    ensures text == SceneText(sceneBody)
  {
    var t := Trim(GetOr(sceneBody, ""));
    text := if t != "" then "SCENE: " + t else "";
  }

  /** The body of the loop over `promptOrder`: the text of one entry. */
  method RenderEntry(id: string, sceneBody: Option<string>, ctx: Context) returns (text: string)
    ensures text == SectionText(id, TextsOf(sceneBody, ctx))
  {
    text := "";
    if id == "global" { text := GetGlobalText(ctx.globals); }
    if id == "chars" { text := GetCharsText(ctx.characters); }
    if id == "scene" { text := GetSceneText(sceneBody); }
  }

  /** The loop of `buildPrompt` over `promptOrder ?? []`, collecting the
      non-empty section texts. */
  method CollectParts(order: seq<OrderEntry>, sceneBody: Option<string>, ctx: Context) returns (parts: seq<string>)
    ensures parts == Sections(order, TextsOf(sceneBody, ctx))
  {
    ghost var texts := TextsOf(sceneBody, ctx);
    parts := [];
    for i := 0 to |order|
      invariant parts == Sections(order[..i], texts)
    {
      var text := RenderEntry(order[i].id, sceneBody, ctx);
      SectionsSnoc(order, i, texts);
      if text != "" { parts := parts + [text]; }
    }
    assert order[..|order|] == order;
  }

  /** `buildPrompt({ sceneBody, globals, characters, promptOrder })`. */
  method BuildPrompt(sceneBody: Option<string>, ctx: Context) returns (prompt: string)
    ensures prompt == Assemble(sceneBody, ctx)
  {
    var parts := CollectParts(OrEmpty(ctx.promptOrder), sceneBody, ctx);
    prompt := Join(parts, SEP);
    assert prompt == Compose(OrEmpty(ctx.promptOrder), TextsOf(sceneBody, ctx));
  }

  // ----------------------------------------------------------------- lemmas

  /** One loop step of `getCharsText`. */
  lemma CharLinesSnoc(cs: seq<Character>, i: nat)
    requires i < |cs|
    ensures CharLines(cs[..i + 1]) == CharLines(cs[..i]) + (if Rendered(cs[i]) then [CharacterLine(cs[i])] else [])
  {
    assert cs[..i + 1][..i] == cs[..i];
  }

  /** One loop step of `buildPrompt`. */
  lemma SectionsSnoc(order: seq<OrderEntry>, i: nat, t: Texts)
    requires i < |order|
    ensures Sections(order[..i + 1], t) == Sections(order[..i], t) + Kept(SectionText(order[i].id, t))
  {
    assert order[..i + 1][..i] == order[..i];
  }

  /** Sections follow the order list piece by piece: the sections of a
      concatenation are the concatenation of the sections. Hence the output
      keeps the caller's order. */
  lemma {:induction false} SectionsAppend(a: seq<OrderEntry>, b: seq<OrderEntry>, t: Texts)
    ensures Sections(a + b, t) == Sections(a, t) + Sections(b, t)
    decreases |b|
  {
    if |b| == 0 {
      assert a + b == a;
    } else {
      var b' := b[..|b| - 1];
      assert (a + b)[..|a + b| - 1] == a + b';
      SectionsAppend(a, b', t);
    }
  }

  /** An entry whose id is none of global, chars, scene contributes nothing
      wherever it stands. */
  lemma UnknownEntryIgnored(a: seq<OrderEntry>, e: OrderEntry, b: seq<OrderEntry>, t: Texts)
    requires e.id != "global" && e.id != "chars" && e.id != "scene"
    ensures Sections(a + [e] + b, t) == Sections(a + b, t)
  {
    SectionsAppend(a + [e], b, t);
    SectionsAppend(a, [e], t);
    assert Sections([e], t) == [];
    assert Sections(a + [e], t) == Sections(a, t);
    SectionsAppend(a, b, t);
  }

  /** Listing an entry twice renders its section twice (when non-empty). */
  lemma RepeatedEntryRenderedTwice(a: seq<OrderEntry>, e: OrderEntry, t: Texts)
    ensures Sections(a + [e, e], t) == Sections(a, t) + Kept(SectionText(e.id, t)) + Kept(SectionText(e.id, t))
  {
    assert a + [e, e] == (a + [e]) + [e];
    SectionsAppend(a + [e], [e], t);
    SectionsAppend(a, [e], t);
    assert Sections([e], t) == Kept(SectionText(e.id, t));
  }

  lemma LabelLineShape(val: string, caption: string)
    requires Solid(caption)
    ensures AllSolid(LabelLine(val, caption))
    ensures LabelLine(val, caption) == [] <==> IsBlank(val)
  {
    var t := Trim(val);
    if t != "" {
      var l := caption + ": " + t;
      assert l[0] == caption[0];
      assert l[|l| - 1] == t[|t| - 1];
    }
  }

  lemma GlobalLinesShape(g: Option<Globals>)
    ensures AllSolid(GlobalLines(g))
    ensures GlobalLines(g) == [] <==>
      IsBlank(Field(g, "style")) && IsBlank(Field(g, "camera")) && IsBlank(Field(g, "light")) && IsBlank(Field(g, "rules"))
  {
    var s := LabelLine(Field(g, "style"), "STYLE");
    var c := LabelLine(Field(g, "camera"), "CAMERA");
    var l := LabelLine(Field(g, "light"), "LIGHTING");
    var r := LabelLine(Field(g, "rules"), "NEGATIVE");
    CaptionsSolid();
    LabelLineShape(Field(g, "style"), "STYLE");
    LabelLineShape(Field(g, "camera"), "CAMERA");
    LabelLineShape(Field(g, "light"), "LIGHTING");
    LabelLineShape(Field(g, "rules"), "NEGATIVE");
    FourSolid(s, c, l, r);
    assert GlobalLines(g) == s + c + l + r;
  }

  lemma CaptionsSolid()
    ensures Solid("STYLE") && Solid("CAMERA") && Solid("LIGHTING") && Solid("NEGATIVE")
  {
  }

  lemma FourSolid(a: seq<string>, b: seq<string>, c: seq<string>, d: seq<string>)
    requires AllSolid(a) && AllSolid(b) && AllSolid(c) && AllSolid(d)
    ensures AllSolid(a + b + c + d)
    ensures a + b + c + d == [] <==> a == [] && b == [] && c == [] && d == []
  {
    AllSolidAppend(a, b);
    AllSolidAppend(a + b, c);
    AllSolidAppend(a + b + c, d);
    assert |a + b + c + d| == |a| + |b| + |c| + |d|;
  }

  /** The global block is empty or solid, and empty exactly when all four
      fields are blank. */
  lemma GlobalTextShape(g: Option<Globals>)
    ensures GlobalText(g) == "" || Solid(GlobalText(g))
    ensures GlobalText(g) == "" <==>
      IsBlank(Field(g, "style")) && IsBlank(Field(g, "camera")) && IsBlank(Field(g, "light")) && IsBlank(Field(g, "rules"))
  {
    GlobalLinesShape(g);
    JoinSolid(GlobalLines(g), SEP);
  }

  lemma {:induction false} CharLinesSolid(cs: seq<Character>)
    ensures AllSolid(CharLines(cs))
    decreases |cs|
  {
    if |cs| > 0 {
      var init := cs[..|cs| - 1];
      var c := cs[|cs| - 1];
      CharLinesSolid(init);
      var last := if Rendered(c) then [CharacterLine(c)] else [];
      if Rendered(c) {
        CharacterLineSolid(c);
      }
      AllSolidAppend(CharLines(init), last);
    }
  }

  /** A rendered character's line starts with its label and ends with the
      last character of its trimmed description. */
  lemma CharacterLineSolid(c: Character)
    requires Rendered(c)
    ensures Solid(CharacterLine(c))
  {
    var l := CharacterLine(c);
    var t := Trim(c.text);
    assert l[0] == 'C';
    assert l[|l| - 1] == t[|t| - 1];
  }

  lemma {:induction false} CharLinesEmpty(cs: seq<Character>)
    ensures CharLines(cs) == [] <==> forall i :: 0 <= i < |cs| ==> !Rendered(cs[i])
    decreases |cs|
  {
    if |cs| > 0 {
      var init := cs[..|cs| - 1];
      CharLinesEmpty(init);
      if forall i :: 0 <= i < |cs| ==> !Rendered(cs[i]) {
        assert forall i :: 0 <= i < |init| ==> !Rendered(init[i]) by {
          forall i | 0 <= i < |init| ensures !Rendered(init[i]) {
            assert init[i] == cs[i];
          }
        }
      } else {
        var k :| 0 <= k < |cs| && Rendered(cs[k]);
        if k < |init| {
          assert init[k] == cs[k];
        }
      }
    }
  }

  /** The character block is empty or solid, and empty exactly when no
      character is active with a non-blank description. */
  lemma CharsTextShape(cs: Option<seq<Character>>)
    ensures CharsText(cs) == "" || Solid(CharsText(cs))
    ensures CharsText(cs) == "" <==> forall i :: 0 <= i < |OrEmpty(cs)| ==> !Rendered(OrEmpty(cs)[i])
  {
    CharLinesSolid(OrEmpty(cs));
    CharLinesEmpty(OrEmpty(cs));
    JoinSolid(CharLines(OrEmpty(cs)), SEP);
  }

  /** The scene block is empty or solid, and empty exactly when the scene is
      missing or blank. */
  lemma SceneTextShape(scene: Option<string>)
    ensures SceneText(scene) == "" || Solid(SceneText(scene))
    ensures SceneText(scene) == "" <==> IsBlank(GetOr(scene, ""))
  {
    var t := Trim(GetOr(scene, ""));
    if t != "" {
      var s := "SCENE: " + t;
      assert s[0] == 'S';
      assert s[|s| - 1] == t[|t| - 1];
    }
  }

  /** Section pieces taken from blocks that are empty or solid are solid. */
  lemma {:induction false} SectionsSolid(order: seq<OrderEntry>, t: Texts)
    requires BlocksShaped(t)
    ensures AllSolid(Sections(order, t))
    decreases |order|
  {
    if |order| > 0 {
      var init := order[..|order| - 1];
      SectionsSolid(init, t);
      AllSolidAppend(Sections(init, t), Kept(SectionText(order[|order| - 1].id, t)));
    }
  }

  /** There are no sections exactly when every listed entry renders "". */
  lemma {:induction false} SectionsEmpty(order: seq<OrderEntry>, t: Texts)
    ensures Sections(order, t) == [] <==> forall i :: 0 <= i < |order| ==> SectionText(order[i].id, t) == ""
    decreases |order|
  {
    if |order| > 0 {
      var init := order[..|order| - 1];
      SectionsEmpty(init, t);
      if forall i :: 0 <= i < |order| ==> SectionText(order[i].id, t) == "" {
        assert forall i :: 0 <= i < |init| ==> SectionText(init[i].id, t) == "" by {
          forall i | 0 <= i < |init| ensures SectionText(init[i].id, t) == "" {
            assert init[i] == order[i];
          }
        }
      } else {
        var k :| 0 <= k < |order| && SectionText(order[k].id, t) != "";
        if k < |init| {
          assert init[k] == order[k];
        }
      }
    }
  }

  /** Each block is empty or solid. */
  predicate BlocksShaped(t: Texts)
  {
    (t.globalText == "" || Solid(t.globalText))
    && (t.charsText == "" || Solid(t.charsText))
    && (t.sceneText == "" || Solid(t.sceneText))
  }

  lemma TextsShaped(scene: Option<string>, ctx: Context)
    ensures BlocksShaped(TextsOf(scene, ctx))
  {
    GlobalTextShape(ctx.globals);
    CharsTextShape(ctx.characters);
    SceneTextShape(scene);
  }

  lemma ComposeShape(order: seq<OrderEntry>, t: Texts)
    requires BlocksShaped(t)
    ensures Compose(order, t) == "" || Solid(Compose(order, t))
    ensures Compose(order, t) == "" <==> forall i :: 0 <= i < |order| ==> SectionText(order[i].id, t) == ""
  {
    SectionsSolid(order, t);
    SectionsEmpty(order, t);
    JoinSolid(Sections(order, t), SEP);
  }

  /** With every field blank, no character rendered and a blank scene, the
      prompt is "" whatever the order. */
  lemma AllBlankIsEmpty(scene: Option<string>, ctx: Context)
    requires IsBlank(Field(ctx.globals, "style")) && IsBlank(Field(ctx.globals, "camera"))
    requires IsBlank(Field(ctx.globals, "light")) && IsBlank(Field(ctx.globals, "rules"))
    requires forall i :: 0 <= i < |OrEmpty(ctx.characters)| ==> !Rendered(OrEmpty(ctx.characters)[i])
    requires IsBlank(GetOr(scene, ""))
    ensures Assemble(scene, ctx) == ""
  {
    GlobalTextShape(ctx.globals);
    CharsTextShape(ctx.characters);
    SceneTextShape(scene);
  }

  /** The character lines are the rendered characters, in list order, each as
      `CHARACTER (NAME): description`: filter, then format. */
  lemma {:induction false} CharLinesAreRenderedCharacters(cs: seq<Character>)
    ensures CharLines(cs) == Map(CharacterLine, Filter(Rendered, cs))
    decreases |cs|
  {
    if |cs| > 0 {
      var init := cs[..|cs| - 1];
      CharLinesAreRenderedCharacters(init);
      var c := cs[|cs| - 1];
      var last := if Rendered(c) then [c] else [];
      assert Filter(Rendered, cs) == Filter(Rendered, init) + last;
      MapAppend(CharacterLine, Filter(Rendered, init), last);
      assert Map(CharacterLine, last) == if Rendered(c) then [CharacterLine(c)] else [];
    }
  }

  /** Only style, camera, light and rules are read from the globals: setting
      any other key, `texture` included, leaves the prompt unchanged. */
  lemma OtherGlobalsIgnored(scene: Option<string>, ctx: Context, key: string, value: string)
    requires ctx.globals.Some?
    requires key != "style" && key != "camera" && key != "light" && key != "rules"
    ensures Assemble(scene, ctx.(globals := Some(ctx.globals.value[key := value]))) == Assemble(scene, ctx)
  {
    var ctx' := ctx.(globals := Some(ctx.globals.value[key := value]));
    assert Field(ctx'.globals, "style") == Field(ctx.globals, "style");
    assert Field(ctx'.globals, "camera") == Field(ctx.globals, "camera");
    assert Field(ctx'.globals, "light") == Field(ctx.globals, "light");
    assert Field(ctx'.globals, "rules") == Field(ctx.globals, "rules");
    assert GlobalText(ctx'.globals) == GlobalText(ctx.globals);
    assert TextsOf(scene, ctx') == TextsOf(scene, ctx);
    assert ctx'.promptOrder == ctx.promptOrder;
  }

  /** The scene is trimmed before use, so a scene and its trimmed form give
      the same prompt. */
  lemma SceneTrimIrrelevant(scene: string, ctx: Context)
    ensures Assemble(Some(Trim(scene)), ctx) == Assemble(Some(scene), ctx)
  {
    TrimIdempotent(scene);
    assert TextsOf(Some(Trim(scene)), ctx) == TextsOf(Some(scene), ctx);
  }

  lemma JoinThree(a: string, b: string, c: string, sep: string)
    ensures Join([a, b, c], sep) == a + sep + b + sep + c
  {
    assert [a, b, c][1..] == [b, c];
    assert [b, c][1..] == [c];
    assert Join([b, c], sep) == b + sep + c;
    assert Join([a, b, c], sep) == a + sep + (b + sep + c);
  }

  lemma DefaultOrderSections(t: Texts)
    ensures Sections(DefaultOrder(), t) == Kept(t.globalText) + Kept(t.charsText) + Kept(t.sceneText)
  {
    var o := DefaultOrder();
    SectionsSnoc(o, 0, t);
    SectionsSnoc(o, 1, t);
    SectionsSnoc(o, 2, t);
    assert o[..0] == [];
    assert o[..3] == o;
  }

  lemma ComposeDefaultOrder(t: Texts)
    ensures Compose(DefaultOrder(), t) == Join(Kept(t.globalText) + Kept(t.charsText) + Kept(t.sceneText), SEP)
    ensures t.globalText != "" && t.charsText != "" && t.sceneText != "" ==>
            Compose(DefaultOrder(), t) == t.globalText + SEP + t.charsText + SEP + t.sceneText
  {
    DefaultOrderSections(t);
    JoinThree(t.globalText, t.charsText, t.sceneText, SEP);
  }

  /** With the default order the prompt is the global block, the character
      block and the scene block, in that order, with the empty ones left out;
      when all three are present they are separated by one blank line each. */
  lemma DefaultOrderPrompt(scene: Option<string>, ctx: Context)
    requires ctx.promptOrder == Some(DefaultOrder())
    ensures var t := TextsOf(scene, ctx);
            Assemble(scene, ctx) == Join(Kept(t.globalText) + Kept(t.charsText) + Kept(t.sceneText), SEP)
    ensures var t := TextsOf(scene, ctx);
            t.globalText != "" && t.charsText != "" && t.sceneText != "" ==>
            Assemble(scene, ctx) == t.globalText + SEP + t.charsText + SEP + t.sceneText
  {
    ComposeDefaultOrder(TextsOf(scene, ctx));
  }
}
