/** The dashboard (src/components/DashboardPanel.jsx): statistics over the
    builder state and the prompt history, the set of expanded history rows,
    and the guards of its Export and Clear buttons. */
module DashboardPanel {
  import opened Lists
  import opened PawsvilleDefaults
  import opened PromptHistory
  import Refinery

  /** `textureLabel`: "High" for `high`, "Extreme" for `extreme`, and
      "Standard" for anything else, an absent texture (`undefined`)
      included. */
  function TextureLabel(val: Option<string>): (r: string)
    ensures r == "High" <==> val == Some("high")
    ensures r == "Extreme" <==> val == Some("extreme")
    ensures r == "Standard" <==> val != Some("high") && val != Some("extreme")
  {
    if val == Some("high") then "High"
    else if val == Some("extreme") then "Extreme"
    else "Standard"
  }

  predicate IsActive(c: Character)
  {
    c.active
  }

  /** The dashboard figures. `lastTs` is the time shown as "Last", `None`
      for the dash; its formatting is not modelled. */
  datatype Figures = Figures(totalChars: nat, activeChars: nat, texture: string, prompts: nat, lastTs: Option<int>)

  /** The `stats` memo. The active figure counts the positions holding an
      active character; the texture figure labels the stored `texture`
      global, an absent one as Standard. A timestamp of 0 is falsy and
      shows the dash. */
  function Statistics(s: State, history: seq<Entry>): (f: Figures)
    ensures f.totalChars == |s.characters| && f.prompts == |history|
    ensures f.activeChars <= f.totalChars
    ensures f.activeChars == CountWhere(IsActive, s.characters)
    ensures f.texture == "High" <==> "texture" in s.globals && s.globals["texture"] == "high"
    ensures f.texture == "Extreme" <==> "texture" in s.globals && s.globals["texture"] == "extreme"
    ensures f.texture == "Standard" <==> !("texture" in s.globals && s.globals["texture"] in {"high", "extreme"})
    ensures f.lastTs.Some? <==> |history| > 0 && history[0].ts != 0
    ensures f.lastTs.Some? ==> f.lastTs.value == history[0].ts
  {
    var texture := if "texture" in s.globals then Some(s.globals["texture"]) else None;
    FilterCount(IsActive, s.characters);
    Figures(|s.characters|, |Filter(IsActive, s.characters)|, TextureLabel(texture), |history|,
            if |history| > 0 && history[0].ts != 0 then Some(history[0].ts) else None)
  }

  /** The click handler on a history row: Set delete when the id is open,
      Set add otherwise. An insertion-ordered set is a list without
      repetitions. Only the clicked id changes membership: it is removed once
      when present and appended when absent. */
  function Clicked(open: seq<string>, id: string): (r: seq<string>)
    ensures forall x :: x != id ==> (x in r <==> x in open)
    ensures id in open ==> |r| == |open| - 1
    ensures id !in open ==> id in r && |r| == |open| + 1
  {
    RemoveFirstMembers(open, id);
    if id in open then RemoveFirst(open, id) else open + [id]
  }

  /** The Enter-key handler: rebuilds the set by filtering the id out, or by
      appending it. Only the id changes membership, and it is open afterwards
      exactly when it was not before. */
  function EnterPressed(open: seq<string>, id: string): (r: seq<string>)
    ensures forall x :: x != id ==> (x in r <==> x in open)
    ensures id in r <==> id !in open
  {
    FilterMembers(Other(id), open);
    if id in open then Filter(Other(id), open) else open + [id]
  }

  /** The Export button: the text produced by the history export, or nothing
      to copy when it is missing or empty. */
  function ExportCopy(text: Option<string>): (copied: Option<string>)
    ensures copied.Some? <==> text.Some? && text.value != ""
    ensures copied.Some? ==> copied == text
  {
    if text.None? || text.value == "" then None else text
  }

  /** The dashboard's own state: which history rows are expanded. */
  class Dashboard {
    var openIds: seq<string>

    predicate Valid()
      reads this
    {
      Distinct(openIds)
    }

    constructor()
      ensures openIds == [] && Valid()
    {
      openIds := [];
    }

    /** A click on the row of `id`. */
    method Click(id: string)
      requires Valid()
      modifies this
      ensures openIds == Clicked(old(openIds), id)
      ensures Valid()
    {
      ToggleEffect(openIds, id);
      openIds := Clicked(openIds, id);
    }

    /** Enter pressed on the row of `id`. */
    method EnterKey(id: string)
      requires Valid()
      modifies this
      ensures openIds == EnterPressed(old(openIds), id)
      ensures Valid()
    {
      HandlersAgree(openIds, id);
      ToggleEffect(openIds, id);
      openIds := EnterPressed(openIds, id);
    }

    /** The Clear button: acts only with history present and the dialog
        confirmed. */
    method ClearClick(store: HistoryStore, confirmed: bool) returns (cleared: bool)
      modifies store
      ensures cleared <==> |old(store.history)| > 0 && confirmed
      ensures store.history == if cleared then [] else old(store.history)
    {
      if |store.history| == 0 {
        return false;
      }
      if !confirmed {
        return false;
      }
      store.Clear();
      cleared := true;
    }
  }

  // ----------------------------------------------------------------- lemmas

  /** The label follows the same three-way split as Refinery's texture
      instruction; a missing texture and the literal "undefined" that
      deserialisation stores for it are both Standard. */
  lemma TextureLabelAgrees(t: string)
    ensures TextureLabel(Some(t)) == "High" <==> Refinery.TextureInstruction(t) == "High detail."
    ensures TextureLabel(Some(t)) == "Extreme" <==> Refinery.TextureInstruction(t) == "MICRO-TEXTURE: Describe weave, pores, scratches."
    ensures TextureLabel(Some(t)) == "Standard" <==> Refinery.TextureInstruction(t) == "Standard."
    ensures TextureLabel(None) == "Standard" && TextureLabel(Some("undefined")) == "Standard"
  {
  }

  /** No active character gives 0, all active gives the total. */
  lemma ActiveCount(s: State, history: seq<Entry>)
    ensures var f := Statistics(s, history); var cs := s.characters;
            (f.activeChars == 0 <==> forall i :: 0 <= i < |cs| ==> !cs[i].active)
            && (f.activeChars == f.totalChars <==> forall i :: 0 <= i < |cs| ==> cs[i].active)
  {
    var cs := s.characters;
    FilterMembers(IsActive, cs);
    if |Filter(IsActive, cs)| == |cs| {
      FilterKeepsAll(IsActive, cs);
    }
    if forall i :: 0 <= i < |cs| ==> cs[i].active {
      FilterAll(IsActive, cs);
    }
    if Filter(IsActive, cs) != [] {
      assert Filter(IsActive, cs)[0] in cs;
    }
  }

  /** The prompt count and the "Last" time agree with the history store's
      own statistics, apart from a zero timestamp. */
  lemma StatisticsMatchStore(s: State, store: HistoryStore)
    ensures var f := Statistics(s, store.history); var h := store.CurrentStats();
            f.prompts == h.total
            && f.lastTs == (if h.lastTs == Some(0) then None else h.lastTs)
  {
  }

  /** Membership of `x` in the set after either handler. */
  lemma ToggleEffect(open: seq<string>, id: string)
    requires Distinct(open)
    ensures var r := Clicked(open, id);
            Distinct(r)
            && (id in r <==> id !in open)
            && forall x :: x != id ==> (x in r <==> x in open)
  {
    var r := Clicked(open, id);
    if id in open {
      RemoveFirstIsFilter(open, id);
      FilterDistinct(Other(id), open);
      FilterMembers(Other(id), open);
      forall x | x != id && x in open ensures x in r {
        var k :| 0 <= k < |open| && open[k] == x;
        assert Other(id)(open[k]);
      }
    } else {
      forall i, j | 0 <= i < j < |r| ensures r[i] != r[j] {
        if j == |open| {
          assert r[i] in open;
        }
      }
    }
  }

  /** The click and the Enter key compute the same set. */
  lemma HandlersAgree(open: seq<string>, id: string)
    requires Distinct(open)
    ensures Clicked(open, id) == EnterPressed(open, id)
  {
    RemoveFirstIsFilter(open, id);
  }

  /** Toggling twice restores the set of open rows; from a closed row it
      restores the list itself. */
  lemma ToggleTwice(open: seq<string>, id: string)
    requires Distinct(open)
    ensures forall x :: x in Clicked(Clicked(open, id), id) <==> x in open
    ensures id !in open ==> Clicked(Clicked(open, id), id) == open
  {
    ToggleEffect(open, id);
    ToggleEffect(Clicked(open, id), id);
    if id !in open {
      RemoveFirstAppended(open, id);
    }
  }

  lemma {:induction false} RemoveFirstAppended(s: seq<string>, x: string)
    requires x !in s
    ensures RemoveFirst(s + [x], x) == s
    decreases |s|
  {
    if |s| > 0 {
      assert (s + [x])[1..] == s[1..] + [x];
      RemoveFirstAppended(s[1..], x);
    }
  }
}
