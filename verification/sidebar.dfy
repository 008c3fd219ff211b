/**
 * The logic of the sidebar (components/Sidebar.tsx): the model picker
 * groups the available models by provider, and a session is renamed
 * through an edit that starts from its title and is saved to the app.
 */
module Sidebar {
  import opened Wrappers
  import opened ChatTypes
  import opened Lists

  const NATIVE_GEMINI: string := "NATIVE GEMINI"
  const NEURAL_CORE: string := "NEURAL CORE"
  const OPENROUTER: string := "OPENROUTER"
  const GROQ_SPEED: string := "GROQ SPEED"
  const PUTERJS: string := "PUTERJS"

  /** The heading a provider's models are listed under; Puter's, like any
      provider not named, is `PUTERJS`. */
  function GroupOf(p: Provider): string {
    match p
    case Gemini => NATIVE_GEMINI
    case HuggingFace => NEURAL_CORE
    case OpenRouter => OPENROUTER
    case Groq => GROQ_SPEED
    case Puter => PUTERJS
  }

  /** Each provider has a heading of its own. */
  lemma GroupOfInjective(a: Provider, b: Provider)
    ensures GroupOf(a) == GroupOf(b) <==> a == b
  {
    if a != b {
      var x, y := GroupOf(a), GroupOf(b);
      assert |x| != |y| || x[0] != y[0];
    }
  }

  /** The `if` chain that picks a model's heading in the reduce. */
  method HeadingOf(model: Model) returns (group: string)
    ensures group == GroupOf(model.provider)
  {
    group := PUTERJS;
    if model.provider == Gemini {
      group := NATIVE_GEMINI;
    } else if model.provider == HuggingFace {
      group := NEURAL_CORE;
    } else if model.provider == OpenRouter {
      group := OPENROUTER;
    } else if model.provider == Groq {
      group := GROQ_SPEED;
    }
  }

  function InGroup(group: string): Model -> bool {
    (m: Model) => GroupOf(m.provider) == group
  }

  /** The heading of each model, in the order of the models. */
  function Headings(models: seq<Model>): (r: seq<string>)
    ensures |r| == |models|
    ensures forall i :: 0 <= i < |r| ==> r[i] == GroupOf(models[i].provider)
  {
    seq(|models|, i requires 0 <= i < |models| => GroupOf(models[i].provider))
  }

  /** Every heading in `order` has a list. */
  predicate Listed(order: seq<string>, groups: map<string, seq<Model>>) {
    forall k :: 0 <= k < |order| ==> order[k] in groups
  }

  /** Headings that are exactly the keys all have lists. */
  lemma KeysListed(order: seq<string>, groups: map<string, seq<Model>>)
    requires forall h :: h in groups <==> h in order
    ensures Listed(order, groups)
  {
  }

  /** The number of models listed under the given headings. */
  function Total(order: seq<string>, groups: map<string, seq<Model>>): nat
    requires Listed(order, groups)
  {
    if order == [] then 0 else Total(order[..|order| - 1], groups) + |groups[order[|order| - 1]]|
  }

  /** Changing a group not listed leaves the total alone. */
  lemma {:induction false} TotalFrame(order: seq<string>, groups: map<string, seq<Model>>, g: string, xs: seq<Model>)
    requires Listed(order, groups)
    requires g !in order
    ensures Total(order, groups[g := xs]) == Total(order, groups)
  {
    if order != [] {
      TotalFrame(order[..|order| - 1], groups, g, xs);
    }
  }

  /** Changing one listed group changes the total by the change in its size. */
  lemma {:induction false} TotalUpdate(order: seq<string>, groups: map<string, seq<Model>>, g: string, xs: seq<Model>)
    requires Listed(order, groups)
    requires Distinct(order) && g in order
    ensures Total(order, groups[g := xs]) + |groups[g]| == Total(order, groups) + |xs|
  {
    var init := order[..|order| - 1];
    assert order == init + [order[|order| - 1]];
    if order[|order| - 1] == g {
      assert g !in init;
      TotalFrame(init, groups, g, xs);
    } else {
      TotalUpdate(init, groups, g, xs);
    }
  }

  /** The `groupedModels` reduce: each model is pushed onto the list of its
      heading, which is created when the heading is first met. The
      headings come out in the order they were first met; each lists
      exactly the models of its providers, in their order; none is empty;
      and together they list every model once. */
  method GroupModels(models: seq<Model>) returns (groups: map<string, seq<Model>>, order: seq<string>)
    ensures order == Dedupe(Headings(models))
    ensures forall g :: g in groups <==> g in order
    ensures forall g :: g in groups ==> groups[g] == Filter(models, InGroup(g)) && groups[g] != []
    ensures forall i :: 0 <= i < |models| ==> GroupOf(models[i].provider) in groups
    ensures Total(order, groups) == |models|
  {
    groups, order := map[], [];
    for i := 0 to |models|
      invariant GroupedSoFar(models[..i], groups, order)
    {
      var model := models[i];
      var group := HeadingOf(model);
      if group !in groups {
        NewHeadingStep(models, i, groups, order);
        groups := groups[group := []];
        order := order + [group];
      } else {
        KnownHeadingStep(models, i, groups, order);
      }
      groups := groups[group := groups[group] + [model]];
    }
    assert models[..|models|] == models;
    Unbundle(models, groups, order);
    forall i | 0 <= i < |models| ensures GroupOf(models[i].provider) in groups {
      assert Headings(models)[i] == GroupOf(models[i].provider);
    }
  }

  /** What the reduce has built after the models `done`: the headings met
      so far, in order, each with exactly its models, and every model
      counted once. */
  ghost predicate GroupedSoFar(done: seq<Model>, groups: map<string, seq<Model>>, order: seq<string>) {
    && order == Dedupe(Headings(done))
    && (forall h :: h in groups <==> h in order)
    && (forall h :: h in groups ==> groups[h] == Filter(done, InGroup(h)) && groups[h] != [])
    && Listed(order, groups) && Total(order, groups) == |done|
  }

  lemma Bundle(done: seq<Model>, groups: map<string, seq<Model>>, order: seq<string>)
    requires order == Dedupe(Headings(done))
    requires forall h :: h in groups <==> h in order
    requires forall h :: h in groups ==> groups[h] == Filter(done, InGroup(h)) && groups[h] != []
    requires Listed(order, groups) && Total(order, groups) == |done|
    ensures GroupedSoFar(done, groups, order)
  {
  }

  lemma Unbundle(done: seq<Model>, groups: map<string, seq<Model>>, order: seq<string>)
    requires GroupedSoFar(done, groups, order)
    ensures order == Dedupe(Headings(done))
    ensures forall h :: h in groups <==> h in order
    ensures forall h :: h in groups ==> groups[h] == Filter(done, InGroup(h)) && groups[h] != []
    ensures Listed(order, groups) && Total(order, groups) == |done|
  {
  }

  /** A model whose heading is already listed is pushed onto that list. */
  lemma {:induction false} KnownHeadingStep(models: seq<Model>, i: nat, groups: map<string, seq<Model>>, order: seq<string>)
    requires i < |models|
    requires GroupedSoFar(models[..i], groups, order)
    requires GroupOf(models[i].provider) in groups
    ensures var g := GroupOf(models[i].provider);
      GroupedSoFar(models[..i + 1], groups[g := groups[g] + [models[i]]], order)
  {
    var done, model := models[..i], models[i];
    Unbundle(done, groups, order);
    TakeOneMore(models, i);
    var g := GroupOf(model.provider);
    HeadingsStep(done, model);
    ListsStep(done, model, groups, order);
    TotalStep(groups, order, g, model, i);
    KeysListed(order, groups[g := groups[g] + [model]]);
    Bundle(models[..i + 1], groups[g := groups[g] + [model]], order);
  }

  /** A model whose heading is new gets a list of its own, created empty
      and listed last, and is pushed onto it. */
  lemma {:induction false} NewHeadingStep(models: seq<Model>, i: nat, groups: map<string, seq<Model>>, order: seq<string>)
    requires i < |models|
    requires GroupedSoFar(models[..i], groups, order)
    requires GroupOf(models[i].provider) !in groups
    ensures var g := GroupOf(models[i].provider);
      var created := groups[g := []];
      GroupedSoFar(models[..i + 1], created[g := created[g] + [models[i]]], order + [g])
  {
    var done, model := models[..i], models[i];
    Unbundle(done, groups, order);
    TakeOneMore(models, i);
    var g := GroupOf(model.provider);
    HeadingsStep(done, model);
    ListsStep(done, model, groups, order);
    TotalStep(groups, order, g, model, i);
    KeysListed(order + [g], groups[g := []][g := groups[g := []][g] + [model]]);
    Bundle(models[..i + 1], groups[g := []][g := groups[g := []][g] + [model]], order + [g]);
  }

  lemma TakeOneMore(models: seq<Model>, i: nat)
    requires i < |models|
    ensures models[..i + 1] == models[..i] + [models[i]]
  {
  }

  /** The push keeps the headings in step with the lists, and each list
      in step with the models of its heading. */
  lemma {:induction false} ListsStep(done: seq<Model>, model: Model, groups: map<string, seq<Model>>, order: seq<string>)
    requires order == Dedupe(Headings(done))
    requires forall g :: g in groups <==> g in order
    requires forall g :: g in groups ==> groups[g] == Filter(done, InGroup(g)) && groups[g] != []
    ensures var g := GroupOf(model.provider);
      var created := if g in groups then groups else groups[g := []];
      var order' := if g in groups then order else order + [g];
      var groups' := created[g := created[g] + [model]];
      && (forall h :: h in groups' <==> h in order')
      && (forall h :: h in groups' ==> groups'[h] == Filter(done + [model], InGroup(h)) && groups'[h] != [])
  {
    var g := GroupOf(model.provider);
    var created := if g in groups then groups else groups[g := []];
    var groups' := created[g := created[g] + [model]];
    forall h | h in groups' ensures groups'[h] == Filter(done + [model], InGroup(h)) && groups'[h] != [] {
      FilterStep(done, model, h);
      if h == g && g !in groups {
        FilterNone(done, g);
      }
    }
  }

  lemma {:induction false} HeadingsStep(done: seq<Model>, model: Model)
    ensures var g := GroupOf(model.provider);
      Dedupe(Headings(done + [model]))
        == if g in Dedupe(Headings(done)) then Dedupe(Headings(done)) else Dedupe(Headings(done)) + [g]
  {
    var done' := done + [model];
    assert Headings(done') == Headings(done) + [GroupOf(model.provider)];
    assert Headings(done')[..|done|] == Headings(done);
  }

  lemma {:induction false} FilterStep(done: seq<Model>, model: Model, h: string)
    ensures Filter(done + [model], InGroup(h))
         == Filter(done, InGroup(h)) + (if GroupOf(model.provider) == h then [model] else [])
  {
    assert (done + [model])[..|done|] == done;
  }

  /** The total after the push: one more model than before. */
  lemma {:induction false} TotalStep(groups: map<string, seq<Model>>, order: seq<string>, g: string, model: Model, n: nat)
    requires forall h :: h in groups <==> h in order
    requires Distinct(order) && Total(order, groups) == n
    ensures var created := if g in groups then groups else groups[g := []];
      var order' := if g in groups then order else order + [g];
      Total(order', created[g := created[g] + [model]]) == n + 1
  {
    var created := if g in groups then groups else groups[g := []];
    var order' := if g in groups then order else order + [g];
    if g !in groups {
      TotalFrame(order, groups, g, []);
      assert order'[..|order|] == order;
      assert Total(order', created) == n;
    }
    if g !in groups {
      AppendDistinct(order, g);
    }
    TotalUpdate(order', created, g, created[g] + [model]);
  }

  lemma {:induction false} AppendDistinct(order: seq<string>, g: string)
    requires Distinct(order) && g !in order
    ensures Distinct(order + [g])
  {
  }

  /** A heading not met yet has no models. */
  lemma FilterNone(models: seq<Model>, g: string)
    requires g !in Dedupe(Headings(models))
    ensures Filter(models, InGroup(g)) == []
  {
  }

  /** The rename state of the sidebar, and the renames it has passed to
      the app's `onRenameSession`, oldest first. */
  class RenameState {
    var editingId: Option<string>
    var editTitle: string
    var menuOpenId: Option<string>
    var renames: seq<(string, string)>

    constructor()
      ensures editingId == None && editTitle == "" && menuOpenId == None && renames == []
    {
      editingId, editTitle, menuOpenId, renames := None, "", None, [];
    }

    /** `startRename`: edit this session, starting from its title, or
        from its preview when the title is empty; close the menu. */
    method StartRename(session: ChatSession)
      modifies this
      ensures editingId == Some(session.id)
      ensures editTitle == if session.title != "" then session.title else session.preview
      ensures menuOpenId == None && renames == old(renames)
    {
      editingId := Some(session.id);
      editTitle := if session.title != "" then session.title else session.preview;
      menuOpenId := None;
    }

    /** Typing into the rename field. */
    method EditTitle(text: string)
      modifies this
      ensures editTitle == text
      ensures editingId == old(editingId) && menuOpenId == old(menuOpenId) && renames == old(renames)
    {
      editTitle := text;
    }

    /** `saveRename`: with an edit under way (a non-empty id), pass the id
        and the title to the app and end the edit; otherwise do nothing. */
    method SaveRename()
      modifies this
      ensures old(editingId).Some? && old(editingId).value != "" ==>
        renames == old(renames) + [(old(editingId).value, old(editTitle))] && editingId == None
      ensures !(old(editingId).Some? && old(editingId).value != "") ==>
        renames == old(renames) && editingId == old(editingId)
      ensures editTitle == old(editTitle) && menuOpenId == old(menuOpenId)
    {
      if editingId.Some? && editingId.value != "" {
        renames := renames + [(editingId.value, editTitle)];
        editingId := None;
      }
    }
  }
}
