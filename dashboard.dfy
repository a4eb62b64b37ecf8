/** The toolkit page, pages/Dashboard.tsx: the catalogue grouped by category, the selected
    tool's history and its preview, text generation (fresh or as a refinement of the
    current result), read-aloud playback, and the export file name. The tool's prompt
    template, the model's stream and speech outcomes, the browser's audio decoder and the
    clock are inputs. */
module Dashboard {
  import opened Wrappers
  import opened Types
  import Text
  import Base64
  import Pcm
  import Gemini
  import Storage

  // ---------------------------------------------------------------- grouping the catalogue

  /** The category of each tool, in catalogue order. */
  function Categories(tools: seq<ToolDef>): (r: seq<ToolCategory>)
    ensures |r| == |tools|
    ensures forall i :: 0 <= i < |tools| ==> r[i] == tools[i].category
  {
    if tools == [] then [] else Categories(tools[..|tools| - 1]) + [tools[|tools| - 1].category]
  }

  /** The distinct categories, each where it first appears. Object.entries lists the
      accumulator's keys in insertion order, since no category label is an array index. */
  function FirstAppearances(cats: seq<ToolCategory>): (r: seq<ToolCategory>)
    ensures forall c :: c in r <==> c in cats
    ensures forall i, j :: 0 <= i < j < |r| ==> r[i] != r[j]
  {
    if cats == [] then []
    else
      var init := FirstAppearances(cats[..|cats| - 1]);
      var last := cats[|cats| - 1];
      assert cats == cats[..|cats| - 1] + [last];
      if last in init then init else init + [last]
  }

  /** The tools of category `c`, in catalogue order. */
  function OfCategory(tools: seq<ToolDef>, c: ToolCategory): (r: seq<ToolDef>)
    ensures forall t :: t in r <==> t in tools && t.category == c
  {
    if tools == [] then []
    else
      var last := tools[|tools| - 1];
      assert tools == tools[..|tools| - 1] + [last];
      OfCategory(tools[..|tools| - 1], c) + (if last.category == c then [last] else [])
  }

  datatype Group = Group(category: ToolCategory, tools: seq<ToolDef>)

  /** The groups the reduce builds: one per category present, in first-appearance order,
      each holding that category's tools. */
  function GroupsOf(tools: seq<ToolDef>): seq<Group> {
    var cs := FirstAppearances(Categories(tools));
    seq(|cs|, i requires 0 <= i < |cs| => Group(cs[i], OfCategory(tools, cs[i])))
  }

  /** The index of the group for `c`, if the accumulator already has one. */
  function Find(groups: seq<Group>, c: ToolCategory): (r: Option<nat>)
    ensures r.Some? ==> r.value < |groups| && groups[r.value].category == c
    ensures r.None? ==> forall k :: 0 <= k < |groups| ==> groups[k].category != c
  {
    if groups == [] then None
    else if groups[|groups| - 1].category == c then Some(|groups| - 1)
    else Find(groups[..|groups| - 1], c)
  }

  lemma CategoriesSnoc(tools: seq<ToolDef>, t: ToolDef)
    ensures Categories(tools + [t]) == Categories(tools) + [t.category]
  {
    assert (tools + [t])[..|tools|] == tools;
  }

  lemma OfCategorySnoc(tools: seq<ToolDef>, t: ToolDef, c: ToolCategory)
    ensures t.category == c ==> OfCategory(tools + [t], c) == OfCategory(tools, c) + [t]
    ensures t.category != c ==> OfCategory(tools + [t], c) == OfCategory(tools, c)
  {
    assert (tools + [t])[..|tools|] == tools;
    assert OfCategory(tools, c) + [] == OfCategory(tools, c);
  }

  /** The category list after one more tool. */
  lemma FirstAppearancesSnoc(tools: seq<ToolDef>, t: ToolDef)
    ensures var cs := FirstAppearances(Categories(tools));
      FirstAppearances(Categories(tools + [t])) == if t.category in cs then cs else cs + [t.category]
  {
    var cats := Categories(tools);
    CategoriesSnoc(tools, t);
    var cats' := cats + [t.category];
    assert cats'[..|cats'| - 1] == cats;
  }

  /** A tool of category `c` is only given when `c` appears. */
  lemma OfAbsentCategory(tools: seq<ToolDef>, c: ToolCategory)
    requires c !in FirstAppearances(Categories(tools))
    ensures OfCategory(tools, c) == []
  {
  }

  /** The group at position `i` of the catalogue's grouping. */
  lemma GroupAt(tools: seq<ToolDef>, i: nat)
    requires i < |FirstAppearances(Categories(tools))|
    ensures var cs := FirstAppearances(Categories(tools));
      |GroupsOf(tools)| == |cs| && GroupsOf(tools)[i] == Group(cs[i], OfCategory(tools, cs[i]))
  {
  }

  /** One group after a tool of a category that already appears. */
  lemma OldGroupAt(tools: seq<ToolDef>, t: ToolDef, k: nat, i: nat)
    requires FirstAppearances(Categories(tools + [t])) == FirstAppearances(Categories(tools))
    requires k < |FirstAppearances(Categories(tools))| && FirstAppearances(Categories(tools))[k] == t.category
    requires i < |FirstAppearances(Categories(tools))|
    ensures GroupsOf(tools + [t])[i] ==
      if i == k then Group(t.category, GroupsOf(tools)[k].tools + [t]) else GroupsOf(tools)[i]
  {
    var cs := FirstAppearances(Categories(tools));
    GroupAt(tools + [t], i);
    GroupAt(tools, i);
    OfCategorySnoc(tools, t, cs[i]);
  }

  /** One group after a tool of a category met for the first time. */
  lemma NewGroupAt(tools: seq<ToolDef>, t: ToolDef, i: nat)
    requires t.category !in FirstAppearances(Categories(tools))
    requires FirstAppearances(Categories(tools + [t])) == FirstAppearances(Categories(tools)) + [t.category]
    requires i <= |FirstAppearances(Categories(tools))|
    ensures GroupsOf(tools + [t])[i] ==
      if i == |FirstAppearances(Categories(tools))| then Group(t.category, [t]) else GroupsOf(tools)[i]
  {
    var cs := FirstAppearances(Categories(tools));
    GroupAt(tools + [t], i);
    if i == |cs| {
      OfCategorySnoc(tools, t, t.category);
      OfAbsentCategory(tools, t.category);
      assert [] + [t] == [t];
    } else {
      GroupAt(tools, i);
      OfCategorySnoc(tools, t, cs[i]);
    }
  }

  /** A category without a group does not appear in the catalogue. */
  lemma NoGroupAbsent(tools: seq<ToolDef>, c: ToolCategory)
    requires Find(GroupsOf(tools), c).None?
    ensures c !in FirstAppearances(Categories(tools))
  {
    var cs := FirstAppearances(Categories(tools));
    forall k | 0 <= k < |cs| ensures cs[k] != c {
      GroupAt(tools, k);
    }
  }

  /** One step of the reduce for a category met for the first time: a new group. */
  lemma GroupsSnocNew(tools: seq<ToolDef>, t: ToolDef)
    requires Find(GroupsOf(tools), t.category).None?
    ensures GroupsOf(tools + [t]) == GroupsOf(tools) + [Group(t.category, [t])]
  {
    NoGroupAbsent(tools, t.category);
    GroupsAppendNew(tools, t);
  }

  /** A tool of a category absent so far adds a group of its own at the end. */
  lemma GroupsAppendNew(tools: seq<ToolDef>, t: ToolDef)
    requires t.category !in FirstAppearances(Categories(tools))
    ensures GroupsOf(tools + [t]) == GroupsOf(tools) + [Group(t.category, [t])]
  {
    FirstAppearancesSnoc(tools, t);
    var g' := GroupsOf(tools + [t]);
    var h := GroupsOf(tools) + [Group(t.category, [t])];
    assert |g'| == |h|;
    forall i | 0 <= i < |h| ensures g'[i] == h[i] {
      NewGroupAt(tools, t, i);
    }
  }

  /** One step of the reduce for a category that already has group `k`: the tool is
      pushed onto that group. */
  lemma GroupsSnocOld(tools: seq<ToolDef>, t: ToolDef, k: nat)
    requires Find(GroupsOf(tools), t.category) == Some(k)
    ensures GroupsOf(tools + [t]) == GroupsOf(tools)[k := Group(t.category, GroupsOf(tools)[k].tools + [t])]
  {
    GroupAt(tools, k);
    FirstAppearancesSnoc(tools, t);
    var g' := GroupsOf(tools + [t]);
    var h := GroupsOf(tools)[k := Group(t.category, GroupsOf(tools)[k].tools + [t])];
    forall i | 0 <= i < |h| ensures g'[i] == h[i] {
      OldGroupAt(tools, t, k, i);
    }
  }

  /** `groupedTools`: the reduce over the catalogue, creating a group when a category is
      first met and pushing each tool onto its group. */
  method GroupTools(tools: seq<ToolDef>) returns (groups: seq<Group>)
    ensures groups == GroupsOf(tools)
  {
    groups := [];
    for i := 0 to |tools|
      invariant groups == GroupsOf(tools[..i])
    {
      var tool := tools[i];
      assert tools[..i + 1] == tools[..i] + [tool];
      var k := Find(groups, tool.category);
      if k.None? {
        GroupsSnocNew(tools[..i], tool);
        groups := groups + [Group(tool.category, [])];
        k := Some(|groups| - 1);
      } else {
        GroupsSnocOld(tools[..i], tool, k.value);
      }
      groups := groups[k.value := Group(tool.category, groups[k.value].tools + [tool])];
    }
    assert tools[..|tools|] == tools;
  }

  /** Every `cats[m]` that is the category of a later group is preceded by the category
      of each earlier group. */
  lemma {:induction false} FirstAppearanceOrder(cats: seq<ToolCategory>, i: nat, j: nat, m: nat)
    requires i < j < |FirstAppearances(cats)|
    requires m < |cats| && cats[m] == FirstAppearances(cats)[j]
    ensures exists k :: 0 <= k < m && cats[k] == FirstAppearances(cats)[i]
    decreases |cats|
  {
    var n := |cats|;
    var init := cats[..n - 1];
    var last := cats[n - 1];
    var f := FirstAppearances(init);
    var r := FirstAppearances(cats);
    if last in f {
      assert r == f;
      if m < n - 1 {
        FirstAppearanceOrder(init, i, j, m);
        var k :| 0 <= k < m && init[k] == f[i];
        assert cats[k] == r[i];
      } else {
        var m' :| 0 <= m' < n - 1 && init[m'] == last;
        FirstAppearanceOrder(init, i, j, m');
        var k :| 0 <= k < m' && init[k] == f[i];
        assert cats[k] == r[i];
      }
    } else {
      assert r == f + [last];
      if j < |f| {
        if m < n - 1 {
          FirstAppearanceOrder(init, i, j, m);
          var k :| 0 <= k < m && init[k] == f[i];
          assert cats[k] == r[i];
        } else {
          assert false;
        }
      } else {
        assert r[i] == f[i] && f[i] in init;
        var k :| 0 <= k < n - 1 && init[k] == f[i];
        if m < n - 1 {
          assert false;
        }
        assert cats[k] == r[i];
      }
    }
  }

  /** The groups partition the catalogue: no group is empty, no category has two groups,
      every tool is in the group of its category and in no other, each group keeps the
      catalogue order (it is the catalogue filtered by category), and a group comes before
      another exactly when its category appears first. */
  lemma GroupsPartition(tools: seq<ToolDef>)
    ensures var g := GroupsOf(tools);
      && (forall k :: 0 <= k < |g| ==> g[k].tools != [])
      && (forall k, l :: 0 <= k < l < |g| ==> g[k].category != g[l].category)
      && (forall t, k :: 0 <= k < |g| ==> (t in g[k].tools <==> t in tools && t.category == g[k].category))
      && (forall t :: t in tools ==> exists k :: 0 <= k < |g| && g[k].category == t.category)
      && (forall k :: 0 <= k < |g| ==> g[k].tools == OfCategory(tools, g[k].category))
  {
    var g := GroupsOf(tools);
    var cats := Categories(tools);
    forall k | 0 <= k < |g| ensures g[k].tools != [] {
      assert g[k].category in cats;
      var m :| 0 <= m < |cats| && cats[m] == g[k].category;
      assert tools[m] in g[k].tools;
    }
    forall t | t in tools ensures exists k :: 0 <= k < |g| && g[k].category == t.category {
      var m :| 0 <= m < |tools| && tools[m] == t;
      assert cats[m] == t.category && cats[m] in cats;
      var cs := FirstAppearances(cats);
      var k :| 0 <= k < |cs| && cs[k] == t.category;
      assert g[k].category == t.category;
    }
  }

  /** The groups come in the order their categories first appear in the catalogue: each
      tool of a later group is preceded by some tool of every earlier group. */
  lemma GroupsInFirstAppearanceOrder(tools: seq<ToolDef>, k: nat, l: nat, m: nat)
    requires k < l < |GroupsOf(tools)|
    requires m < |tools| && tools[m].category == GroupsOf(tools)[l].category
    ensures exists p :: 0 <= p < m && tools[p].category == GroupsOf(tools)[k].category
  {
    var cats := Categories(tools);
    FirstAppearanceOrder(cats, k, l, m);
    var p :| 0 <= p < m && cats[p] == FirstAppearances(cats)[k];
    assert tools[p].category == GroupsOf(tools)[k].category;
  }

  // ---------------------------------------------------------------- the tool's history

  /** The records of tool `id`, in the order of `all`. */
  function OfTool(all: seq<GeneratedResult>, id: string): (r: seq<GeneratedResult>)
    ensures forall x :: x in r <==> x in all && x.toolId == id
    ensures |r| <= |all|
  {
    if all == [] then []
    else
      var last := all[|all| - 1];
      assert all == all[..|all| - 1] + [last];
      OfTool(all[..|all| - 1], id) + (if last.toolId == id then [last] else [])
  }

  /** `getToolHistory`: nothing without a selected tool, otherwise the records of that tool. */
  function ToolHistory(selected: Option<ToolDef>, all: seq<GeneratedResult>): seq<GeneratedResult> {
    if selected.None? then [] else OfTool(all, selected.value.id)
  }

  /** `a` is `b` with some elements left out, the others kept in order. */
  predicate Subsequence<T(==)>(a: seq<T>, b: seq<T>)
    decreases |b|
  {
    if a == [] then true
    else if b == [] then false
    else (a[|a| - 1] == b[|b| - 1] && Subsequence(a[..|a| - 1], b[..|b| - 1])) || Subsequence(a, b[..|b| - 1])
  }

  lemma {:induction false} OfToolIsSubsequence(all: seq<GeneratedResult>, id: string)
    ensures Subsequence(OfTool(all, id), all)
    decreases |all|
  {
    if all != [] {
      var init := all[..|all| - 1];
      var last := all[|all| - 1];
      OfToolIsSubsequence(init, id);
      if last.toolId == id {
        var r := OfTool(all, id);
        assert r[..|r| - 1] == OfTool(init, id);
      } else {
        assert OfTool(all, id) == OfTool(init, id) + [];
        assert OfTool(init, id) + [] == OfTool(init, id);
      }
    }
  }

  /** Filtering keeps the newest-first order `getHistory` returns. */
  lemma {:induction false} OfToolNewestFirst(all: seq<GeneratedResult>, id: string)
    requires Storage.NewestFirst(all)
    ensures Storage.NewestFirst(OfTool(all, id))
    decreases |all|
  {
    if all != [] {
      var init := all[..|all| - 1];
      var last := all[|all| - 1];
      OfToolNewestFirst(init, id);
      var f := OfTool(init, id);
      if last.toolId == id {
        var r := f + [last];
        forall i, j | 0 <= i < j < |r| ensures Storage.Before(r[i], r[j]) {
          if j == |f| {
            assert r[i] in init;
            var k :| 0 <= k < |init| && init[k] == r[i];
            assert all[k] == r[i];
          }
        }
      } else {
        assert OfTool(all, id) == f + [];
        assert f + [] == f;
      }
    }
  }

  /** The selected tool's history is empty without a selection; otherwise it holds exactly
      the records of that tool, in the order of the full history, so newest first when
      the full history came from `getHistory`. */
  lemma ToolHistoryRules(selected: Option<ToolDef>, all: seq<GeneratedResult>)
    ensures selected.None? ==> ToolHistory(selected, all) == []
    ensures selected.Some? ==> forall x :: x in ToolHistory(selected, all) <==> x in all && x.toolId == selected.value.id
    ensures Subsequence(ToolHistory(selected, all), all)
    ensures Storage.NewestFirst(all) ==> Storage.NewestFirst(ToolHistory(selected, all))
  {
    if selected.Some? {
      OfToolIsSubsequence(all, selected.value.id);
      if Storage.NewestFirst(all) {
        OfToolNewestFirst(all, selected.value.id);
      }
    }
  }

  // ---------------------------------------------------------------- the preview

  function Min(a: nat, b: nat): nat {
    if a <= b then a else b
  }

  /** A JavaScript string is truthy when it is present and not empty. */
  predicate Truthy(s: Option<string>) {
    s.Some? && s.value != ""
  }

  /** The "Previous Versions" section: the entries listed and the "+ N more" count. */
  datatype Preview = Preview(shown: seq<GeneratedResult>, more: Option<nat>)

  /** The section appears below an empty work area (no result shown) when the tool has
      history. It lists the first three entries and counts the rest. */
  function HistoryPreview(result: Option<string>, toolHistory: seq<GeneratedResult>): (p: Option<Preview>)
    ensures p.None? <==> Truthy(result) || toolHistory == []
    ensures p.Some? ==> p.value.shown <= toolHistory && |p.value.shown| == Min(3, |toolHistory|)
    ensures p.Some? ==> (p.value.more.Some? <==> |toolHistory| > 3)
    ensures p.Some? ==> |p.value.shown| + p.value.more.GetOr(0) == |toolHistory|
  {
    if Truthy(result) || toolHistory == [] then None
    else Some(Preview(toolHistory[..Min(3, |toolHistory|)],
                      if |toolHistory| > 3 then Some(|toolHistory| - 3) else None))
  }

  /** With the history newest first, the listed entries are newer than every entry that is
      only counted. */
  lemma PreviewShowsNewest(result: Option<string>, toolHistory: seq<GeneratedResult>)
    requires Storage.NewestFirst(toolHistory)
    requires HistoryPreview(result, toolHistory).Some?
    ensures var p := HistoryPreview(result, toolHistory).value;
      forall i, j :: 0 <= i < |p.shown| <= j < |toolHistory| ==> Storage.Before(p.shown[i], toolHistory[j])
  {
  }

  // ---------------------------------------------------------------- generating

  /** What `handleGenerate` does with the current selection: nothing, open the voice
      simulator, or stream a generation from the given prompt. */
  datatype Mode = Ignore | OpenSimulator | Generate(prompt: string)

  /** The fixed text of the refinement prompt before the previous result, between it and
      the instruction, and after the instruction, with the template literal's line breaks
      and indentation. */
  const RefinementHead: string := "Here is the previous result I generated:\n      \"\"\"\n      "
  const RefinementMiddle: string :=
    "\n      \"\"\"\n      \n      The user wants to refine this with the following instruction: \""
  const RefinementTail: string :=
    "\".\n      \n      Rewrite the content incorporating this change. Return the full updated content."

  /** The refinement prompt. */
  function RefinementPrompt(previous: string, instruction: string): string {
    RefinementHead + previous + RefinementMiddle + instruction + RefinementTail
  }

  /** The refinement prompt quotes the previous result and then the instruction verbatim,
      each at a fixed place, and ends with the fixed request. */
  lemma RefinementQuotes(previous: string, instruction: string)
    ensures var p := RefinementPrompt(previous, instruction);
      var i := |RefinementHead| + |previous| + |RefinementMiddle|;
      && |p| == i + |instruction| + |RefinementTail|
      && p[..|RefinementHead|] == RefinementHead
      && p[|RefinementHead|..|RefinementHead| + |previous|] == previous
      && p[i..i + |instruction|] == instruction
      && p[i + |instruction|..] == RefinementTail
  {
  }

  /** The mode, from the selected tool, the refinement text passed in, the result shown
      when the handler was called, and the tool's template applied to the context. */
  function ChooseMode(tool: Option<ToolDef>, refinePrompt: Option<string>, result: Option<string>, templatePrompt: string): (m: Mode)
    ensures m.Ignore? <==> tool.None?
    ensures m.OpenSimulator? <==> tool.Some? && tool.value.isVoice && !Truthy(refinePrompt)
    ensures m.Generate? && Truthy(refinePrompt) && Truthy(result) ==>
      m.prompt == RefinementPrompt(result.value, refinePrompt.value)
    ensures m.Generate? && !(Truthy(refinePrompt) && Truthy(result)) ==> m.prompt == templatePrompt
  {
    if tool.None? then Ignore
    else if tool.value.isVoice && !Truthy(refinePrompt) then OpenSimulator
    else if Truthy(refinePrompt) && Truthy(result) then Generate(RefinementPrompt(result.value, refinePrompt.value))
    else Generate(templatePrompt)
  }

  /** The Send button is enabled when no generation runs and the trimmed input is not empty. */
  predicate CanSend(isGenerating: bool, refinementInput: string) {
    !isGenerating && Text.Trim(refinementInput) != ""
  }

  /** `handleGenerate` with a non-empty refine text and a shown result always refines that
      result, whatever the selected tool. (The page renders the refine input and its Send
      button only for tools that are not voice tools.) */
  lemma SendRefines(tool: ToolDef, refinementInput: string, result: Option<string>, templatePrompt: string)
    requires CanSend(false, refinementInput) && Truthy(result)
    ensures ChooseMode(Some(tool), Some(refinementInput), result, templatePrompt) ==
      Generate(RefinementPrompt(result.value, refinementInput))
  {
  }

  const ErrorNote: string := "\n\n[Error generating response. Please check API key.]"

  // ---------------------------------------------------------------- the export file name

  /** `replace(/\s+/g, '_')`: each maximal run of white space becomes one underscore. */
  function Underscored(s: string): (r: string)
    ensures Text.NoSpace(r)
    ensures |r| <= |s|
    decreases |s|
  {
    if s == [] then []
    else if Text.IsSpace(s[0]) then
      var rest := Text.TrimStart(s);
      "_" + Underscored(rest)
    else [s[0]] + Underscored(s[1..])
  }

  /** A name without white space is kept as it is. */
  lemma {:induction false} UnderscoredKeeps(s: string)
    requires Text.NoSpace(s)
    ensures Underscored(s) == s
    decreases |s|
  {
    if s != [] {
      UnderscoredKeeps(s[1..]);
      assert s == [s[0]] + s[1..];
    }
  }

  /** A word, a run of white space and the rest: the run becomes exactly one underscore. */
  lemma {:induction false} UnderscoredRun(word: string, run: string, rest: string)
    requires Text.NoSpace(word)
    requires run != [] && forall i :: 0 <= i < |run| ==> Text.IsSpace(run[i])
    requires rest == [] || !Text.IsSpace(rest[0])
    ensures Underscored(word + run + rest) == word + "_" + Underscored(rest)
    decreases |word|
  {
    var s := word + run + rest;
    if word == [] {
      assert s == run + rest && s[0] == run[0];
      TrimStartRun(run, rest);
      assert Underscored(s) == "_" + Underscored(rest);
      assert word + "_" == "_";
    } else {
      assert s[0] == word[0] && !Text.IsSpace(word[0]);
      assert s[1..] == word[1..] + run + rest;
      assert Underscored(s) == [word[0]] + Underscored(s[1..]);
      Text.NoSpaceTail(word);
      UnderscoredRun(word[1..], run, rest);
      assert word + "_" + Underscored(rest) == [word[0]] + (word[1..] + "_" + Underscored(rest));
    }
  }

  lemma {:induction false} TrimStartRun(run: string, rest: string)
    requires forall i :: 0 <= i < |run| ==> Text.IsSpace(run[i])
    requires rest == [] || !Text.IsSpace(rest[0])
    ensures Text.TrimStart(run + rest) == rest
    decreases |run|
  {
    if run != [] {
      assert (run + rest)[1..] == run[1..] + rest;
      TrimStartRun(run[1..], rest);
    } else {
      assert run + rest == rest;
    }
  }

  /** The name `handleDownload` gives the exported file. */
  function ExportFileName(toolName: string): (r: string)
    ensures Text.NoSpace(r)
    ensures |r| >= 12 && r[|r| - 12..] == "_Strategy.md"
  {
    Underscored(toolName) + "_Strategy.md"
  }

  /** `handleDownload`: the file name and contents, when a tool is selected and a result is
      shown; nothing otherwise. */
  function Download(result: Option<string>, tool: Option<ToolDef>): (r: Option<(string, string)>)
    ensures r.Some? <==> Truthy(result) && tool.Some?
    ensures r.Some? ==> r.value == (ExportFileName(tool.value.name), result.value)
  {
    if !Truthy(result) || tool.None? then None else Some((ExportFileName(tool.value.name), result.value))
  }

  // ---------------------------------------------------------------- the page

  /** What the page does outside its own state. Sources and the audio context are named
      by number. `StreamTextCall` and `GenerateSpeechCall` are calls of the service
      functions, which make no request on the network without a key. */
  datatype Effect =
    | StopSource(stopped: nat)
    | StartSource(started: nat)
    | CreateAudioContext(context: nat)
    | StreamTextCall(prompt: string, systemInstruction: string)
    | GenerateSpeechCall(text: string)
    | Alert(message: string)
    | CopyText(copied: string)
    | SaveFile(fileName: string, contents: string)

  const AudioAlert: string := "Could not generate audio. Please try a shorter text."

  /** `result.substring(0, 4000)`: the text that is read aloud, 4000 UTF-16 code units
      at most, cut only where the next character would not fit. */
  function SpeechText(s: string): (r: string)
    ensures r <= s && Text.Utf16Length(r) <= 4000
    ensures Text.Utf16Length(s) <= 4000 ==> r == s
    ensures |r| < |s| ==> 3999 <= Text.Utf16Length(r) && Text.Utf16Length(r) + Text.CodeUnits(s[|r|]) > 4000
  {
    Text.Substring(s, 4000)
  }

  /** What the work area shows after the stream: the last total `onChunk` set, or the
      empty string the handler set before streaming. */
  function LastShown(reported: seq<string>): string {
    if reported == [] then "" else reported[|reported| - 1]
  }

  /** The effect of `stopAudio`: the current source is stopped, if there is one. */
  function StopEffect(source: Option<nat>): seq<Effect> {
    if source.Some? then [StopSource(source.value)] else []
  }

  /** The page's state variables and refs. */
  datatype PageState = PageState(
    selectedTool: Option<ToolDef>,
    isGenerating: bool,
    result: Option<string>,
    showVoiceSim: bool,
    isCopied: bool,
    isPlaying: bool,
    isSynthesizing: bool,
    audioContext: Option<nat>,
    source: Option<nat>,
    allHistory: seq<GeneratedResult>,
    refinementInput: string,
    nextHandle: nat)

  /** Whether read-aloud ends up playing: speech was returned, it decodes from base64, and
      the browser's decoder accepts the bytes. */
  function ListenPlays(apiKey: Option<string>, call: Gemini.Call<Option<seq<Gemini.Candidate>>>, decodes: seq<Pcm.byte> -> bool): bool {
    var speech := Gemini.GenerateSpeech(apiKey, call);
    speech.Ok? && Decodes(speech.value, decodes)
  }

  /** The speech audio decodes from base64 and the browser's decoder accepts its bytes. */
  function Decodes(base64Audio: string, decodes: seq<Pcm.byte> -> bool): bool {
    Base64.Atob(base64Audio).Some? && decodes(Pcm.CharCodes(Base64.Atob(base64Audio).value))
  }

  class DashboardPage {
    var selectedTool: Option<ToolDef>
    var isGenerating: bool
    var result: Option<string>
    var showVoiceSim: bool
    var isCopied: bool
    var isPlaying: bool
    var isSynthesizing: bool
    var audioContext: Option<nat>
    var source: Option<nat>
    var allHistory: seq<GeneratedResult>
    var refinementInput: string
    var nextHandle: nat
    var effects: seq<Effect>

    function State(): PageState
      reads this
    {
      PageState(selectedTool, isGenerating, result, showVoiceSim, isCopied, isPlaying, isSynthesizing,
                audioContext, source, allHistory, refinementInput, nextHandle)
    }

    /** Between events: nothing is generating or synthesising, playing implies a current
        source, and every handle handed out is below `nextHandle`. */
    ghost predicate Valid()
      reads this
    {
      && !isGenerating && !isSynthesizing
      && (isPlaying ==> source.Some?)
      && (source.Some? ==> audioContext.Some? && source.value < nextHandle)
      && (audioContext.Some? ==> audioContext.value < nextHandle)
    }

    constructor ()
      ensures Valid()
      ensures State() == PageState(None, false, None, false, false, false, false, None, None, [], "", 0)
      ensures effects == []
    {
      selectedTool := None;
      isGenerating := false;
      result := None;
      showVoiceSim := false;
      isCopied := false;
      isPlaying := false;
      isSynthesizing := false;
      audioContext := None;
      source := None;
      allHistory := [];
      refinementInput := "";
      nextHandle := 0;
      effects := [];
    }

    /** `loadHistory`: the full history, newest first; a rejection leaves it as it was. */
    method LoadHistory(store: Storage.Database) returns (r: Result<(), Storage.StoreError>)
      requires Valid() && store.Valid()
      modifies this
      ensures Valid()
      ensures store.supported ==> (
        && r.Ok?
        && multiset(allHistory) == multiset(store.history) && Storage.NewestFirst(allHistory)
        && State() == old(State()).(allHistory := allHistory))
      ensures !store.supported ==> r == Err(Storage.NotSupported) && State() == old(State())
      ensures effects == old(effects)
    {
      var h := store.GetHistory();
      if h.Err? {
        return Err(h.error);
      }
      allHistory := h.value;
      return Ok(());
    }

    /** `stopAudio`: stop and forget the current source, then mark playback off. Calling it
        again stops nothing more. */
    method StopAudio()
      modifies this
      ensures State() == old(State()).(source := None, isPlaying := false)
      ensures effects == old(effects) + StopEffect(old(source))
    {
      if source.Some? {
        effects := effects + [StopSource(source.value)];
        source := None;
      }
      isPlaying := false;
    }

    /** `handleToolClick`: playback stops and the work area is reset for the new tool. */
    method HandleToolClick(tool: ToolDef)
      requires Valid()
      modifies this
      ensures Valid()
      ensures State() == old(State()).(source := None, isPlaying := false, selectedTool := Some(tool),
        result := None, refinementInput := "", isCopied := false, showVoiceSim := false)
      ensures effects == old(effects) + StopEffect(old(source))
    {
      StopAudio();
      selectedTool := Some(tool);
      result := None;
      refinementInput := "";
      isCopied := false;
      showVoiceSim := false;
    }

    /** `handleLoadHistoryItem`: playback stops and the stored content is shown. */
    method HandleLoadHistoryItem(content: string)
      requires Valid()
      modifies this
      ensures Valid()
      ensures State() == old(State()).(source := None, isPlaying := false, result := Some(content))
      ensures effects == old(effects) + StopEffect(old(source))
    {
      StopAudio();
      result := Some(content);
    }

    /** The Back button. */
    method Back()
      requires Valid()
      modifies this
      ensures Valid()
      ensures State() == old(State()).(result := None) && effects == old(effects)
    {
      result := None;
    }

    /** Typing in the refinement input. */
    method SetRefinementInput(text: string)
      requires Valid()
      modifies this
      ensures Valid()
      ensures State() == old(State()).(refinementInput := text) && effects == old(effects)
    {
      refinementInput := text;
    }

    /** The simulator's `onClose`. */
    method CloseSimulator()
      requires Valid()
      modifies this
      ensures Valid()
      ensures State() == old(State()).(showVoiceSim := false) && effects == old(effects)
    {
      showVoiceSim := false;
    }

    /** `handleCopy`: a shown result goes to the clipboard and the button says Copied. */
    method HandleCopy()
      requires Valid()
      modifies this
      ensures Valid()
      ensures Truthy(old(result)) ==>
        State() == old(State()).(isCopied := true) && effects == old(effects) + [CopyText(old(result).value)]
      ensures !Truthy(old(result)) ==> State() == old(State()) && effects == old(effects)
    {
      if Truthy(result) {
        effects := effects + [CopyText(result.value)];
        isCopied := true;
      }
    }

    /** The timer `handleCopy` sets, two seconds later. */
    method CopiedTimeout()
      requires Valid()
      modifies this
      ensures Valid()
      ensures State() == old(State()).(isCopied := false) && effects == old(effects)
    {
      isCopied := false;
    }

    /** `handleDownload`: the shown result is saved under the tool's export name. */
    method HandleDownload()
      requires Valid()
      modifies this
      ensures Valid()
      ensures State() == old(State())
      ensures var d := Download(old(result), old(selectedTool));
        effects == old(effects) + (if d.Some? then [SaveFile(d.value.0, d.value.1)] else [])
    {
      var d := Download(result, selectedTool);
      if d.Some? {
        effects := effects + [SaveFile(d.value.0, d.value.1)];
      }
    }

    /** `handleGenerate`. Without a selected tool nothing happens. Otherwise playback stops;
        a voice tool without a refinement opens the simulator; anything else streams from
        the chosen prompt into the shown result, saves the final text as a new history
        record (`Date.now()` is the clock input, read once for the id and once for the
        timestamp) and reloads the history. A failure anywhere in the stream, the save or
        the reload appends the error note to what is shown at that moment, which is the
        last streamed total and not the result shown before. */
    method HandleGenerate(refinePrompt: Option<string>, templatePrompt: string, apiKey: Option<string>,
                          stream: Gemini.Stream, idClock: nat, timestamp: int, store: Storage.Database)
      requires Valid() && store.Valid()
      modifies this, store
      ensures Valid() && store.Valid()
      ensures store.contexts == old(store.contexts)
      ensures var m := ChooseMode(old(selectedTool), refinePrompt, old(result), templatePrompt);
        && (m.Ignore? ==> State() == old(State()) && effects == old(effects) && store.history == old(store.history))
        && (m.OpenSimulator? ==>
              && State() == old(State()).(source := None, isPlaying := false, showVoiceSim := true)
              && effects == old(effects) + StopEffect(old(source))
              && store.history == old(store.history))
        && (m.Generate? ==>
              effects == old(effects) + StopEffect(old(source)) +
                [StreamTextCall(m.prompt, old(selectedTool).value.systemInstruction)])
      ensures var m := ChooseMode(old(selectedTool), refinePrompt, old(result), templatePrompt);
        var out := Gemini.StreamOutcome(apiKey, stream);
        var base := old(State()).(source := None, isPlaying := false, isCopied := false);
        m.Generate? && out.Err? ==>
          && State() == base.(result := Some(LastShown(Gemini.StreamReports(apiKey, stream)) + ErrorNote))
          && store.history == old(store.history)
      ensures var m := ChooseMode(old(selectedTool), refinePrompt, old(result), templatePrompt);
        var out := Gemini.StreamOutcome(apiKey, stream);
        var base := old(State()).(source := None, isPlaying := false, isCopied := false);
        m.Generate? && out.Ok? ==>
          var record := GeneratedResult(Text.NatToString(idClock), old(selectedTool).value.id, timestamp, out.value);
          if store.supported && record.id !in Storage.IdsOf(old(store.history)) then
            && State() == base.(result := Some(out.value), allHistory := allHistory, refinementInput := "")
            && multiset(store.history) == multiset(old(store.history)) + multiset{record}
            && multiset(allHistory) == multiset(store.history) && Storage.NewestFirst(allHistory)
          else
            && State() == base.(result := Some(out.value + ErrorNote))
            && store.history == old(store.history)
    {
      var mode := ChooseMode(selectedTool, refinePrompt, result, templatePrompt);
      if mode.Ignore? {
        return;
      }
      StopAudio();
      if mode.OpenSimulator? {
        showVoiceSim := true;
        return;
      }
      ghost var stopped := State();
      assert stopped.(isCopied := false, isGenerating := false) ==
        old(State()).(source := None, isPlaying := false, isCopied := false);
      RunGeneration(mode.prompt, selectedTool.value, apiKey, stream, idClock, timestamp, store);
    }

    /** The generating part of `handleGenerate`, from `setIsGenerating(true)` to the
        `finally`. */
    method RunGeneration(prompt: string, tool: ToolDef, apiKey: Option<string>,
                         stream: Gemini.Stream, idClock: nat, timestamp: int, store: Storage.Database)
      requires store.Valid()
      modifies this, store
      ensures store.Valid() && store.contexts == old(store.contexts)
      ensures effects == old(effects) + [StreamTextCall(prompt, tool.systemInstruction)]
      ensures var out := Gemini.StreamOutcome(apiKey, stream);
        var base := old(State()).(isCopied := false, isGenerating := false);
        out.Err? ==>
          && State() == base.(result := Some(LastShown(Gemini.StreamReports(apiKey, stream)) + ErrorNote))
          && store.history == old(store.history)
      ensures var out := Gemini.StreamOutcome(apiKey, stream);
        var base := old(State()).(isCopied := false, isGenerating := false);
        out.Ok? ==>
          var record := GeneratedResult(Text.NatToString(idClock), tool.id, timestamp, out.value);
          if store.supported && record.id !in Storage.IdsOf(old(store.history)) then
            && State() == base.(result := Some(out.value), allHistory := allHistory, refinementInput := "")
            && multiset(store.history) == multiset(old(store.history)) + multiset{record}
            && multiset(allHistory) == multiset(store.history) && Storage.NewestFirst(allHistory)
          else
            && State() == base.(result := Some(out.value + ErrorNote))
            && store.history == old(store.history)
    {
      BeginGeneration(prompt, tool.systemInstruction);
      var finalContent := StreamResult(apiKey, stream);
      if finalContent.Err? {
        FailGeneration();
        return;
      }
      Gemini.LastReportIsResult(apiKey, stream);
      var record := GeneratedResult(Text.NatToString(idClock), tool.id, timestamp, finalContent.value);
      var saved := store.SaveResult(record);
      if saved.Err? {
        FailGeneration();
        return;
      }
      assert store.supported && record.id !in Storage.IdsOf(old(store.history));
      ghost var shown := State();
      assert shown == old(State()).(isCopied := false, isGenerating := true, result := Some(finalContent.value));
      var h := store.GetHistory();
      FinishGeneration(h.value);
    }

    /** `setAllHistory(updatedHistory)`, the cleared refinement input and the `finally`. */
    method FinishGeneration(updatedHistory: seq<GeneratedResult>)
      modifies this
      ensures State() == old(State()).(isGenerating := false, allHistory := updatedHistory, refinementInput := "")
      ensures effects == old(effects)
    {
      allHistory := updatedHistory;
      refinementInput := "";
      isGenerating := false;
    }

    /** The start of a generation: the spinner is on, Copied is cleared, `streamText` is
        called and the shown result is emptied. The service makes no request without a key. */
    method BeginGeneration(prompt: string, systemInstruction: string)
      modifies this
      ensures State() == old(State()).(isGenerating := true, isCopied := false, result := Some(""))
      ensures effects == old(effects) + [StreamTextCall(prompt, systemInstruction)]
    {
      isGenerating := true;
      isCopied := false;
      effects := effects + [StreamTextCall(prompt, systemInstruction)];
      result := Some("");
    }

    /** `streamText` with `onChunk` setting the shown result: after it, the last total. */
    method StreamResult(apiKey: Option<string>, stream: Gemini.Stream) returns (r: Result<string, Gemini.Failure>)
      modifies this
      ensures r == Gemini.StreamOutcome(apiKey, stream)
      ensures State() == old(State()).(result := Some(LastShown(Gemini.StreamReports(apiKey, stream))))
      ensures effects == old(effects)
    {
      var reported;
      r, reported := Gemini.StreamText(apiKey, stream);
      result := Some(LastShown(reported));
    }

    /** The handler's `catch` and `finally`: the note is appended to what is shown. */
    method FailGeneration()
      modifies this
      ensures State() == old(State()).(isGenerating := false, result := Some(old(result).GetOr("") + ErrorNote))
      ensures effects == old(effects)
    {
      result := Some(result.GetOr("") + ErrorNote);
      isGenerating := false;
    }

    /** `handleListen`: while playing, only stop. Otherwise, with a result shown, ask for
        speech of its first 4000 characters, create the audio context on first use, decode
        the answer and start a new source; any failure on the way ends in the alert. */
    method HandleListen(apiKey: Option<string>, call: Gemini.Call<Option<seq<Gemini.Candidate>>>,
                        decodes: seq<Pcm.byte> -> bool)
      requires Valid()
      modifies this
      ensures Valid()
      ensures old(isPlaying) ==>
        State() == old(State()).(source := None, isPlaying := false) && effects == old(effects) + StopEffect(old(source))
      ensures !old(isPlaying) && !Truthy(old(result)) ==> State() == old(State()) && effects == old(effects)
      ensures !old(isPlaying) && Truthy(old(result)) ==>
        var called := old(effects) + [GenerateSpeechCall(SpeechText(old(result).value))];
        Gemini.GenerateSpeech(apiKey, call).Err? ==>
          State() == old(State()) && effects == called + [Alert(AudioAlert)]
      ensures !old(isPlaying) && Truthy(old(result)) ==>
        var called := old(effects) + [GenerateSpeechCall(SpeechText(old(result).value))];
        var created := old(audioContext).None?;
        var ctx := if created then [CreateAudioContext(old(nextHandle))] else [];
        var withCtx := if created then old(State()).(audioContext := Some(old(nextHandle)), nextHandle := old(nextHandle) + 1)
                       else old(State());
        Gemini.GenerateSpeech(apiKey, call).Ok? ==>
          if ListenPlays(apiKey, call, decodes) then
            && State() == withCtx.(source := Some(withCtx.nextHandle), nextHandle := withCtx.nextHandle + 1, isPlaying := true)
            && effects == called + ctx + [StartSource(withCtx.nextHandle)]
          else
            State() == withCtx && effects == called + ctx + [Alert(AudioAlert)]
    {
      if isPlaying {
        StopAudio();
        return;
      }
      if !Truthy(result) {
        return;
      }
      RequestSpeech(result.value, apiKey, call, decodes);
    }

    /** The `try` of `handleListen`, from `setIsSynthesizing(true)` on. */
    method RequestSpeech(text: string, apiKey: Option<string>, call: Gemini.Call<Option<seq<Gemini.Candidate>>>,
                         decodes: seq<Pcm.byte> -> bool)
      requires !isSynthesizing
      modifies this
      ensures var called := old(effects) + [GenerateSpeechCall(SpeechText(text))];
        Gemini.GenerateSpeech(apiKey, call).Err? ==>
          State() == old(State()) && effects == called + [Alert(AudioAlert)]
      ensures var called := old(effects) + [GenerateSpeechCall(SpeechText(text))];
        var created := old(audioContext).None?;
        var ctx := if created then [CreateAudioContext(old(nextHandle))] else [];
        var withCtx := if created then old(State()).(audioContext := Some(old(nextHandle)), nextHandle := old(nextHandle) + 1)
                       else old(State());
        Gemini.GenerateSpeech(apiKey, call).Ok? ==>
          if ListenPlays(apiKey, call, decodes) then
            && State() == withCtx.(source := Some(withCtx.nextHandle), nextHandle := withCtx.nextHandle + 1, isPlaying := true)
            && effects == called + ctx + [StartSource(withCtx.nextHandle)]
          else
            State() == withCtx && effects == called + ctx + [Alert(AudioAlert)]
    {
      isSynthesizing := true;
      effects := effects + [GenerateSpeechCall(SpeechText(text))];
      var base64Audio := Gemini.GenerateSpeech(apiKey, call);
      if base64Audio.Err? {
        ListenFailed();
        return;
      }
      PlaySpeech(base64Audio.value, decodes);
    }

    /** The part of `handleListen` after the speech arrived. */
    method PlaySpeech(base64Audio: string, decodes: seq<Pcm.byte> -> bool)
      modifies this
      ensures var created := old(audioContext).None?;
        var ctx := if created then [CreateAudioContext(old(nextHandle))] else [];
        var withCtx := if created then old(State()).(audioContext := Some(old(nextHandle)), nextHandle := old(nextHandle) + 1)
                       else old(State());
        if Decodes(base64Audio, decodes) then
          && State() == withCtx.(source := Some(withCtx.nextHandle), nextHandle := withCtx.nextHandle + 1,
                                 isPlaying := true, isSynthesizing := false)
          && effects == old(effects) + ctx + [StartSource(withCtx.nextHandle)]
        else
          State() == withCtx.(isSynthesizing := false) && effects == old(effects) + ctx + [Alert(AudioAlert)]
    {
      EnsureAudioContext();
      DecodeAndStart(base64Audio, decodes);
    }

    /** `if (!audioContextRef.current) audioContextRef.current = new AudioCtx()`. */
    method EnsureAudioContext()
      modifies this
      ensures old(audioContext).None? ==>
        && State() == old(State()).(audioContext := Some(old(nextHandle)), nextHandle := old(nextHandle) + 1)
        && effects == old(effects) + [CreateAudioContext(old(nextHandle))]
      ensures old(audioContext).Some? ==> State() == old(State()) && effects == old(effects)
    {
      if audioContext.None? {
        audioContext := Some(nextHandle);
        effects := effects + [CreateAudioContext(nextHandle)];
        nextHandle := nextHandle + 1;
      }
    }

    /** `decode`, `decodeAudioData` and starting a new source. */
    method DecodeAndStart(base64Audio: string, decodes: seq<Pcm.byte> -> bool)
      modifies this
      ensures Decodes(base64Audio, decodes) ==>
        && State() == old(State()).(source := Some(old(nextHandle)), nextHandle := old(nextHandle) + 1,
                                    isPlaying := true, isSynthesizing := false)
        && effects == old(effects) + [StartSource(old(nextHandle))]
      ensures !Decodes(base64Audio, decodes) ==>
        State() == old(State()).(isSynthesizing := false) && effects == old(effects) + [Alert(AudioAlert)]
    {
      var binaryString := Base64.Atob(base64Audio);
      if binaryString.None? {
        ListenFailed();
        return;
      }
      var audioData := Pcm.ToBytes(binaryString.value);
      if !decodes(audioData[..]) {
        ListenFailed();
        return;
      }
      StartPlayback();
    }

    /** A new buffer source started on the decoded audio, and the `finally`. */
    method StartPlayback()
      modifies this
      ensures State() == old(State()).(source := Some(old(nextHandle)), nextHandle := old(nextHandle) + 1,
                                       isPlaying := true, isSynthesizing := false)
      ensures effects == old(effects) + [StartSource(old(nextHandle))]
    {
      source := Some(nextHandle);
      effects := effects + [StartSource(nextHandle)];
      nextHandle := nextHandle + 1;
      isPlaying := true;
      isSynthesizing := false;
    }

    /** The handler's `catch` and `finally`. */
    method ListenFailed()
      modifies this
      ensures State() == old(State()).(isSynthesizing := false)
      ensures effects == old(effects) + [Alert(AudioAlert)]
    {
      effects := effects + [Alert(AudioAlert)];
      isSynthesizing := false;
    }

    /** The source's `onended`: playback is marked off, whichever source ended; the ref
        keeps the ended source. */
    method OnEnded()
      requires Valid()
      modifies this
      ensures Valid()
      ensures State() == old(State()).(isPlaying := false) && effects == old(effects)
    {
      isPlaying := false;
    }
  }
}
