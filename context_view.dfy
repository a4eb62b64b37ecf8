/** The context page, pages/ContextView.tsx: the stored business context, its edit form,
    and the saved history with one expandable entry at a time. The tool catalogue and the
    set of icon names the icon library knows are inputs; `window.confirm` is an input. */
module ContextView {
  import opened Wrappers
  import opened Types
  import Storage

  // ---------------------------------------------------------------- catalogue lookups

  /** The index of the first tool with id `toolId` at or after `from`. */
  function FindFrom(tools: seq<ToolDef>, toolId: string, from: nat): (r: Option<nat>)
    requires from <= |tools|
    ensures r.Some? ==> from <= r.value < |tools| && tools[r.value].id == toolId
    ensures r.Some? ==> forall k :: from <= k < r.value ==> tools[k].id != toolId
    ensures r.None? ==> forall k :: from <= k < |tools| ==> tools[k].id != toolId
    decreases |tools| - from
  {
    if from == |tools| then None
    else if tools[from].id == toolId then Some(from)
    else FindFrom(tools, toolId, from + 1)
  }

  /** `TOOLS.find(t => t.id === toolId)`: the first tool with that id. */
  function Find(tools: seq<ToolDef>, toolId: string): (r: Option<nat>)
    ensures r.Some? ==> r.value < |tools| && tools[r.value].id == toolId
    ensures r.Some? ==> forall k :: 0 <= k < r.value ==> tools[k].id != toolId
    ensures r.None? ==> forall k :: 0 <= k < |tools| ==> tools[k].id != toolId
  {
    FindFrom(tools, toolId, 0)
  }

  const UnknownTool: string := "Unknown Tool"
  const FallbackIcon: string := "FileText"

  /** `getToolName`: the first matching tool's name, or 'Unknown Tool' when there is no
      match or that name is empty. */
  function GetToolName(tools: seq<ToolDef>, toolId: string): (r: string)
    ensures r != ""
    ensures (forall k :: 0 <= k < |tools| ==> tools[k].id != toolId) ==> r == UnknownTool
    ensures forall k :: 0 <= k < |tools| && tools[k].id == toolId && (forall j :: 0 <= j < k ==> tools[j].id != toolId) ==>
      r == (if tools[k].name != "" then tools[k].name else UnknownTool)
  {
    var found := Find(tools, toolId);
    if found.Some? && tools[found.value].name != "" then tools[found.value].name else UnknownTool
  }

  /** `getToolIcon`: the icon named by the first matching tool (or 'FileText' when there is
      none or its name is empty), rendered as FileText when the library has no such icon. */
  function GetToolIcon(tools: seq<ToolDef>, toolId: string, knownIcons: set<string>): (r: string)
    ensures r in knownIcons || r == FallbackIcon
    ensures (forall k :: 0 <= k < |tools| ==> tools[k].id != toolId) ==> r == FallbackIcon
    ensures forall k :: 0 <= k < |tools| && tools[k].id == toolId && (forall j :: 0 <= j < k ==> tools[j].id != toolId) ==>
      r == (if tools[k].icon != "" && tools[k].icon in knownIcons then tools[k].icon else FallbackIcon)
  {
    var found := Find(tools, toolId);
    var iconName := if found.Some? && tools[found.value].icon != "" then tools[found.value].icon else FallbackIcon;
    if iconName in knownIcons then iconName else FallbackIcon
  }

  // ---------------------------------------------------------------- the expanded entry

  /** A click on entry `id`: it closes when it was the open one, and opens otherwise
      (closing whichever was open). */
  function Toggle(expandedId: Option<string>, id: string): (r: Option<string>)
    ensures r == Some(id) <==> expandedId != Some(id)
    ensures r != Some(id) ==> r == None
  {
    if expandedId == Some(id) then None else Some(id)
  }

  predicate Expanded(expandedId: Option<string>, item: GeneratedResult) {
    expandedId == Some(item.id)
  }

  /** Clicking the same entry twice restores the state when nothing else was open; when
      another entry was open, the two clicks leave everything closed. */
  lemma ToggleTwice(expandedId: Option<string>, id: string)
    ensures expandedId == None || expandedId == Some(id) ==> Toggle(Toggle(expandedId, id), id) == expandedId
    ensures expandedId.Some? && expandedId != Some(id) ==> Toggle(Toggle(expandedId, id), id) == None
    ensures Toggle(Toggle(expandedId, id), id) != Some(id) || expandedId == Some(id)
  {
  }

  /** Entries have distinct ids (they are store keys), so at most one is expanded. */
  lemma AtMostOneExpanded(history: seq<GeneratedResult>, expandedId: Option<string>)
    requires forall i, j :: 0 <= i < j < |history| ==> history[i].id != history[j].id
    ensures forall i, j ::
      0 <= i < |history| && 0 <= j < |history| && Expanded(expandedId, history[i]) && Expanded(expandedId, history[j])
      ==> i == j
  {
  }

  // ---------------------------------------------------------------- the edit form

  /** The six inputs of the edit form. */
  datatype Field = Name | Niche | TargetAudience | CoreOfferIdea | PricePointTarget | CurrentStruggle

  function FieldValue(form: BusinessContext, f: Field): string {
    match f
    case Name => form.name
    case Niche => form.niche
    case TargetAudience => form.targetAudience
    case CoreOfferIdea => form.coreOfferIdea
    case PricePointTarget => form.pricePointTarget
    case CurrentStruggle => form.currentStruggle
  }

  /** `setEditForm({...editForm, <field>: value})`: that field takes the value, every other
      field and the id are kept. */
  function WithField(form: BusinessContext, f: Field, value: string): (r: BusinessContext)
    ensures FieldValue(r, f) == value
    ensures forall g :: g != f ==> FieldValue(r, g) == FieldValue(form, g)
    ensures r.id == form.id
  {
    match f
    case Name => form.(name := value)
    case Niche => form.(niche := value)
    case TargetAudience => form.(targetAudience := value)
    case CoreOfferIdea => form.(coreOfferIdea := value)
    case PricePointTarget => form.(pricePointTarget := value)
    case CurrentStruggle => form.(currentStruggle := value)
  }

  /** Edits to different fields do not interfere, and a second edit of the same field
      overrides the first. */
  lemma EditsCommute(form: BusinessContext, f: Field, v: string, g: Field, w: string)
    ensures f != g ==> WithField(WithField(form, f, v), g, w) == WithField(WithField(form, g, w), f, v)
    ensures WithField(WithField(form, f, v), f, w) == WithField(form, f, w)
  {
  }

  // ---------------------------------------------------------------- the page

  datatype Effect = Reload

  class ContextViewPage {
    const context: BusinessContext
    var history: seq<GeneratedResult>
    var expandedId: Option<string>
    var isEditing: bool
    var editForm: BusinessContext
    var effects: seq<Effect>

    constructor (context: BusinessContext)
      ensures this.context == context && history == [] && expandedId == None
      ensures !isEditing && editForm == context && effects == []
    {
      this.context := context;
      history := [];
      expandedId := None;
      isEditing := false;
      editForm := context;
      effects := [];
    }

    /** On mount: `getHistory().then(setHistory)`; a rejection leaves the list empty. */
    method LoadHistory(store: Storage.Database)
      requires store.Valid()
      modifies this
      ensures store.supported ==> multiset(history) == multiset(store.history) && Storage.NewestFirst(history)
      ensures !store.supported ==> history == old(history)
      ensures expandedId == old(expandedId) && isEditing == old(isEditing) && editForm == old(editForm)
      ensures effects == old(effects)
    {
      var h := store.GetHistory();
      if h.Ok? {
        history := h.value;
      }
    }

    /** A click on an entry's header. */
    method ClickItem(id: string)
      modifies this
      ensures expandedId == Toggle(old(expandedId), id)
      ensures history == old(history) && isEditing == old(isEditing) && editForm == old(editForm)
      ensures effects == old(effects)
    {
      expandedId := Toggle(expandedId, id);
    }

    /** `handleDelete`: only after confirmation; the record is deleted and the list is
        reloaded from the store. */
    method HandleDelete(id: string, confirmed: bool, store: Storage.Database)
      requires store.Valid()
      modifies this, store
      ensures store.Valid() && store.contexts == old(store.contexts)
      ensures !confirmed || !store.supported ==> history == old(history) && store.history == old(store.history)
      ensures confirmed && store.supported ==>
        && (forall x :: x in store.history <==> x in old(store.history) && x.id != id)
        && multiset(history) == multiset(store.history) && Storage.NewestFirst(history)
      ensures expandedId == old(expandedId) && isEditing == old(isEditing) && editForm == old(editForm)
      ensures effects == old(effects)
    {
      if !confirmed {
        return;
      }
      var deleted := store.DeleteResult(id);
      if deleted.Err? {
        return;
      }
      var updatedHistory := store.GetHistory();
      history := updatedHistory.value;
    }

    /** The Edit Context button. */
    method StartEditing()
      modifies this
      ensures isEditing && editForm == old(editForm)
      ensures history == old(history) && expandedId == old(expandedId) && effects == old(effects)
    {
      isEditing := true;
    }

    /** Typing in one input of the edit form. */
    method Edit(f: Field, value: string)
      modifies this
      ensures editForm == WithField(old(editForm), f, value)
      ensures isEditing == old(isEditing) && history == old(history) && expandedId == old(expandedId)
      ensures effects == old(effects)
    {
      editForm := WithField(editForm, f, value);
    }

    /** Cancel: leave edit mode and drop the edits. */
    method Cancel()
      modifies this
      ensures !isEditing && editForm == context
      ensures history == old(history) && expandedId == old(expandedId) && effects == old(effects)
    {
      isEditing := false;
      editForm := context;
    }

    /** `handleSaveEdit`: the edited context replaces the stored one, then the page leaves
        edit mode and reloads. When the save rejects, nothing after it happens. */
    method HandleSaveEdit(store: Storage.Database)
      requires store.Valid()
      modifies this, store
      ensures store.Valid() && store.history == old(store.history)
      ensures store.supported ==> store.contexts == [old(editForm)] && !isEditing && effects == old(effects) + [Reload]
      ensures !store.supported ==>
        store.contexts == old(store.contexts) && isEditing == old(isEditing) && effects == old(effects)
      ensures editForm == old(editForm) && history == old(history) && expandedId == old(expandedId)
    {
      var saved := store.SaveContext(editForm);
      if saved.Err? {
        return;
      }
      isEditing := false;
      effects := effects + [Reload];
    }
  }
}
