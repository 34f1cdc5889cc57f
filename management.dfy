/** `Bancha.grid.ManagementPanel`: a tab panel with one scaffolded grid per
    model, whose buttons and delete column follow what the model's proxy
    can do. */
module Management {
  import opened Values
  import opened Naming
  import opened Schema
  import opened Defaults

  /** An entry of the `models` config: a model class name or a model class. */
  datatype ModelEntry = Named(name: string) | ModelClass(model: ModelInfo)

  /** The `models` config: an array, some other truthy value, or a falsy one. */
  datatype ModelsConfig = ModelList(entries: seq<ModelEntry>) | NotArray(entry: ModelEntry) | Falsy

  /** The class name of an entry: the string itself, or `model.getName()`. */
  function EntryName(entry: ModelEntry): string
  {
    match entry
    case Named(n) => n
    case ModelClass(m) => m.name
  }

  /** The models `Ext.each` walks: an array's entries, a single non-array
      value as a one-entry list, nothing for a falsy config. */
  function Entries(models: ModelsConfig): (entries: seq<ModelEntry>)
    ensures models.ModelList? ==> entries == models.entries
    ensures models.NotArray? ==> entries == [models.entry]
    ensures models.Falsy? ==> entries == []
  {
    match models
    case ModelList(es) => es
    case NotArray(e) => [e]
    case Falsy => []
  }

  // ---------------------------------------------------------------------------
  // One tab

  /** The buttons of a model behind an Ext.Direct api: the spacer, `create`
      when the api can create, `reset` and `save` when it can create or
      update. */
  function ApiButtons(api: Api): (buttons: seq<Value>)
    ensures |buttons| >= 1 && buttons[0] == Str("->")
    ensures Str("create") in buttons <==> api.create
    ensures Str("reset") in buttons <==> api.create || api.update
    ensures Str("save") in buttons <==> api.create || api.update
    ensures |buttons| > 1 <==> api.create || api.update
    ensures forall i :: 0 <= i < |buttons| - 1 ==> buttons[i] != Str("save")
    ensures api.create ==> buttons == [Str("->"), Str("create"), Str("reset"), Str("save")]
    ensures !api.create && api.update ==> buttons == [Str("->"), Str("reset"), Str("save")]
    ensures !api.create && !api.update ==> buttons == [Str("->")]
  {
    var spacer := [Str("->")];
    var creating := if api.create then spacer + [Str("create")] else spacer;
    if api.create || api.update then creating + [Str("reset"), Str("save")] else creating
  }

  /** The scaffold config of a model's tab. It starts as a grid of the model
      without buttons that can delete; an Ext.Direct api sets the buttons it
      supports (when there are any besides the spacer) and removes deleting
      when it cannot destroy; a writer without an api drops the `buttons`
      setting so that the grid's own default buttons apply. */
  function TabScaffold(name: string, proxy: Proxy): (s: Obj)
    ensures Get(s, "target") == Str(name) && Get(s, "storeDefaults") == Obj(map[])
    ensures proxy.api.Some? ==>
      && Get(s, "buttons") == (if proxy.api.value.create || proxy.api.value.update
                               then List(ApiButtons(proxy.api.value)) else Bool(false))
      && Get(s, "deletable") == Bool(proxy.api.value.destroy)
    ensures proxy.api.None? && proxy.writer ==> "buttons" !in s && Get(s, "deletable") == Bool(true)
    ensures proxy.api.None? && !proxy.writer ==> Get(s, "buttons") == Bool(false) && Get(s, "deletable") == Bool(true)
    ensures s.Keys <= {"storeDefaults", "target", "buttons", "deletable"}
  {
    var base := map[]["storeDefaults" := Obj(map[])]["target" := Str(name)]["buttons" := Bool(false)]
                     ["deletable" := Bool(true)];
    match proxy.api
    case Some(api) =>
      var buttons := ApiButtons(api);
      var withButtons := if |buttons| > 1 then base["buttons" := List(buttons)] else base;
      if !api.destroy then withButtons["deletable" := Bool(false)] else withButtons
    case None =>
      if proxy.writer then base - {"buttons"} else base
  }

  /** The tab of a model: a grid panel titled after the model's class name. */
  function Tab(name: string, title: string, proxy: Proxy): (tab: Value)
    ensures tab.Obj? && Get(tab.props, "xtype") == Str("gridpanel") && Get(tab.props, "title") == Str(title)
    ensures Get(tab.props, "scaffold") == Obj(TabScaffold(name, proxy))
  {
    Obj(map[]["xtype" := Str("gridpanel")]["title" := Str(title)]["scaffold" := Obj(TabScaffold(name, proxy))])
  }

  /** The tab of one `models` entry. A class name whose humanized form is
      empty crashes `toFirstUpper`; a name the model manager does not know
      gives `undefined`, whose `getProxy` crashes. */
  function TabFor(entry: ModelEntry, registry: Registry): (r: Result<Value>)
    ensures r.Err? <==> HumanizeClassName(EntryName(entry)).Err? || EntryName(entry) !in registry
    ensures r.Err? ==> r.error == TypeError
    ensures r.Ok? ==>
      && r.value.Obj?
      && Get(r.value.props, "title") == Str(ToTitle(HumanizeClassName(EntryName(entry)).value))
      && Get(r.value.props, "scaffold") == Obj(TabScaffold(EntryName(entry), registry[EntryName(entry)].proxy))
  {
    var name := EntryName(entry);
    match HumanizeClassName(name)
    case Err(_) => Err(TypeError)
    case Ok(humanized) =>
      if name !in registry then Err(TypeError)
      else Ok(Tab(name, ToTitle(humanized), registry[name].proxy))
  }

  /** A writer-only model's tab leaves the buttons to the grid: once the tab's
      scaffold config is layered over the grid settings `grid`, its buttons
      are the grid's. */
  lemma WriterTabGetsGridButtons(name: string, writerProxy: Proxy, grid: Obj)
    requires writerProxy.api.None? && writerProxy.writer
    requires "buttons" in grid
    ensures Get(Targeted(Obj(TabScaffold(name, writerProxy)), grid), "buttons") == grid["buttons"]
  {
  }

  // ---------------------------------------------------------------------------
  // All tabs

  /** The tab or the failure of each entry. */
  function Outcomes(entries: seq<ModelEntry>, registry: Registry): (outcomes: seq<Result<Value>>)
    ensures |outcomes| == |entries|
    ensures forall i {:trigger TabFor(entries[i], registry)} :: 0 <= i < |entries| ==> outcomes[i] == TabFor(entries[i], registry)
  {
    seq(|entries|, i requires 0 <= i < |entries| => TabFor(entries[i], registry))
  }

  /** The tab of the entry at `i`, as the loop over the entries builds it. */
  method NextTab(entries: seq<ModelEntry>, registry: Registry, i: nat) returns (tab: Result<Value>)
    requires i < |entries|
    ensures tab == Outcomes(entries, registry)[i]
  {
    tab := TabFor(entries[i], registry);
  }

  /** What a loop that stops at the first failure appends: the tabs of the
      entries up to the first one that fails, and that failure. */
  datatype Pushed = Pushed(tabs: seq<Value>, failure: Option<Error>)

  function PushedTabs(outcomes: seq<Result<Value>>): (p: Pushed)
    ensures |p.tabs| <= |outcomes|
    ensures forall i :: 0 <= i < |p.tabs| ==> outcomes[i] == Ok(p.tabs[i])
    ensures p.failure.None? ==> |p.tabs| == |outcomes|
    ensures p.failure.Some? ==> |p.tabs| < |outcomes| && outcomes[|p.tabs|] == Err(p.failure.value)
    decreases |outcomes|
  {
    if outcomes == [] then Pushed([], None)
    else
      var n := |outcomes| - 1;
      var before := PushedTabs(outcomes[..n]);
      if before.failure.Some? then before
      else
        match outcomes[n]
        case Err(e) => Pushed(before.tabs, Some(e))
        case Ok(tab) => Pushed(before.tabs + [tab], None)
  }

  lemma PushedStep(outcomes: seq<Result<Value>>, i: nat)
    requires i < |outcomes| && PushedTabs(outcomes[..i]).failure.None?
    ensures outcomes[i].Ok? ==>
      PushedTabs(outcomes[..i + 1]) == Pushed(PushedTabs(outcomes[..i]).tabs + [outcomes[i].value], None)
    ensures outcomes[i].Err? ==>
      PushedTabs(outcomes[..i + 1]) == Pushed(PushedTabs(outcomes[..i]).tabs, Some(outcomes[i].error))
  {
    assert outcomes[..i + 1][..i] == outcomes[..i];
  }

  /** Once an entry fails, later entries add nothing. */
  lemma {:induction false} PushedStopsAtFailure(outcomes: seq<Result<Value>>, i: nat)
    requires i <= |outcomes|
    requires PushedTabs(outcomes[..i]).failure.Some?
    ensures PushedTabs(outcomes) == PushedTabs(outcomes[..i])
    decreases |outcomes|
  {
    if i < |outcomes| {
      var n := |outcomes| - 1;
      assert outcomes[..n][..i] == outcomes[..i];
      PushedStopsAtFailure(outcomes[..n], i);
    } else {
      assert outcomes[..i] == outcomes;
    }
  }

  /** One entry of the loop: a tab extends what was pushed, a failure is the
      outcome of the whole loop. */
  lemma PushedNext(outcomes: seq<Result<Value>>, i: nat)
    requires i < |outcomes| && PushedTabs(outcomes[..i]).failure.None?
    ensures outcomes[i].Ok? ==>
      PushedTabs(outcomes[..i + 1]) == Pushed(PushedTabs(outcomes[..i]).tabs + [outcomes[i].value], None)
    ensures outcomes[i].Err? ==>
      PushedTabs(outcomes) == Pushed(PushedTabs(outcomes[..i]).tabs, Some(outcomes[i].error))
  {
    PushedStep(outcomes, i);
    if outcomes[i].Err? {
      PushedStopsAtFailure(outcomes, i + 1);
    }
  }

  // ---------------------------------------------------------------------------
  // The panel

  class ManagementPanel {
    var models: ModelsConfig
    var items: seq<Value>

    constructor (models: ModelsConfig, items: seq<Value>)
      ensures this.models == models && this.items == items
    {
      this.models := models;
      this.items := items;
    }

    /** `initComponent` without the parent's part: checks `models` in the
        debug build, then appends one tab per model to `items`. A failing
        entry stops the loop with the tabs before it already appended. */
    method InitComponent(registry: Registry, mode: Mode) returns (r: Result<nat>)
      modifies this
      ensures mode == Debug && !old(models).ModelList? ==>
                r == Err(ModelsNotArray) && models == old(models) && items == old(items)
      ensures !(mode == Debug && !old(models).ModelList?) ==>
                var pushed := PushedTabs(Outcomes(Entries(old(models)), registry));
                && models == (if old(models).Falsy? then ModelList([]) else old(models))
                && items == old(items) + pushed.tabs
                && (pushed.failure.None? ==> r == Ok(|pushed.tabs|))
                && (pushed.failure.Some? ==> r == Err(pushed.failure.value))
    {
      var given := models;
      assert given == old(models);
      if mode == Debug && !given.ModelList? {
        return Err(ModelsNotArray);
      }
      if given.Falsy? {
        models := ModelList([]);
      }
      var entries := Entries(given);
      ghost var outcomes := Outcomes(entries, registry);
      var i := 0;
      while i < |entries|
        invariant 0 <= i <= |entries|
        invariant models == (if old(models).Falsy? then ModelList([]) else old(models))
        invariant PushedTabs(outcomes[..i]).failure.None?
        invariant items == old(items) + PushedTabs(outcomes[..i]).tabs
      {
        var tab := NextTab(entries, registry, i);
        ghost var before := PushedTabs(outcomes[..i]).tabs;
        PushedNext(outcomes, i);
        if tab.Err? {
          return Err(tab.error);
        }
        AppendAssoc(old(items), before, [tab.value]);
        items := items + [tab.value];
        i := i + 1;
      }
      assert outcomes[..i] == outcomes;
      r := Ok(|entries|);
    }
  }
}
