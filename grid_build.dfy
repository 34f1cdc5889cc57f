/** `Bancha.scaffold.Grid.buildColumns` and `buildConfig`: the column list of
    a model and the grid panel config around it. */
module GridBuild {
  import opened Values
  import opened Schema
  import opened Stores
  import opened Buttons
  import opened Defaults
  import opened FormRules
  import opened FormScaffold
  import opened GridScaffold

  // ---------------------------------------------------------------------------
  // Before the loop

  /** `buildColumns` merges its config with the singleton's settings once
      more; a build's config already carries every setting, so it comes back
      as it was. */
  lemma RemergeKeepsConfig(userConfig: Value, grid: Obj)
    ensures Merge(Obj(Targeted(userConfig, grid)), grid) == Targeted(userConfig, grid)
  {
    var config := Targeted(userConfig, grid);
    var again := Merge(Obj(config), grid);
    assert again.Keys == config.Keys;
  }

  /** Objects as values. */
  function Objs(objs: seq<Obj>): (r: seq<Value>)
    ensures |r| == |objs| && forall i :: 0 <= i < |objs| ==> r[i] == Obj(objs[i])
  {
    seq(|objs|, i requires 0 <= i < |objs| => Obj(objs[i]))
  }

  /** The model's rule array, where there is a model. */
  function ValidationsOf(model: Option<ModelInfo>): set<array<Rule>>
  {
    if model.Some? then {model.value.validations} else {}
  }

  ghost function RulesOf(model: Option<ModelInfo>): seq<Rule>
    reads ValidationsOf(model)
  {
    if model.Some? then model.value.validations[..] else []
  }

  /** The checks `buildColumns` makes before its loop: a missing model raises
      in the debug build, then the `exclude` check, then reading the missing
      model's fields crashes. */
  function ColumnsPrepared(config: Obj, grid: Obj, model: Option<ModelInfo>, mode: Mode): (r: Result<Obj>)
    ensures mode == Debug && model.None? ==> r == Err(ModelError)
    ensures mode == Production && model.None? ==> r == Err(TypeError)
    ensures model.Some? ==> r == CheckExclude(Merge(Obj(config), grid), mode)
    ensures r.Ok? ==> model.Some? && Get(r.value, "exclude").List?
  {
    if mode == Debug && model.None? then Err(ModelError)
    else
      match CheckExclude(Merge(Obj(config), grid), mode)
      case Err(e) => Err(e)
      case Ok(c) => if model.None? then Err(TypeError) else Ok(c)
  }

  // ---------------------------------------------------------------------------
  // The column loop

  /** The grid listeners after the columns of `fields` were built with the
      stores `stores`: each foreign-key column adds a refresh to `render`. */
  function ListenersAfter(listeners: Obj, fields: seq<ModelField>, model: ModelInfo, stores: seq<Value>): (r: Obj)
    requires |stores| == |fields|
    ensures forall k :: k in listeners && k != "render" ==> k in r && r[k] == listeners[k]
    decreases |fields|
  {
    if fields == [] then listeners
    else
      var n := |fields| - 1;
      ColumnListeners(ListenersAfter(listeners, fields[..n], model, stores[..n]), fields[n], model, stores[n])
  }

  /** A model without foreign keys leaves the grid listeners alone. */
  lemma {:induction false} ListenersWithoutForeignKeys(listeners: Obj, fields: seq<ModelField>, model: ModelInfo,
                                                      stores: seq<Value>)
    requires |stores| == |fields|
    requires forall i :: 0 <= i < |fields| ==> GetBelongsToAssociation(Str(fields[i].name), model).None?
    ensures ListenersAfter(listeners, fields, model, stores) == listeners
    decreases |fields|
  {
    if fields != [] {
      var n := |fields| - 1;
      ListenersWithoutForeignKeys(listeners, fields[..n], model, stores[..n]);
    }
  }

  /** The names of the fields whose editors ran the rules pass: all of them
      in an editable grid, none otherwise. */
  function EditedNames(fields: seq<ModelField>, config: Obj): seq<string>
  {
    if Truthy(Get(config, "editable")) then FieldNames(fields) else []
  }

  /** The outcomes of the columns of the first `|stores|` kept fields, over
      the rules `rules`, each built with its own stores. */
  function ColumnResults(kept: seq<ModelField>, model: ModelInfo, rules: seq<Rule>, config: Obj, grid: Obj,
                         form: Obj, mode: Mode, stores: seq<Value>, editorStores: seq<Value>)
    : (results: seq<Result<Obj>>)
    requires |stores| == |editorStores| <= |kept|
    ensures |results| == |stores|
  {
    Zip3With(ColumnOf(model, rules, config, grid, form, mode), kept[..|stores|], stores, editorStores)
  }

  /** `ColumnConfig` with everything but the field and its stores fixed. */
  function ColumnOf(model: ModelInfo, rules: seq<Rule>, config: Obj, grid: Obj, form: Obj, mode: Mode)
    : (ModelField, Value, Value) -> Result<Obj>
  {
    (mf, store, editorStore) => ColumnConfig(mf, model, rules, config, grid, form, mode, store, editorStore)
  }

  /** The `i`-th outcome is the column of the `i`-th kept field. */
  lemma ColumnResultsAt(kept: seq<ModelField>, model: ModelInfo, rules: seq<Rule>, config: Obj, grid: Obj, form: Obj,
                        mode: Mode, stores: seq<Value>, editorStores: seq<Value>, i: nat)
    requires |stores| == |editorStores| <= |kept| && i < |stores|
    ensures ColumnResults(kept, model, rules, config, grid, form, mode, stores, editorStores)[i]
            == ColumnConfig(kept[i], model, rules, config, grid, form, mode, stores[i], editorStores[i])
  {
  }

  /** The columns built so far, over the rules `rules` the model had before
      the loop: each succeeded, with the stores it was handed, and the
      listeners grew accordingly. */
  ghost predicate ColumnsPrefix(model: ModelInfo, kept: seq<ModelField>, rules: seq<Rule>, config: Obj, grid: Obj,
                                form: Obj, mode: Mode, listeners0: Obj, columns: seq<Obj>, stores: seq<Value>,
                                editorStores: seq<Value>, listeners: Obj)
  {
    && |columns| == |stores| == |editorStores| <= |kept|
    && ColumnResults(kept, model, rules, config, grid, form, mode, stores, editorStores) == Oks(columns)
    && listeners == ListenersAfter(listeners0, kept[..|stores|], model, stores)
  }

  /** The outcome of the column loop: all columns built, or the columns
      before the first failing one built and the failure of that one. */
  ghost predicate ColumnsBuilt(model: ModelInfo, kept: seq<ModelField>, rules: seq<Rule>, config: Obj, grid: Obj,
                               form: Obj, mode: Mode, listeners0: Obj, r: Result<seq<Obj>>, stores: seq<Value>,
                               editorStores: seq<Value>, listeners: Obj)
  {
    && |stores| == |editorStores| <= |kept|
    && (forall i :: 0 <= i < |stores| ==>
          ColumnResults(kept, model, rules, config, grid, form, mode, stores, editorStores)[i].Ok?)
    && (r.Ok? ==>
          && |stores| == |kept|
          && ColumnsPrefix(model, kept, rules, config, grid, form, mode, listeners0, r.value, stores, editorStores, listeners))
    && (r.Err? ==>
          && |stores| < |kept|
          && ColumnConfig(kept[|stores|], model, rules, config, grid, form, mode, Undefined, Undefined) == Err(r.error))
  }

  /** A column's failure does not depend on the stores it was handed. */
  lemma ColumnFailureIgnoresStores(mf: ModelField, model: ModelInfo, rules: seq<Rule>, config: Obj, grid: Obj,
                                   form: Obj, mode: Mode, store: Value, editorStore: Value)
    requires ColumnConfig(mf, model, rules, config, grid, form, mode, store, editorStore).Err?
    ensures ColumnConfig(mf, model, rules, config, grid, form, mode, Undefined, Undefined)
            == ColumnConfig(mf, model, rules, config, grid, form, mode, store, editorStore)
  {
    var fc := EditorFormConfig(config, form);
    if BaseColumn(mf, config, grid).Ok? {
      assert FieldConfig(mf, model, rules, fc, form, true, mode, editorStore).error
          == FieldConfig(mf, model, rules, fc, form, true, mode, Undefined).error;
    }
  }

  /** One column of the loop. The model's rules already went through the
      passes of the editors of `names`; the column is the one it would have
      been over the original rules `rules0`. */
  method BuildColumnStep(model: ModelInfo, mf: ModelField, ghost rules0: seq<Rule>, ghost names: seq<string>,
                         config: Obj, grid: Obj, form: Obj, mode: Mode, listeners: Obj, cache: StoreCache)
    returns (c: Result<Obj>, listenersOut: Obj, ghost store: Value, ghost editorStore: Value)
    requires model.validations.Length == |rules0|
    requires forall j :: 0 <= j < |rules0| ==> model.validations[j] == RuleAfterPasses(rules0[j], names)
    modifies model.validations, cache
    ensures c.Ok? ==> ColumnConfig(mf, model, rules0, config, grid, form, mode, store, editorStore) == c
    ensures c.Err? ==> ColumnConfig(mf, model, rules0, config, grid, form, mode, Undefined, Undefined) == c
    ensures c.Ok? ==> listenersOut == ColumnListeners(listeners, mf, model, store)
    ensures c.Ok? ==> forall j :: 0 <= j < |rules0| ==>
              model.validations[j] == RuleAfterPasses(rules0[j], names + EditedNames([mf], config))
    ensures forall j :: 0 <= j < |rules0| ==>
              model.validations[j] == rules0[j] || model.validations[j] == Wrapped(rules0[j])
    ensures CacheExtends(old(cache.stores), cache.stores)
  {
    ghost var before := model.validations[..];
    ghost var mid;
    c, listenersOut, store, editorStore, mid := BuildColumnConfig(mf, model, config, grid, form, mode, listeners, cache);
    StepOutcome(mf, model, rules0, names, before, model.validations[..], config, grid, form, mode, store, editorStore, c);
  }

  /** What one column of the loop amounts to over the original rules: the
      column itself, or its failure, and the rules after its editor's pass. */
  lemma StepOutcome(mf: ModelField, model: ModelInfo, rules0: seq<Rule>, names: seq<string>, before: seq<Rule>,
                    after: seq<Rule>, config: Obj, grid: Obj, form: Obj, mode: Mode, store: Value, editorStore: Value,
                    c: Result<Obj>)
    requires |before| == |rules0|
    requires forall j :: 0 <= j < |rules0| ==> before[j] == RuleAfterPasses(rules0[j], names)
    requires c == ColumnConfig(mf, model, before, config, grid, form, mode, store, editorStore)
    requires Truthy(Get(config, "editable")) && BaseColumn(mf, config, grid).Ok? ==>
               RulesPassed(mf, before, after, EditorFormConfig(config, form), form, true, mode)
    requires !(Truthy(Get(config, "editable")) && BaseColumn(mf, config, grid).Ok?) ==> after == before
    ensures c.Ok? ==> ColumnConfig(mf, model, rules0, config, grid, form, mode, store, editorStore) == c
    ensures c.Err? ==> ColumnConfig(mf, model, rules0, config, grid, form, mode, Undefined, Undefined) == c
    ensures c.Ok? ==> |after| == |rules0|
    ensures c.Ok? ==> forall j :: 0 <= j < |rules0| ==>
              after[j] == RuleAfterPasses(rules0[j], names + EditedNames([mf], config))
    ensures |after| == |rules0|
    ensures forall j :: 0 <= j < |rules0| ==> after[j] == rules0[j] || after[j] == Wrapped(rules0[j])
  {
    StepKeepsWrapped(mf, rules0, names, before, after, config, form, mode);
    forall j | 0 <= j < |rules0| ensures before[j] == rules0[j] || before[j] == Wrapped(rules0[j]) {
      assert before[j] == RuleAfterPasses(rules0[j], names);
    }
    ColumnConfigUnderRewrittenRules(mf, model, rules0, before, config, grid, form, mode, store, editorStore);
    if c.Err? {
      ColumnConfigUnderRewrittenRules(mf, model, rules0, before, config, grid, form, mode, Undefined, Undefined);
      ColumnFailureIgnoresStores(mf, model, rules0, config, grid, form, mode, store, editorStore);
    } else {
      StepRules(mf, model, rules0, names, before, after, config, grid, form, mode, store, editorStore);
    }
  }

  /** However a column ends, even in a failure half-way through its editor's
      rules pass, each rule is as it was or wrapped once. */
  lemma StepKeepsWrapped(mf: ModelField, rules0: seq<Rule>, names: seq<string>, before: seq<Rule>, after: seq<Rule>,
                         config: Obj, form: Obj, mode: Mode)
    requires |before| == |rules0|
    requires forall j :: 0 <= j < |rules0| ==> before[j] == RuleAfterPasses(rules0[j], names)
    requires RulesPassed(mf, before, after, EditorFormConfig(config, form), form, true, mode) || after == before
    ensures |after| == |rules0|
    ensures forall j :: 0 <= j < |rules0| ==> after[j] == rules0[j] || after[j] == Wrapped(rules0[j])
  {
    forall j | 0 <= j < |rules0| ensures after[j] == rules0[j] || after[j] == Wrapped(rules0[j]) {
      RuleAfterPassesStep(rules0[j], names, mf.name);
    }
  }

  /** The rules after a successful column: one more editor pass in an
      editable grid, none otherwise. */
  lemma StepRules(mf: ModelField, model: ModelInfo, rules0: seq<Rule>, names: seq<string>, before: seq<Rule>,
                  after: seq<Rule>, config: Obj, grid: Obj, form: Obj, mode: Mode, store: Value, editorStore: Value)
    requires |before| == |rules0|
    requires forall j :: 0 <= j < |rules0| ==> before[j] == RuleAfterPasses(rules0[j], names)
    requires ColumnConfig(mf, model, before, config, grid, form, mode, store, editorStore).Ok?
    requires Truthy(Get(config, "editable")) && BaseColumn(mf, config, grid).Ok? ==>
               RulesPassed(mf, before, after, EditorFormConfig(config, form), form, true, mode)
    requires !(Truthy(Get(config, "editable")) && BaseColumn(mf, config, grid).Ok?) ==> after == before
    ensures |after| == |rules0|
    ensures forall j :: 0 <= j < |rules0| ==> after[j] == RuleAfterPasses(rules0[j], names + EditedNames([mf], config))
  {
    if Truthy(Get(config, "editable")) {
      EditorRulesComplete(mf, model, before, config, grid, form, mode, store, editorStore);
      assert EditedNames([mf], config) == [mf.name];
      forall j | 0 <= j < |rules0|
        ensures RuleAfter(before[j], Str(mf.name)) == RuleAfterPasses(rules0[j], names + [mf.name])
      {
        RuleAfterPassesStep(rules0[j], names, mf.name);
      }
    } else {
      assert names + EditedNames([mf], config) == names;
    }
  }

  /** A column built in an editable grid ran its editor's rules pass to the
      end. */
  lemma EditorRulesComplete(mf: ModelField, model: ModelInfo, rules: seq<Rule>, config: Obj, grid: Obj, form: Obj,
                            mode: Mode, store: Value, editorStore: Value)
    requires Truthy(Get(config, "editable"))
    requires ColumnConfig(mf, model, rules, config, grid, form, mode, store, editorStore).Ok?
    ensures BaseField(mf, EditorFormConfig(config, form), form, true).Ok?
    ensures Applied(BaseField(mf, EditorFormConfig(config, form), form, true).value, Str(mf.name), rules,
                    EditorFormConfig(config, form), mode) == |rules|
  {
    assert ColumnEditor(mf, model, rules, config, form, mode, editorStore).Ok?;
  }

  lemma ExtendColumns(model: ModelInfo, kept: seq<ModelField>, rules: seq<Rule>, config: Obj, grid: Obj, form: Obj,
                      mode: Mode, listeners0: Obj, columns: seq<Obj>, stores: seq<Value>, editorStores: seq<Value>,
                      listeners: Obj, column: Obj, store: Value, editorStore: Value)
    requires ColumnsPrefix(model, kept, rules, config, grid, form, mode, listeners0, columns, stores, editorStores, listeners)
    requires |stores| < |kept|
    requires ColumnOf(model, rules, config, grid, form, mode)(kept[|stores|], store, editorStore) == Ok(column)
    ensures ColumnsPrefix(model, kept, rules, config, grid, form, mode, listeners0, columns + [column],
                          stores + [store], editorStores + [editorStore],
                          ColumnListeners(listeners, kept[|stores|], model, store))
  {
    ListenersStep(listeners0, kept, model, stores, store);
    var n := |stores|;
    var f := ColumnOf(model, rules, config, grid, form, mode);
    TakeOneMore(kept, n);
    Zip3WithAppend(f, kept[..n], stores, editorStores, kept[n], store, editorStore);
    OksAppend(columns, column);
  }

  lemma ListenersStep(listeners0: Obj, kept: seq<ModelField>, model: ModelInfo, stores: seq<Value>, store: Value)
    requires |stores| < |kept|
    ensures ListenersAfter(listeners0, kept[..|stores| + 1], model, stores + [store])
         == ColumnListeners(ListenersAfter(listeners0, kept[..|stores|], model, stores), kept[|stores|], model, store)
  {
    var n := |stores|;
    PrefixOfLonger(kept, n);
    PrefixOfLonger(stores + [store], n);
  }

  lemma ColumnsFail(model: ModelInfo, kept: seq<ModelField>, rules: seq<Rule>, config: Obj, grid: Obj, form: Obj,
                    mode: Mode, listeners0: Obj, columns: seq<Obj>, stores: seq<Value>, editorStores: seq<Value>,
                    listeners: Obj, e: Error)
    requires ColumnsPrefix(model, kept, rules, config, grid, form, mode, listeners0, columns, stores, editorStores, listeners)
    requires |stores| < |kept|
    requires ColumnConfig(kept[|stores|], model, rules, config, grid, form, mode, Undefined, Undefined) == Err(e)
    ensures ColumnsBuilt(model, kept, rules, config, grid, form, mode, listeners0, Err(e), stores, editorStores, listeners)
  {
  }

  lemma ColumnsComplete(model: ModelInfo, kept: seq<ModelField>, rules: seq<Rule>, config: Obj, grid: Obj, form: Obj,
                        mode: Mode, listeners0: Obj, columns: seq<Obj>, stores: seq<Value>, editorStores: seq<Value>,
                        listeners: Obj)
    requires ColumnsPrefix(model, kept, rules, config, grid, form, mode, listeners0, columns, stores, editorStores, listeners)
    requires |stores| == |kept|
    ensures ColumnsBuilt(model, kept, rules, config, grid, form, mode, listeners0, Ok(columns), stores, editorStores, listeners)
  {
  }

  /** One round of the column loop: the column of the `i`-th kept field,
      with the loop's bookkeeping carried one field further. */
  method ColumnLoopStep(model: ModelInfo, kept: seq<ModelField>, i: nat, ghost rules0: seq<Rule>, config: Obj,
                        grid: Obj, form: Obj, mode: Mode, ghost listeners0: Obj, ghost columns: seq<Obj>,
                        ghost stores: seq<Value>, ghost editorStores: seq<Value>, listeners: Obj, cache: StoreCache)
    returns (c: Result<Obj>, listenersOut: Obj, ghost store: Value, ghost editorStore: Value)
    requires i < |kept| && |stores| == i
    requires ColumnsPrefix(model, kept, rules0, config, grid, form, mode, listeners0, columns, stores, editorStores, listeners)
    requires model.validations.Length == |rules0|
    requires forall j :: 0 <= j < |rules0| ==>
               model.validations[j] == RuleAfterPasses(rules0[j], EditedNames(kept[..i], config))
    modifies model.validations, cache
    ensures c.Err? ==>
      ColumnsBuilt(model, kept, rules0, config, grid, form, mode, listeners0, Err(c.error), stores, editorStores, listeners)
    ensures c.Ok? ==>
      ColumnsPrefix(model, kept, rules0, config, grid, form, mode, listeners0, columns + [c.value], stores + [store],
                    editorStores + [editorStore], listenersOut)
    ensures c.Ok? ==> forall j :: 0 <= j < |rules0| ==>
              model.validations[j] == RuleAfterPasses(rules0[j], EditedNames(kept[..i + 1], config))
    ensures forall j :: 0 <= j < |rules0| ==>
              model.validations[j] == rules0[j] || model.validations[j] == Wrapped(rules0[j])
    ensures CacheExtends(old(cache.stores), cache.stores)
  {
    c, listenersOut, store, editorStore := BuildColumnStep(model, kept[i], rules0, EditedNames(kept[..i], config),
                                                           config, grid, form, mode, listeners, cache);
    if c.Err? {
      ColumnsFail(model, kept, rules0, config, grid, form, mode, listeners0, columns, stores, editorStores, listeners,
                  c.error);
    } else {
      ExtendColumns(model, kept, rules0, config, grid, form, mode, listeners0, columns, stores, editorStores, listeners,
                    c.value, store, editorStore);
      EditedNamesPrefix(kept, i, config);
    }
  }

  /** The column loop of `buildColumns`, one column per kept model field, in
      model order. After a complete loop in an editable grid every rule of a
      kept field has been through its editor's pass. */
  method BuildColumnLoop(model: ModelInfo, kept: seq<ModelField>, config: Obj, grid: Obj, form: Obj, mode: Mode,
                         listeners0: Obj, cache: StoreCache)
    returns (r: Result<seq<Obj>>, listeners: Obj, ghost stores: seq<Value>, ghost editorStores: seq<Value>)
    modifies model.validations, cache
    ensures ColumnsBuilt(model, kept, old(model.validations[..]), config, grid, form, mode, listeners0, r, stores,
                         editorStores, listeners)
    ensures r.Ok? ==> forall j :: 0 <= j < model.validations.Length ==>
              model.validations[j] == RuleAfterPasses(old(model.validations[j]), EditedNames(kept, config))
    ensures forall j :: 0 <= j < model.validations.Length ==>
              model.validations[j] == old(model.validations[j]) || model.validations[j] == Wrapped(old(model.validations[j]))
    ensures CacheExtends(old(cache.stores), cache.stores)
  {
    ghost var rules0 := model.validations[..];
    var columns: seq<Obj> := [];
    listeners := listeners0;
    stores, editorStores := [], [];
    var i := 0;
    while i < |kept|
      invariant 0 <= i <= |kept| && |stores| == i
      invariant ColumnsPrefix(model, kept, rules0, config, grid, form, mode, listeners0, columns, stores, editorStores, listeners)
      invariant model.validations.Length == |rules0|
      invariant forall j :: 0 <= j < |rules0| ==>
                  model.validations[j] == RuleAfterPasses(rules0[j], EditedNames(kept[..i], config))
      invariant forall j :: 0 <= j < |rules0| ==>
                  model.validations[j] == rules0[j] || model.validations[j] == Wrapped(rules0[j])
      invariant CacheExtends(old(cache.stores), cache.stores)
    {
      var c, l;
      ghost var s, es;
      c, l, s, es := ColumnLoopStep(model, kept, i, rules0, config, grid, form, mode, listeners0, columns, stores,
                                    editorStores, listeners, cache);
      if c.Err? {
        return Err(c.error), listeners, stores, editorStores;
      }
      columns, listeners := columns + [c.value], l;
      stores, editorStores := stores + [s], editorStores + [es];
      i := i + 1;
    }
    assert kept[..i] == kept;
    ColumnsComplete(model, kept, rules0, config, grid, form, mode, listeners0, columns, stores, editorStores, listeners);
    r := Ok(columns);
  }

  lemma EditedNamesPrefix(fields: seq<ModelField>, i: nat, config: Obj)
    requires i < |fields|
    ensures EditedNames(fields[..i + 1], config) == EditedNames(fields[..i], config) + EditedNames([fields[i]], config)
  {
    FieldNamesPrefix(fields, i);
  }

  // ---------------------------------------------------------------------------
  // The destroy column

  /** `items[0]` of the destroy button config's `items`: a missing first item
      reads as `undefined`. */
  function FirstItem(items: Value): Value
  {
    match items
    case List(xs) => if xs == [] then Undefined else xs[0]
    case Obj(p) => Get(p, "0")
    case Str(s) => if s == [] then Undefined else Str([s[0]])
    case _ => Undefined
  }

  /** The destroy column appended when the grid is deletable: a copy of
      `destroyButtonConfig` whose first item gets `onDelete` as its handler
      when its handler is still `Ext.emptyFn`. Reading the handler of a
      missing first item crashes. */
  function DestroyColumn(config: Obj): (r: Result<Value>)
    ensures var b := Get(config, "destroyButtonConfig");
      r.Err? <==> !b.Obj? || FirstItem(Get(b.props, "items")) == Undefined
    ensures r.Err? ==> r.error == TypeError
    ensures r.Ok? ==> r.value.Obj? && r.value.props.Keys == config["destroyButtonConfig"].props.Keys
    ensures r.Ok? ==> forall k :: k in r.value.props && k != "items" ==> r.value.props[k] == config["destroyButtonConfig"].props[k]
    ensures r.Ok? ==> var first := FirstItem(Get(config["destroyButtonConfig"].props, "items"));
      && (first.Obj? && Get(first.props, "handler") == EmptyFn ==>
            && FirstItem(r.value.props["items"]).Obj?
            && FirstItem(r.value.props["items"]).props == first.props["handler" := Get(config, "onDelete")])
      && (!(first.Obj? && Get(first.props, "handler") == EmptyFn) ==> r.value == config["destroyButtonConfig"])
  {
    var b := Get(config, "destroyButtonConfig");
    if !b.Obj? then Err(TypeError)
    else
      var items := Get(b.props, "items");
      var first := FirstItem(items);
      if first == Undefined then Err(TypeError)
      else if first.Obj? && Get(first.props, "handler") == EmptyFn then
        var wired := Obj(first.props["handler" := Get(config, "onDelete")]);
        var items' := if items.List? then List(items.items[0 := wired]) else Obj(items.props["0" := wired]);
        Ok(Obj(b.props["items" := items']))
      else Ok(b)
  }

  /** The columns appended after the loop. */
  function TrailingColumns(config: Obj): (r: Result<seq<Value>>)
    ensures !Truthy(Get(config, "deletable")) ==> r == Ok([])
    ensures Truthy(Get(config, "deletable")) ==>
              (r.Err? <==> DestroyColumn(config).Err?) && (r.Ok? ==> r.value == [DestroyColumn(config).value])
  {
    if !Truthy(Get(config, "deletable")) then Ok([])
    else
      match DestroyColumn(config)
      case Err(e) => Err(e)
      case Ok(c) => Ok([c])
  }

  // ---------------------------------------------------------------------------
  // buildColumns

  /** What `buildColumns` did: the checks failed; or the columns were built
      over the model's rules `rules` as they were before, with the trailing
      columns after them. `loopColumns` are the columns of the model fields. */
  ghost predicate ColumnsOutcome(model: Option<ModelInfo>, config: Obj, grid: Obj, form: Obj, mode: Mode,
                                 listeners0: Obj, rules: seq<Rule>, r: Result<seq<Value>>, listeners: Obj,
                                 loopColumns: seq<Obj>, stores: seq<Value>, editorStores: seq<Value>)
  {
    var prepared := ColumnsPrepared(config, grid, model, mode);
    && (prepared.Err? ==> r == Err(prepared.error) && listeners == listeners0)
    && (prepared.Ok? ==>
          var kept := Kept(model.value.fields, ExcludeList(prepared.value));
          var loop := if r.Err? && |stores| < |kept| then Err(r.error) else Ok(loopColumns);
          && ColumnsBuilt(model.value, kept, rules, prepared.value, grid, form, mode, listeners0, loop, stores,
                          editorStores, listeners)
          && (r.Ok? ==> |stores| == |kept| && TrailingColumns(prepared.value).Ok?
                        && r.value == Objs(loopColumns) + TrailingColumns(prepared.value).value)
          && (r.Err? && |stores| == |kept| ==> TrailingColumns(prepared.value) == Err(r.error)))
  }

  /** `buildColumns` for the model `model` (`None` for a name that is not
      registered), adding to the grid listeners `listeners0`. */
  method BuildColumns(model: Option<ModelInfo>, config: Obj, grid: Obj, form: Obj, mode: Mode, listeners0: Obj,
                      cache: StoreCache)
    returns (r: Result<seq<Value>>, listeners: Obj, ghost loopColumns: seq<Obj>, ghost stores: seq<Value>,
             ghost editorStores: seq<Value>)
    modifies ValidationsOf(model), cache
    ensures ColumnsOutcome(model, config, grid, form, mode, listeners0, old(RulesOf(model)), r, listeners, loopColumns,
                           stores, editorStores)
    ensures r.Ok? ==> forall j :: 0 <= j < model.value.validations.Length ==>
              model.value.validations[j] == RuleAfterPasses(old(model.value.validations[j]),
                EditedNames(Kept(model.value.fields, ExcludeList(ColumnsPrepared(config, grid, model, mode).value)),
                            ColumnsPrepared(config, grid, model, mode).value))
    ensures model.Some? ==> forall j :: 0 <= j < model.value.validations.Length ==>
              || model.value.validations[j] == old(model.value.validations[j])
              || model.value.validations[j] == Wrapped(old(model.value.validations[j]))
    ensures CacheExtends(old(cache.stores), cache.stores)
  {
    listeners, loopColumns, stores, editorStores := listeners0, [], [], [];
    var prepared := ColumnsPrepared(config, grid, model, mode);
    if prepared.Err? {
      return Err(prepared.error), listeners, loopColumns, stores, editorStores;
    }
    var m := model.value;
    var kept := Kept(m.fields, ExcludeList(prepared.value));
    var built;
    built, listeners, stores, editorStores := BuildColumnLoop(m, kept, prepared.value, grid, form, mode, listeners0, cache);
    if built.Err? {
      return Err(built.error), listeners, loopColumns, stores, editorStores;
    }
    loopColumns := built.value;
    var trailing := TrailingColumns(prepared.value);
    if trailing.Err? {
      return Err(trailing.error), listeners, loopColumns, stores, editorStores;
    }
    r := Ok(Objs(built.value) + trailing.value);
  }

  // ---------------------------------------------------------------------------
  // buildConfig

  /** Whether the grid gets a button bar: `config.buttons && config.buttons.length`.
      A list and a string have their length; a plain object is asked for its
      `length` property. */
  predicate HasButtons(buttons: Value)
  {
    || (buttons.List? && |buttons.items| > 0)
    || (buttons.Str? && buttons.s != "")
    || (buttons.Obj? && Truthy(Get(buttons.props, "length")))
  }

  /** The scope of the grid's buttons, which hands out the cell-editing
      plugin and the grid's store. */
  function GridScope(cellEditing: Value, store: Value): (scope: Value)
    ensures scope.Obj? && scope.props.Keys == {"getCellEditing", "getStore"}
  {
    Obj(map[]["getCellEditing" := Closure("getCellEditing", [cellEditing])]["getStore" := Closure("getStore", [store])])
  }

  /** The bottom toolbar holding the buttons. */
  function Toolbar(buttons: Value): (bar: Value)
    ensures bar.Obj? && Get(bar.props, "items") == buttons
  {
    Obj(map[]["xtype" := Str("toolbar")]["dock" := Str("bottom")]["ui" := Str("footer")]["items" := buttons])
  }

  /** The grid panel config: the store, the columns and the listeners; the
      cell-editing plugin when editable; the toolbar when there are buttons;
      then the caller's initial panel config, which wins; then the scaffold
      config itself. `config` is the config after the button rewrite. */
  function GridPanel(config: Obj, store: Value, columns: seq<Value>, listeners: Obj, cellEditing: Value,
                     toolbar: bool, initial: Value): (r: Obj)
    ensures "scaffold" in r && r["scaffold"] == Obj(config)
    ensures !(initial.Obj? && "columns" in initial.props) ==> "columns" in r && r["columns"] == List(columns)
    ensures !(initial.Obj? && "store" in initial.props) ==> "store" in r && r["store"] == store
    ensures initial.Obj? ==> forall k :: k in initial.props && k != "scaffold" ==> k in r && r[k] == initial.props[k]
  {
    var basic: Obj := map[]["store" := store]["columns" := List(columns)]["listeners" := Obj(listeners)];
    var editing := if Truthy(Get(config, "editable"))
                   then basic["selType" := Str("cellmodel")]["plugins" := List([cellEditing])] else basic;
    var docked := if toolbar then editing["dockedItems" := List([Toolbar(Get(config, "buttons"))])] else editing;
    var applied := if initial.Obj? then Apply(docked, initial.props, map[]) else docked;
    applied["scaffold" := Obj(config)]
  }

  /** An editable grid carries its cell-editing plugin, unless the caller's
      initial panel config sets the plugins itself. */
  lemma EditableGridHasCellEditing(config: Obj, store: Value, columns: seq<Value>, listeners: Obj, cellEditing: Value,
                                   toolbar: bool, initial: Value)
    requires Truthy(Get(config, "editable"))
    requires !(initial.Obj? && "plugins" in initial.props)
    ensures Get(GridPanel(config, store, columns, listeners, cellEditing, toolbar, initial), "plugins") == List([cellEditing])
  {
  }

  /** A grid with buttons docks them in a toolbar, unless the caller's
      initial panel config sets the docked items itself. */
  lemma ButtonsAreDocked(config: Obj, store: Value, columns: seq<Value>, listeners: Obj, cellEditing: Value,
                         initial: Value)
    requires !(initial.Obj? && "dockedItems" in initial.props)
    ensures Get(GridPanel(config, store, columns, listeners, cellEditing, true, initial), "dockedItems")
            == List([Toolbar(Get(config, "buttons"))])
  {
  }

  /** `buildConfig` for the grid of the model `config.target`, with the
      singleton settings `grid` and `form`. `initial` is the caller's initial
      panel config. The ghost results: the grid's store, the outcome of
      `buildColumns`, the columns the model fields became with the listeners
      they left, the stores handed to
      the columns and editors, and the cell-editing plugin (`Undefined` for a
      grid that is not editable). */
  method BuildConfig(registry: Registry, userConfig: Value, grid: Obj, form: Obj, initial: Value, mode: Mode,
                     cache: StoreCache)
    returns (r: Result<Obj>, ghost store: Value, ghost columns: Result<seq<Value>>, ghost loopColumns: seq<Obj>,
             ghost listeners: Obj, ghost stores: seq<Value>, ghost editorStores: seq<Value>, ghost cellEditing: Value)
    modifies ValidationArrays(registry), cache
    ensures var config := Targeted(userConfig, grid);
      var model := if TargetName(config) in registry then Some(registry[TargetName(config)]) else None;
        && ColumnsOutcome(model, config, grid, form, mode, map[], old(RulesOf(model)), columns, listeners,
                          loopColumns, stores, editorStores)
        && (columns.Err? ==> r == Err(columns.error))
        && (columns.Ok? && !HasButtons(Get(config, "buttons")) ==>
              r == Ok(GridPanel(config, store, columns.value, listeners, cellEditing, false, initial)))
        && (columns.Ok? && HasButtons(Get(config, "buttons")) ==>
              var withButtons := ConfigWithButtons(config, GridScope(cellEditing, store));
              && (withButtons.Err? ==> r == Err(withButtons.error))
              && (withButtons.Ok? ==>
                    r == Ok(GridPanel(withButtons.value, store, columns.value, listeners, cellEditing, true, initial))))
    ensures r.Ok? && Truthy(Get(Targeted(userConfig, grid), "editable")) ==>
              && cellEditing.Ref? && fresh(cellEditing.obj)
              && cellEditing.obj.className == Str("Ext.grid.plugin.CellEditing")
              && cellEditing.obj.settings == map["clicksToEdit" := Num(2)]
    ensures !Truthy(Get(Targeted(userConfig, grid), "editable")) ==> cellEditing == Undefined
    ensures var config := Targeted(userConfig, grid);
      var modelName := if TargetName(config) in registry then registry[TargetName(config)].name else "";
      && store.Ref?
      && (OneStorePerModel(config) && modelName in old(cache.stores) ==> store.obj == old(cache.stores)[modelName])
      && (!(OneStorePerModel(config) && modelName in old(cache.stores)) ==>
            fresh(store.obj) && store.obj.className == StoreClass(config)
            && store.obj.settings == StoreSettings(modelName, config))
      && (OneStorePerModel(config) ==> modelName in cache.stores && cache.stores[modelName] == store.obj)
    ensures var config := Targeted(userConfig, grid);
      TargetName(config) in registry ==>
        var model := registry[TargetName(config)];
        var prepared := ColumnsPrepared(config, grid, Some(model), mode);
        && (r.Ok? && prepared.Ok? ==> forall j :: 0 <= j < model.validations.Length ==>
              model.validations[j] == RuleAfterPasses(old(model.validations[j]),
                EditedNames(Kept(model.fields, ExcludeList(prepared.value)), prepared.value)))
        && (forall j :: 0 <= j < model.validations.Length ==>
              model.validations[j] == old(model.validations[j]) || model.validations[j] == Wrapped(old(model.validations[j])))
        && (forall n :: n in registry && registry[n].validations != model.validations ==>
              registry[n].validations[..] == old(registry[n].validations[..]))
    ensures TargetName(Targeted(userConfig, grid)) !in registry ==>
              forall n :: n in registry ==> registry[n].validations[..] == old(registry[n].validations[..])
    ensures CacheExtends(old(cache.stores), cache.stores)
  {
    var config := Targeted(userConfig, grid);
    var gridStore, built, gridListeners;
    gridStore, built, gridListeners, loopColumns, stores, editorStores := StoreAndColumns(registry, config, grid, form, mode, cache);
    store, columns := Ref(gridStore), built;
    listeners := gridListeners;
    cellEditing := Undefined;
    if built.Err? {
      return Err(built.error), store, columns, loopColumns, listeners, stores, editorStores, cellEditing;
    }
    r, cellEditing := Panel(config, Ref(gridStore), built.value, gridListeners, initial);
  }

  /** The grid's store and columns in `buildConfig`, for the model the config
      targets in `registry`: only that model's rule array is rewritten, each
      rule at most wrapped once, and after a complete build every rule of an
      edited field has been through its pass. */
  method StoreAndColumns(registry: Registry, config: Obj, grid: Obj, form: Obj, mode: Mode, cache: StoreCache)
    returns (gridStore: Instance, columns: Result<seq<Value>>, listeners: Obj, ghost loopColumns: seq<Obj>,
             ghost stores: seq<Value>, ghost editorStores: seq<Value>)
    modifies ValidationArrays(registry), cache
    ensures var modelName := if TargetName(config) in registry then registry[TargetName(config)].name else "";
      && (OneStorePerModel(config) && modelName in old(cache.stores) ==> gridStore == old(cache.stores)[modelName])
      && (!(OneStorePerModel(config) && modelName in old(cache.stores)) ==>
            fresh(gridStore) && gridStore.className == StoreClass(config)
            && gridStore.settings == StoreSettings(modelName, config))
      && (OneStorePerModel(config) ==> modelName in cache.stores && cache.stores[modelName] == gridStore)
    ensures var model := if TargetName(config) in registry then Some(registry[TargetName(config)]) else None;
      ColumnsOutcome(model, config, grid, form, mode, map[], old(RulesOf(model)), columns, listeners, loopColumns,
                     stores, editorStores)
    ensures TargetName(config) in registry ==>
        var model := registry[TargetName(config)];
        var prepared := ColumnsPrepared(config, grid, Some(model), mode);
        && (columns.Ok? && prepared.Ok? ==> forall j :: 0 <= j < model.validations.Length ==>
              model.validations[j] == RuleAfterPasses(old(model.validations[j]),
                EditedNames(Kept(model.fields, ExcludeList(prepared.value)), prepared.value)))
        && (forall j :: 0 <= j < model.validations.Length ==>
              model.validations[j] == old(model.validations[j]) || model.validations[j] == Wrapped(old(model.validations[j])))
        && (forall n :: n in registry && registry[n].validations != model.validations ==>
              registry[n].validations[..] == old(registry[n].validations[..]))
    ensures TargetName(config) !in registry ==> forall n :: n in registry ==> registry[n].validations[..] == old(registry[n].validations[..])
    ensures CacheExtends(old(cache.stores), cache.stores)
  {
    var name := TargetName(config);
    var model := if name in registry then Some(registry[name]) else None;
    gridStore := GridStore(registry, config, cache);
    assert RulesOf(model) == old(RulesOf(model));
    assert name in registry ==> registry[name].validations[..] == old(registry[name].validations[..]);
    columns, listeners, loopColumns, stores, editorStores := TargetColumns(registry, config, grid, form, mode, cache);
  }

  /** The grid's store in `buildConfig`: the store of the model the config
      targets in `registry`, by its name (empty for an unknown target). */
  method GridStore(registry: Registry, config: Obj, cache: StoreCache) returns (gridStore: Instance)
    modifies cache
    ensures var modelName := if TargetName(config) in registry then registry[TargetName(config)].name else "";
      && (OneStorePerModel(config) && modelName in old(cache.stores) ==> gridStore == old(cache.stores)[modelName])
      && (!(OneStorePerModel(config) && modelName in old(cache.stores)) ==>
            fresh(gridStore) && gridStore.className == StoreClass(config)
            && gridStore.settings == StoreSettings(modelName, config))
      && (OneStorePerModel(config) ==> modelName in cache.stores && cache.stores[modelName] == gridStore)
    ensures CacheExtends(old(cache.stores), cache.stores)
  {
    var name := TargetName(config);
    gridStore := cache.GetStore(if name in registry then registry[name].name else "", config);
  }

  /** The columns of `buildConfig`, for the model the config targets in
      `registry`: only that model's rule array is rewritten, each rule at most
      wrapped once, and after a complete build every rule of an edited field
      has been through its pass. */
  method TargetColumns(registry: Registry, config: Obj, grid: Obj, form: Obj, mode: Mode, cache: StoreCache)
    returns (columns: Result<seq<Value>>, listeners: Obj, ghost loopColumns: seq<Obj>, ghost stores: seq<Value>,
             ghost editorStores: seq<Value>)
    modifies ValidationArrays(registry), cache
    ensures var model := if TargetName(config) in registry then Some(registry[TargetName(config)]) else None;
      ColumnsOutcome(model, config, grid, form, mode, map[], old(RulesOf(model)), columns, listeners, loopColumns,
                     stores, editorStores)
    ensures TargetName(config) in registry ==>
        var model := registry[TargetName(config)];
        var prepared := ColumnsPrepared(config, grid, Some(model), mode);
        && (columns.Ok? && prepared.Ok? ==> forall j :: 0 <= j < model.validations.Length ==>
              model.validations[j] == RuleAfterPasses(old(model.validations[j]),
                EditedNames(Kept(model.fields, ExcludeList(prepared.value)), prepared.value)))
        && (forall j :: 0 <= j < model.validations.Length ==>
              model.validations[j] == old(model.validations[j]) || model.validations[j] == Wrapped(old(model.validations[j])))
        && (forall n :: n in registry && registry[n].validations != model.validations ==>
              registry[n].validations[..] == old(registry[n].validations[..]))
    ensures TargetName(config) !in registry ==> forall n :: n in registry ==> registry[n].validations[..] == old(registry[n].validations[..])
    ensures CacheExtends(old(cache.stores), cache.stores)
  {
    var name := TargetName(config);
    var model := if name in registry then Some(registry[name]) else None;
    columns, listeners, loopColumns, stores, editorStores := BuildColumns(model, config, grid, form, mode, map[], cache);
  }

  /** The last part of `buildConfig`: the cell-editing plugin of an editable
      grid, the buttons with their scope, and the panel config around the
      grid's store, columns and listeners. */
  method Panel(config: Obj, store: Value, columns: seq<Value>, listeners: Obj, initial: Value)
    returns (r: Result<Obj>, ghost cellEditing: Value)
    ensures !HasButtons(Get(config, "buttons")) ==>
              r == Ok(GridPanel(config, store, columns, listeners, cellEditing, false, initial))
    ensures HasButtons(Get(config, "buttons")) ==>
              var withButtons := ConfigWithButtons(config, GridScope(cellEditing, store));
              && (withButtons.Err? ==> r == Err(withButtons.error))
              && (withButtons.Ok? ==> r == Ok(GridPanel(withButtons.value, store, columns, listeners, cellEditing, true, initial)))
    ensures Truthy(Get(config, "editable")) ==>
              && cellEditing.Ref? && fresh(cellEditing.obj)
              && cellEditing.obj.className == Str("Ext.grid.plugin.CellEditing")
              && cellEditing.obj.settings == map["clicksToEdit" := Num(2)]
    ensures !Truthy(Get(config, "editable")) ==> cellEditing == Undefined
  {
    var plugin := Undefined;
    if Truthy(Get(config, "editable")) {
      var instance := new Instance(Str("Ext.grid.plugin.CellEditing"), map["clicksToEdit" := Num(2)]);
      plugin := Ref(instance);
    }
    cellEditing := plugin;
    var toolbar := HasButtons(Get(config, "buttons"));
    var final := config;
    if toolbar {
      var withButtons := BuildButtons(config, GridScope(plugin, store));
      if withButtons.Err? {
        return Err(withButtons.error), cellEditing;
      }
      final := withButtons.value;
    }
    r := Ok(GridPanel(final, store, columns, listeners, plugin, toolbar, initial));
  }
}
