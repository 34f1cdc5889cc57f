/** `Bancha.scaffold.Form.buildConfig`: the form panel config around the
    field configs of a model. */
module FormBuild {
  import opened Values
  import opened Schema
  import opened Stores
  import opened Buttons
  import opened Defaults
  import opened FormRules
  import opened FormScaffold

  // ---------------------------------------------------------------------------
  // The fields

  /** The per-call config of a form build from the settings `form` of the
      singleton (initially `FormDefaults`), after the `exclude` check. */
  function Prepared(userConfig: Value, form: Obj, mode: Mode): (r: Result<Obj>)
    ensures r.Err? <==> mode == Debug && !Get(Targeted(userConfig, form), "exclude").List?
    ensures r.Ok? ==> Get(r.value, "exclude").List?
  {
    CheckExclude(Targeted(userConfig, form), mode)
  }

  /** `FieldConfig` of a form field with everything but the model field and
      its store fixed. */
  function FieldOf(model: ModelInfo, rules: seq<Rule>, config: Obj, form: Obj, mode: Mode)
    : (ModelField, Value) -> Result<Value>
  {
    (mf, store) => FieldConfig(mf, model, rules, config, form, false, mode, store)
  }

  /** The outcomes of the fields of the first `|stores|` kept model fields,
      over the rules `rules`, each built with its own store. */
  function FieldResults(kept: seq<ModelField>, model: ModelInfo, rules: seq<Rule>, config: Obj, form: Obj,
                        mode: Mode, stores: seq<Value>): (results: seq<Result<Value>>)
    requires |stores| <= |kept|
    ensures |results| == |stores|
  {
    Zip2With(FieldOf(model, rules, config, form, mode), kept[..|stores|], stores)
  }

  /** The `i`-th outcome is the field config of the `i`-th kept field. */
  lemma FieldResultsAt(kept: seq<ModelField>, model: ModelInfo, rules: seq<Rule>, config: Obj, form: Obj,
                       mode: Mode, stores: seq<Value>, i: nat)
    requires |stores| <= |kept| && i < |stores|
    ensures FieldResults(kept, model, rules, config, form, mode, stores)[i]
            == FieldConfig(kept[i], model, rules, config, form, false, mode, stores[i])
  {
  }

  /** The fields built so far, over the rules `rules` the model had before
      the loop: each succeeded, with the store it was handed. */
  ghost predicate BuiltPrefix(model: ModelInfo, kept: seq<ModelField>, rules: seq<Rule>, config: Obj, form: Obj,
                              mode: Mode, items: seq<Value>, stores: seq<Value>)
  {
    && |items| == |stores| <= |kept|
    && FieldResults(kept, model, rules, config, form, mode, stores) == Oks(items)
  }

  /** The outcome of the field loop: all fields built, or the fields before
      the first failing one built and the failure of that one. */
  ghost predicate FieldsBuilt(model: ModelInfo, kept: seq<ModelField>, rules: seq<Rule>, config: Obj, form: Obj,
                              mode: Mode, r: Result<seq<Value>>, stores: seq<Value>)
  {
    && |stores| <= |kept|
    && (forall i :: 0 <= i < |stores| ==> FieldResults(kept, model, rules, config, form, mode, stores)[i].Ok?)
    && (r.Ok? ==> |stores| == |kept| && BuiltPrefix(model, kept, rules, config, form, mode, r.value, stores))
    && (r.Err? ==>
          && |stores| < |kept|
          && FieldConfig(kept[|stores|], model, rules, config, form, false, mode, Undefined) == Err(r.error))
  }

  lemma ExtendPrefix(model: ModelInfo, kept: seq<ModelField>, rules: seq<Rule>, config: Obj, form: Obj, mode: Mode,
                     items: seq<Value>, stores: seq<Value>, item: Value, store: Value)
    requires BuiltPrefix(model, kept, rules, config, form, mode, items, stores) && |stores| < |kept|
    requires FieldOf(model, rules, config, form, mode)(kept[|stores|], store) == Ok(item)
    ensures BuiltPrefix(model, kept, rules, config, form, mode, items + [item], stores + [store])
  {
    var n := |stores|;
    TakeOneMore(kept, n);
    Zip2WithAppend(FieldOf(model, rules, config, form, mode), kept[..n], stores, kept[n], store);
    OksAppend(items, item);
  }

  lemma PrefixFails(model: ModelInfo, kept: seq<ModelField>, rules: seq<Rule>, config: Obj, form: Obj, mode: Mode,
                    items: seq<Value>, stores: seq<Value>, e: Error)
    requires BuiltPrefix(model, kept, rules, config, form, mode, items, stores) && |stores| < |kept|
    requires FieldConfig(kept[|stores|], model, rules, config, form, false, mode, Undefined) == Err(e)
    ensures FieldsBuilt(model, kept, rules, config, form, mode, Err(e), stores)
  {
  }

  lemma PrefixComplete(model: ModelInfo, kept: seq<ModelField>, rules: seq<Rule>, config: Obj, form: Obj, mode: Mode,
                       items: seq<Value>, stores: seq<Value>)
    requires BuiltPrefix(model, kept, rules, config, form, mode, items, stores) && |stores| == |kept|
    ensures FieldsBuilt(model, kept, rules, config, form, mode, Ok(items), stores)
  {
  }

  /** One field of the loop. The model's rules already went through the
      passes of the fields `names`; building the field `mf` counts as one more
      pass, and the field config is the one it would have been over the
      original rules `rules0`. */
  method BuildFieldStep(model: ModelInfo, mf: ModelField, ghost rules0: seq<Rule>, ghost names: seq<string>,
                        config: Obj, form: Obj, mode: Mode, cache: StoreCache)
    returns (f: Result<Value>, ghost store: Value)
    requires model.validations.Length == |rules0|
    requires forall j :: 0 <= j < |rules0| ==> model.validations[j] == RuleAfterPasses(rules0[j], names)
    modifies model.validations, cache
    ensures f.Ok? ==> FieldConfig(mf, model, rules0, config, form, false, mode, store) == f
    ensures f.Err? ==> FieldConfig(mf, model, rules0, config, form, false, mode, Undefined) == f
    ensures f.Ok? ==> forall j :: 0 <= j < |rules0| ==>
              model.validations[j] == RuleAfterPasses(rules0[j], names + [mf.name])
    ensures forall j :: 0 <= j < |rules0| ==>
              model.validations[j] == rules0[j] || model.validations[j] == Wrapped(rules0[j])
    ensures var assoc := FieldAssociation(mf, model, rules0, config, form, false, mode);
      && (assoc.Some? ==> store.Ref? && StoreOutcome(old(cache.stores), cache.stores, assoc.value.name, config, store.obj))
      && (assoc.None? ==> cache.stores == old(cache.stores))
    ensures CacheExtends(old(cache.stores), cache.stores)
  {
    ghost var before := model.validations[..];
    f, store := BuildFieldConfig(mf, model, config, form, false, mode, cache);
    FieldConfigUnderRewrittenRules(mf, model, rules0, before, config, form, false, mode, store);
    FieldConfigUnderRewrittenRules(mf, model, rules0, before, config, form, false, mode, Undefined);
    forall j | 0 <= j < |rules0|
      ensures RuleAfter(before[j], Str(mf.name)) == RuleAfterPasses(rules0[j], names + [mf.name])
    {
      RuleAfterPassesStep(rules0[j], names, mf.name);
    }
  }

  /** One turn of the field loop: field `i` built over the rules as the
      earlier fields left them. */
  method FieldLoopStep(model: ModelInfo, kept: seq<ModelField>, i: nat, ghost rules0: seq<Rule>, config: Obj,
                       form: Obj, mode: Mode, ghost items: seq<Value>, ghost stores: seq<Value>, cache: StoreCache)
    returns (f: Result<Value>, ghost store: Value)
    requires i < |kept| && |stores| == i
    requires BuiltPrefix(model, kept, rules0, config, form, mode, items, stores)
    requires model.validations.Length == |rules0|
    requires forall j :: 0 <= j < |rules0| ==> model.validations[j] == RuleAfterPasses(rules0[j], FieldNames(kept[..i]))
    modifies model.validations, cache
    ensures f.Err? ==> FieldsBuilt(model, kept, rules0, config, form, mode, Err(f.error), stores)
    ensures f.Ok? ==> BuiltPrefix(model, kept, rules0, config, form, mode, items + [f.value], stores + [store])
    ensures f.Ok? ==> forall j :: 0 <= j < |rules0| ==>
              model.validations[j] == RuleAfterPasses(rules0[j], FieldNames(kept[..i + 1]))
    ensures forall j :: 0 <= j < |rules0| ==>
              model.validations[j] == rules0[j] || model.validations[j] == Wrapped(rules0[j])
    ensures CacheExtends(old(cache.stores), cache.stores)
  {
    f, store := BuildFieldStep(model, kept[i], rules0, FieldNames(kept[..i]), config, form, mode, cache);
    if f.Err? {
      PrefixFails(model, kept, rules0, config, form, mode, items, stores, f.error);
    } else {
      assert FieldOf(model, rules0, config, form, mode)(kept[i], store) == f;
      ExtendPrefix(model, kept, rules0, config, form, mode, items, stores, f.value, store);
      FieldNamesPrefix(kept, i);
    }
  }

  /** The field loop of `buildConfig`: one field config per kept model field,
      in model order. The rules pass of each field rewrites the model's rule
      array in place; after a complete loop every rule of a kept field has
      been through its pass. */
  method BuildFields(model: ModelInfo, kept: seq<ModelField>, config: Obj, form: Obj, mode: Mode, cache: StoreCache)
    returns (r: Result<seq<Value>>, ghost stores: seq<Value>)
    modifies model.validations, cache
    ensures FieldsBuilt(model, kept, old(model.validations[..]), config, form, mode, r, stores)
    ensures r.Ok? ==> forall j :: 0 <= j < model.validations.Length ==>
              model.validations[j] == RuleAfterPasses(old(model.validations[j]), FieldNames(kept))
    ensures forall j :: 0 <= j < model.validations.Length ==>
              model.validations[j] == old(model.validations[j]) || model.validations[j] == Wrapped(old(model.validations[j]))
    ensures CacheExtends(old(cache.stores), cache.stores)
  {
    ghost var rules0 := model.validations[..];
    var items: seq<Value> := [];
    stores := [];
    var i := 0;
    while i < |kept|
      invariant 0 <= i <= |kept| && |stores| == i
      invariant BuiltPrefix(model, kept, rules0, config, form, mode, items, stores)
      invariant model.validations.Length == |rules0|
      invariant forall j :: 0 <= j < |rules0| ==> model.validations[j] == RuleAfterPasses(rules0[j], FieldNames(kept[..i]))
      invariant CacheExtends(old(cache.stores), cache.stores)
    {
      var f;
      ghost var s;
      f, s := FieldLoopStep(model, kept, i, rules0, config, form, mode, items, stores, cache);
      if f.Err? {
        return Err(f.error), stores;
      }
      items := items + [f.value];
      stores := stores + [s];
      i := i + 1;
    }
    assert kept[..i] == kept;
    PrefixComplete(model, kept, rules0, config, form, mode, items, stores);
    r := Ok(items);
  }

  /** A field config that makes the form an upload form. */
  predicate IsUpload(field: Value)
  {
    field.Obj? && Get(field.props, "xtype") == Str("fileuploadfield")
  }

  /** The scan for a file upload field, which stops at the first one. */
  method FindUpload(fields: seq<Value>) returns (found: bool)
    ensures found <==> exists i :: 0 <= i < |fields| && IsUpload(fields[i])
  {
    var i := 0;
    while i < |fields|
      invariant 0 <= i <= |fields|
      invariant forall j :: 0 <= j < i ==> !IsUpload(fields[j])
    {
      if IsUpload(fields[i]) {
        return true;
      }
      i := i + 1;
    }
    return false;
  }

  /** A model field with a `file` rule becomes an upload field of the form,
      unless it is the id field or a foreign key. */
  lemma FileFieldMakesUploadForm(mf: ModelField, model: ModelInfo, rules: seq<Rule>, config: Obj, form: Obj,
                                 mode: Mode, store: Value, i: nat)
    requires i < |rules| && rules[i].kind == "file" && rules[i].name == mf.name
    requires mf.name != "id" && GetBelongsToAssociation(Str(mf.name), model).None?
    requires "xtype" !in AsObj(Get(config, "fileuploadfieldDefaults"))
    requires "name" !in AsObj(Get(config, "fileuploadfieldDefaults"))
    requires FieldConfig(mf, model, rules, config, form, false, mode, store).Ok?
    ensures IsUpload(FieldConfig(mf, model, rules, config, form, false, mode, store).value)
  {
    RuledFieldName(mf, rules, config, form, false, mode);
    FileRuleMakesUpload(BaseField(mf, config, form, false).value, Str(mf.name), rules, config, mode, i);
  }

  // ---------------------------------------------------------------------------
  // The buttons

  /** `buildButtonScope`: the scope of the form's buttons, which finds the
      panel and its form through the panel id. */
  function FormScope(id: Value): (scope: Value)
    ensures scope.Obj? && Get(scope.props, "id") == id
  {
    Obj(map[]["id" := id]["getPanel" := Closure("getPanel", [])]["getForm" := Closure("getForm", [])])
  }

  // ---------------------------------------------------------------------------
  // The panel

  /** Whether `loadRecord` asks for a record to be loaded: any value but
      `undefined` and `false`. */
  predicate LoadsRecord(loadRecord: Value)
  {
    loadRecord != Undefined && loadRecord != Bool(false)
  }

  /** The listener that loads the record with id `loadRecord` into the form. */
  function RecordLoader(loadRecord: Value): (loader: Value)
    ensures loader.Closure? && loader.captured == [loadRecord]
  {
    Closure("loadRecord", [loadRecord])
  }

  /** The autoload step: with a record to load, the panel's `afterrender`
      listener loads it, after any `afterrender` listener already there. */
  function LoadRecordHook(panel: Obj, loadRecord: Value): (r: Obj)
    ensures !LoadsRecord(loadRecord) ==> r == panel
    ensures LoadsRecord(loadRecord) ==> r.Keys == panel.Keys + {"listeners"}
    ensures panel.Keys <= r.Keys
    ensures forall k :: k in panel && k != "listeners" ==> r[k] == panel[k]
    ensures var listeners := Or(Get(panel, "listeners"), Obj(map[]));
      LoadsRecord(loadRecord) && listeners.Obj? ==>
        var existing := Get(listeners.props, "afterrender");
        && r["listeners"].Obj?
        && r["listeners"].props.Keys == listeners.props.Keys + {"afterrender"}
        && (forall k :: k in listeners.props && k != "afterrender" ==> r["listeners"].props[k] == listeners.props[k])
        && (Truthy(existing) ==> r["listeners"].props["afterrender"] == Sequenced(existing, RecordLoader(loadRecord)))
        && (!Truthy(existing) ==> r["listeners"].props["afterrender"] == RecordLoader(loadRecord))
  {
    if !LoadsRecord(loadRecord) then panel
    else
      var listeners := Or(Get(panel, "listeners"), Obj(map[]));
      if !listeners.Obj? then panel["listeners" := listeners]
      else
        var existing := Get(listeners.props, "afterrender");
        var handler := if Truthy(existing) then Sequenced(existing, RecordLoader(loadRecord)) else RecordLoader(loadRecord);
        panel["listeners" := Obj(listeners.props["afterrender" := handler])]
  }

  /** The record loader always runs last among the `afterrender` listeners,
      and a listener the caller gave is still run first. */
  lemma RecordLoaderRunsLast(panel: Obj, loadRecord: Value)
    requires LoadsRecord(loadRecord)
    requires Get(panel, "listeners").Obj?
    ensures var r := LoadRecordHook(panel, loadRecord);
      var after := r["listeners"].props["afterrender"];
      var existing := Get(panel["listeners"].props, "afterrender");
      && (after == RecordLoader(loadRecord) || (after.Sequenced? && after.second == RecordLoader(loadRecord)))
      && (Truthy(existing) ==> after.Sequenced? && after.first == existing)
  {
  }

  /** The panel config before the autoload step: the upload marks and the
      id, then the caller's initial panel config, then the defaults of a
      scaffolded form (the caller wins), then the scaffold config itself. */
  function PanelBase(config: Obj, initial: Obj, api: Value, id: Value, fields: seq<Value>, upload: bool): (r: Obj)
    ensures {"scaffold", "items", "id"} <= r.Keys
    ensures r["scaffold"] == Obj(config)
    ensures "items" !in initial ==> r["items"] == List(fields)
    ensures "id" in initial ==> r["id"] == initial["id"]
    ensures "id" !in initial ==> r["id"] == id
    ensures upload && "isUpload" !in initial ==> "isUpload" in r && r["isUpload"] == Bool(true)
    ensures !upload ==> ("isUpload" in r <==> "isUpload" in initial)
    ensures forall k :: k in initial && k != "scaffold" ==> k in r && r[k] == initial[k]
  {
    var marks: Obj := if upload then map[]["isUpload" := Bool(true)]["fileUpload" := Bool(true)] else map[];
    var own: Obj := map[]["id" := id]["api" := api]["paramOrder" := List([Str("data")])]["items" := List(fields)]
                       ["buttons" := Get(config, "buttons")];
    Apply(marks["id" := id], initial, own)["scaffold" := Obj(config)]
  }

  /** The panel config `buildConfig` returns, autoload listener included. */
  function FormPanel(config: Obj, initial: Obj, api: Value, id: Value, fields: seq<Value>, upload: bool): (r: Obj)
    ensures var base := PanelBase(config, initial, api, id, fields, upload);
      && base.Keys <= r.Keys
      && forall k :: k in base && k != "listeners" ==> r[k] == base[k]
  {
    LoadRecordHook(PanelBase(config, initial, api, id, fields, upload), Get(config, "loadRecord"))
  }

  /** `buildConfig` for the form of the model `config.target`, with the
      singleton's settings `form`. `initial` is
      the caller's initial panel config, `api` what `buildApiConfig` makes of
      the model and `freshId` the id `Ext.id` hands out. The ghost results
      are the field configs and the store each field was handed. */
  method BuildConfig(registry: Registry, userConfig: Value, form: Obj, initial: Obj, api: Value, freshId: string,
                     mode: Mode, cache: StoreCache)
    returns (r: Result<Obj>, ghost fields: seq<Value>, ghost stores: seq<Value>)
    modifies ValidationArrays(registry), cache
    ensures Prepared(userConfig, form, mode).Err? ==> r == Err(Prepared(userConfig, form, mode).error)
    ensures Prepared(userConfig, form, mode).Ok? && TargetName(Prepared(userConfig, form, mode).value) !in registry ==>
              r == Err(TypeError)
    ensures Prepared(userConfig, form, mode).Ok? && TargetName(Prepared(userConfig, form, mode).value) in registry ==>
      var config := Prepared(userConfig, form, mode).value;
      var model := registry[TargetName(config)];
      var kept := Kept(model.fields, ExcludeList(config));
      var id := Or(Get(initial, "id"), Str(freshId));
      && FieldsBuilt(model, kept, old(model.validations[..]), config, form, mode,
                     if r.Err? && |stores| < |kept| then Err(r.error) else Ok(fields), stores)
      && (r.Ok? ==>
            && |stores| == |kept|
            && ConfigWithButtons(config, FormScope(id)).Ok?
            && r.value == FormPanel(ConfigWithButtons(config, FormScope(id)).value, initial, api, id, fields,
                                    exists i :: 0 <= i < |fields| && IsUpload(fields[i])))
      && (r.Err? && |stores| == |kept| ==> ConfigWithButtons(config, FormScope(id)) == Err(r.error))
      && (r.Ok? ==> forall j :: 0 <= j < model.validations.Length ==>
            model.validations[j] == RuleAfterPasses(old(model.validations[j]), FieldNames(kept)))
      && (forall a :: a in ValidationArrays(registry) && a != model.validations ==> a[..] == old(a[..]))
    ensures CacheExtends(old(cache.stores), cache.stores)
  {
    fields, stores := [], [];
    var prepared := Prepared(userConfig, form, mode);
    if prepared.Err? {
      return Err(prepared.error), fields, stores;
    }
    var config := prepared.value;
    var name := TargetName(config);
    if name !in registry {
      return Err(TypeError), fields, stores;
    }
    var model := registry[name];
    var kept := Kept(model.fields, ExcludeList(config));
    var built;
    built, stores := BuildFields(model, kept, config, form, mode, cache);
    if built.Err? {
      return Err(built.error), fields, stores;
    }
    var items := built.value;
    fields := items;
    var upload := FindUpload(items);
    var id := Or(Get(initial, "id"), Str(freshId));
    var withButtons := BuildButtons(config, FormScope(id));
    if withButtons.Err? {
      return Err(withButtons.error), fields, stores;
    }
    r := Ok(FormPanel(withButtons.value, initial, api, id, items, upload));
  }
}
