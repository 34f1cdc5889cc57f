/** `Bancha.scaffold.Grid`: grid column configs from model fields, each with
    an editor field built by the form builder when the grid is editable. */
module GridScaffold {
  import opened Values
  import opened Naming
  import opened Schema
  import opened Stores
  import opened Defaults
  import opened FormRules
  import opened FormScaffold

  // ---------------------------------------------------------------------------
  // The singleton's settings

  /** `fieldToColumnConfigs`: the column a model field type becomes. */
  function ColumnTable(fieldType: string): (entry: Option<Obj>)
    ensures WellFormedEntry(entry)
    ensures entry.Some? <==> fieldType in ModelTypes
    ensures entry.Some? ==> entry.value["xtype"].s in {"gridcolumn", "numbercolumn", "booleancolumn", "datecolumn"}
    ensures entry.Some? ==> ("format" in entry.value <==> fieldType == "int")
  {
    if fieldType == "auto" || fieldType == "string" then Some(map["xtype" := Str("gridcolumn")])
    else if fieldType == "int" then Some(map["xtype" := Str("numbercolumn"), "format" := Str("0")])
    else if fieldType == "float" then Some(map["xtype" := Str("numbercolumn")])
    else if fieldType == "boolean" || fieldType == "bool" then Some(map["xtype" := Str("booleancolumn")])
    else if fieldType == "date" then Some(map["xtype" := Str("datecolumn")])
    else None
  }

  /** Every model type has both a column and a field. */
  lemma TablesCoverSameTypes(fieldType: string)
    ensures ColumnTable(fieldType).Some? <==> FieldTable(fieldType).Some?
  {
  }

  /** The settings of the `Bancha.scaffold.Grid` singleton that a build reads. */
  const GridDefaults: Obj := map[
    "exclude" := List([]),
    "columnDefaults" := Obj(map["flex" := Num(1)]),
    "gridcolumnDefaults" := Obj(map[]),
    "numbercolumnDefaults" := Obj(map[]),
    "booleancolumnDefaults" := Obj(map[]),
    "datecolumnDefaults" := Obj(map[]),
    "formConfig" := Obj(map[]),
    "storeDefaultClass" := Str("Ext.data.Store"),
    "storeDefaults" := Obj(map["autoLoad" := Bool(true)]),
    "oneStorePerModel" := Bool(true),
    "onCreate" := Closure("Bancha.scaffold.Grid.onCreate", []),
    "onSave" := Closure("Bancha.scaffold.Grid.onSave", []),
    "onReset" := Closure("Bancha.scaffold.Grid.onReset", []),
    "onDelete" := Closure("Bancha.scaffold.Grid.onDelete", []),
    "editable" := Bool(true),
    "deletable" := Bool(true),
    "buttons" := List([Str("->"), Str("create"), Str("reset"), Str("save")]),
    "createButtonConfig" := Obj(map["iconCls" := Str("icon-add"), "text" := Str("Create")]),
    "saveButtonConfig" := Obj(map["iconCls" := Str("icon-save"), "text" := Str("Save")]),
    "resetButtonConfig" := Obj(map["iconCls" := Str("icon-reset"), "text" := Str("Reset")]),
    "destroyButtonConfig" := Obj(map[
      "xtype" := Str("actioncolumn"),
      "width" := Num(50),
      "items" := List([Obj(map["icon" := Str("/img/icons/delete.png"), "tooltip" := Str("Delete"),
                               "handler" := EmptyFn])])])
  ]

  // ---------------------------------------------------------------------------
  // One column

  /** `buildDefaultColumnFromModelType`. */
  function BuildDefaultColumn(fieldType: string, config: Obj, grid: Obj): (r: Result<Obj>)
    ensures r.Err? <==> fieldType !in ModelTypes || !Pick(config, grid, "columnDefaults").Obj?
    ensures r.Ok? ==> Get(r.value, "xtype") == ColumnTable(fieldType).value["xtype"]
  {
    BuildDefault(ColumnTable(fieldType), config, grid, "columnDefaults")
  }

  /** The start of `buildColumnConfig`: the default column, titled with the
      humanized field name and bound to the field, when the field has a name. */
  function BaseColumn(mf: ModelField, config: Obj, grid: Obj): (r: Result<Obj>)
    ensures r.Err? <==> BuildDefaultColumn(mf.fieldType, config, grid).Err? || (mf.name != "" && Humanize(mf.name).Err?)
    ensures r.Err? ==> r.error == TypeError
    ensures r.Ok? ==> Get(r.value, "xtype") == ColumnTable(mf.fieldType).value["xtype"]
    ensures r.Ok? && mf.name != "" ==>
      && "text" in r.value && r.value["text"] == Str(Humanize(mf.name).value)
      && "dataIndex" in r.value && r.value["dataIndex"] == Str(mf.name)
    ensures r.Ok? && mf.name == "" ==> r == BuildDefaultColumn(mf.fieldType, config, grid)
  {
    match BuildDefaultColumn(mf.fieldType, config, grid)
    case Err(e) => Err(e)
    case Ok(column) =>
      if mf.name == "" then Ok(column)
      else if Humanize(mf.name).Err? then Err(TypeError)
      else Ok(column["text" := Str(Humanize(mf.name).value)]["dataIndex" := Str(mf.name)])
  }

  /** The renderer of a foreign-key column: it shows the display field
      `fieldName` of the associated record found in `store`. */
  function Renderer(store: Value, fieldName: Value): (renderer: Value)
    ensures renderer.Closure? && renderer.captured == [store, fieldName]
  {
    Closure("renderer", [store, fieldName])
  }

  /** The column after the association check: a foreign key of a belongs-to
      association renders the associated record's display field. */
  function LinkedColumn(column: Obj, mf: ModelField, model: ModelInfo, store: Value): (r: Obj)
    ensures GetBelongsToAssociation(Str(mf.name), model).None? ==> r == column
    ensures GetBelongsToAssociation(Str(mf.name), model).Some? ==>
      r == column["renderer" := Renderer(store, GetDisplayFieldName(GetBelongsToAssociation(Str(mf.name), model).value))]
    ensures forall k :: k in column && k != "renderer" ==> k in r && r[k] == column[k]
  {
    var assoc := GetBelongsToAssociation(Str(mf.name), model);
    if assoc.Some? then column["renderer" := Renderer(store, GetDisplayFieldName(assoc.value))] else column
  }

  /** The grid `render` listener after a foreign-key column: whatever ran
      before (`Ext.emptyFn` when nothing did), then a refresh once `store`
      has loaded. */
  function ColumnListeners(listeners: Obj, mf: ModelField, model: ModelInfo, store: Value): (r: Obj)
    ensures GetBelongsToAssociation(Str(mf.name), model).None? ==> r == listeners
    ensures GetBelongsToAssociation(Str(mf.name), model).Some? ==>
      && r.Keys == listeners.Keys + {"render"}
      && r["render"] == Sequenced(Or(Get(listeners, "render"), EmptyFn), Closure("refreshOnLoad", [store]))
    ensures forall k :: k in listeners && k != "render" ==> k in r && r[k] == listeners[k]
  {
    if GetBelongsToAssociation(Str(mf.name), model).Some? then
      listeners["render" := Sequenced(Or(Get(listeners, "render"), EmptyFn), Closure("refreshOnLoad", [store]))]
    else listeners
  }

  /** The form settings an editor field is built with: `config.formConfig`
      over the form singleton's settings `form`, with the grid's store
      settings. */
  function EditorFormConfig(config: Obj, form: Obj): (r: Obj)
    ensures Get(r, "storeDefaults") == Get(config, "storeDefaults")
    ensures OneStorePerModel(r) <==> OneStorePerModel(config)
    ensures forall k :: k in AsObj(Or(Get(config, "formConfig"), Obj(map[]))) && k != "storeDefaults" && k != "oneStorePerModel" ==>
              k in r && r[k] == AsObj(Or(Get(config, "formConfig"), Obj(map[])))[k]
    ensures var formConfig := AsObj(Or(Get(config, "formConfig"), Obj(map[])));
      forall k :: k in form && k !in formConfig && k != "storeDefaults" && k != "oneStorePerModel" ==>
        k in r && r[k] == form[k]
  {
    Merge(Or(Get(config, "formConfig"), Obj(map[])), form)
      ["storeDefaults" := Get(config, "storeDefaults")]["oneStorePerModel" := Get(config, "oneStorePerModel")]
  }

  /** The editor field as the source transforms it a second time: reading
      `name` off an editor that was dropped (`undefined`) crashes. */
  function EditorFieldAsWritten(field: Value): (r: Result<Value>)
    ensures field == Undefined ==> r == Err(TypeError)
    ensures field.Obj? ==> r == Ok(Obj(InternalTransformField(field.props)))
  {
    if field.Obj? then Ok(Obj(InternalTransformField(field.props)))
    else if field == Undefined then Err(TypeError)
    else Ok(field)
  }

  /** The editor field transformed a second time, where a dropped editor
      stays dropped. */
  function EditorField(field: Value): (r: Value)
    ensures field.Obj? ==> r == Obj(InternalTransformField(field.props))
    ensures !field.Obj? ==> r == field
  {
    if field.Obj? then Obj(InternalTransformField(field.props)) else field
  }

  /** The second transform changes no editor the form builder makes. */
  lemma EditorFieldKeepsEditor(mf: ModelField, model: ModelInfo, rules: seq<Rule>, config: Obj, form: Obj,
                               mode: Mode, store: Value)
    requires FieldConfig(mf, model, rules, config, form, true, mode, store).Ok?
    ensures EditorField(FieldConfig(mf, model, rules, config, form, true, mode, store).value)
            == FieldConfig(mf, model, rules, config, form, true, mode, store).value
  {
    var ruled := RuledField(mf, rules, config, form, true, mode).value;
    InternalTransformFieldIdempotent(LinkedField(ruled, model, store));
  }

  /** The editor field of a column (`column.field`), built by the form
      builder with `isEditor` set. */
  function ColumnEditor(mf: ModelField, model: ModelInfo, rules: seq<Rule>, config: Obj, form: Obj, mode: Mode,
                        editorStore: Value): (r: Result<Value>)
    ensures r.Err? <==> FieldConfig(mf, model, rules, EditorFormConfig(config, form), form, true, mode, editorStore).Err?
    ensures r.Ok? ==> r.value == Undefined || r.value.Obj?
  {
    match FieldConfig(mf, model, rules, EditorFormConfig(config, form), form, true, mode, editorStore)
    case Err(e) => Err(e)
    case Ok(f) => Ok(EditorField(f))
  }

  /** The editor field as the source computes it. */
  function ColumnEditorAsWritten(mf: ModelField, model: ModelInfo, rules: seq<Rule>, config: Obj, form: Obj,
                                 mode: Mode, editorStore: Value): (r: Result<Value>)
    ensures FieldConfig(mf, model, rules, EditorFormConfig(config, form), form, true, mode, editorStore).Err? ==> r.Err?
  {
    match FieldConfig(mf, model, rules, EditorFormConfig(config, form), form, true, mode, editorStore)
    case Err(e) => Err(e)
    case Ok(f) => EditorFieldAsWritten(f)
  }

  /** `internalTransformColumnConfig`: the `id` column is hidden and not
      editable; every other column passes unchanged. */
  function InternalTransformColumn(column: Obj): (r: Obj)
    ensures Get(column, "dataIndex") == Str("id") ==> Get(r, "hidden") == Bool(true) && Get(r, "field") == Undefined
    ensures Get(column, "dataIndex") != Str("id") ==> r == column
    ensures forall k :: k in column && k != "hidden" && k != "field" ==> k in r && r[k] == column[k]
  {
    if Get(column, "dataIndex") == Str("id") then column["hidden" := Bool(true)]["field" := Undefined] else column
  }

  /** Hiding the id column twice is hiding it once. */
  lemma InternalTransformColumnIdempotent(column: Obj)
    ensures InternalTransformColumn(InternalTransformColumn(column)) == InternalTransformColumn(column)
  {
  }

  /** The end of `buildColumnConfig`: the editor field, when the grid is
      editable, then the id-column transform. */
  function FinishedColumn(column: Obj, editable: bool, editor: Result<Value>): (r: Result<Obj>)
    ensures r.Err? <==> editable && editor.Err?
    ensures r.Ok? ==> Get(r.value, "xtype") == Get(column, "xtype")
    ensures r.Ok? && editable && Get(column, "dataIndex") != Str("id") ==> Get(r.value, "field") == editor.value
    ensures r.Ok? && Get(column, "dataIndex") == Str("id") ==>
              Get(r.value, "hidden") == Bool(true) && Get(r.value, "field") == Undefined
    ensures r.Ok? ==> forall k :: k in column && k != "hidden" && k != "field" ==> k in r.value && r.value[k] == column[k]
  {
    if !editable then Ok(InternalTransformColumn(column))
    else
      match editor
      case Err(e) => Err(e)
      case Ok(f) => Ok(InternalTransformColumn(column["field" := f]))
  }

  /** What `buildColumnConfig` returns for the model field `mf` over the rules
      `rules`, where `store` is the store handed out for the column's
      association and `editorStore` the one handed out for the editor's. */
  function ColumnConfig(mf: ModelField, model: ModelInfo, rules: seq<Rule>, config: Obj, grid: Obj, form: Obj,
                        mode: Mode, store: Value, editorStore: Value): (r: Result<Obj>)
    ensures BaseColumn(mf, config, grid).Err? ==> r.Err?
    ensures BaseColumn(mf, config, grid).Ok? ==>
              r == FinishedColumn(LinkedColumn(BaseColumn(mf, config, grid).value, mf, model, store),
                                  Truthy(Get(config, "editable")),
                                  ColumnEditor(mf, model, rules, config, form, mode, editorStore))
  {
    match BaseColumn(mf, config, grid)
    case Err(e) => Err(e)
    case Ok(base) =>
      FinishedColumn(LinkedColumn(base, mf, model, store), Truthy(Get(config, "editable")),
                     ColumnEditor(mf, model, rules, config, form, mode, editorStore))
  }

  /** `buildColumnConfig` as written, with the crash on a dropped editor. */
  function ColumnConfigAsWritten(mf: ModelField, model: ModelInfo, rules: seq<Rule>, config: Obj, grid: Obj,
                                 form: Obj, mode: Mode, store: Value, editorStore: Value): (r: Result<Obj>)
    ensures BaseColumn(mf, config, grid).Err? ==> r.Err?
    ensures BaseColumn(mf, config, grid).Ok? ==>
              r == FinishedColumn(LinkedColumn(BaseColumn(mf, config, grid).value, mf, model, store),
                                  Truthy(Get(config, "editable")),
                                  ColumnEditorAsWritten(mf, model, rules, config, form, mode, editorStore))
  {
    match BaseColumn(mf, config, grid)
    case Err(e) => Err(e)
    case Ok(base) =>
      FinishedColumn(LinkedColumn(base, mf, model, store), Truthy(Get(config, "editable")),
                     ColumnEditorAsWritten(mf, model, rules, config, form, mode, editorStore))
  }

  /** Wherever the source gets through, the corrected column is the same
      one: the two differ only where an editor was dropped. */
  lemma AsWrittenAgreesWhenItSucceeds(mf: ModelField, model: ModelInfo, rules: seq<Rule>, config: Obj, grid: Obj,
                                      form: Obj, mode: Mode, store: Value, editorStore: Value)
    requires ColumnConfigAsWritten(mf, model, rules, config, grid, form, mode, store, editorStore).Ok?
    ensures ColumnConfigAsWritten(mf, model, rules, config, grid, form, mode, store, editorStore)
            == ColumnConfig(mf, model, rules, config, grid, form, mode, store, editorStore)
  {
  }

  /** In an editable grid, a field whose `file` rule makes it an upload
      field (not the id, not a foreign key) gets no editor: the corrected
      second transform keeps it dropped, the source's crashes. */
  lemma UploadEditorDropped(mf: ModelField, model: ModelInfo, rules: seq<Rule>, config: Obj, form: Obj, mode: Mode,
                            editorStore: Value, i: nat)
    requires i < |rules| && rules[i].kind == "file" && rules[i].name == mf.name
    requires mf.name != "id" && GetBelongsToAssociation(Str(mf.name), model).None?
    requires "xtype" !in AsObj(Get(EditorFormConfig(config, form), "fileuploadfieldDefaults"))
    requires "name" !in AsObj(Get(EditorFormConfig(config, form), "fileuploadfieldDefaults"))
    requires FieldConfig(mf, model, rules, EditorFormConfig(config, form), form, true, mode, editorStore).Ok?
    ensures ColumnEditorAsWritten(mf, model, rules, config, form, mode, editorStore) == Err(TypeError)
    ensures ColumnEditor(mf, model, rules, config, form, mode, editorStore) == Ok(Undefined)
  {
    EditorDropsUploadField(mf, model, rules, EditorFormConfig(config, form), form, mode, editorStore, i);
  }

  /** The discrepancy, as written: the column of such a field crashes the
      build. */
  lemma UploadEditorCrashesAsWritten(mf: ModelField, model: ModelInfo, rules: seq<Rule>, config: Obj, grid: Obj,
                                     form: Obj, mode: Mode, store: Value, editorStore: Value, i: nat)
    requires Truthy(Get(config, "editable"))
    requires i < |rules| && rules[i].kind == "file" && rules[i].name == mf.name
    requires mf.name != "id" && GetBelongsToAssociation(Str(mf.name), model).None?
    requires "xtype" !in AsObj(Get(EditorFormConfig(config, form), "fileuploadfieldDefaults"))
    requires "name" !in AsObj(Get(EditorFormConfig(config, form), "fileuploadfieldDefaults"))
    requires BaseColumn(mf, config, grid).Ok?
    requires FieldConfig(mf, model, rules, EditorFormConfig(config, form), form, true, mode, editorStore).Ok?
    ensures ColumnConfigAsWritten(mf, model, rules, config, grid, form, mode, store, editorStore) == Err(TypeError)
  {
    UploadEditorDropped(mf, model, rules, config, form, mode, editorStore, i);
  }

  /** The discrepancy, corrected: the column of such a field is built, with
      no editor. */
  lemma UploadColumnHasNoEditor(mf: ModelField, model: ModelInfo, rules: seq<Rule>, config: Obj, grid: Obj,
                                form: Obj, mode: Mode, store: Value, editorStore: Value, i: nat)
    requires Truthy(Get(config, "editable"))
    requires i < |rules| && rules[i].kind == "file" && rules[i].name == mf.name
    requires mf.name != "id" && GetBelongsToAssociation(Str(mf.name), model).None?
    requires "xtype" !in AsObj(Get(EditorFormConfig(config, form), "fileuploadfieldDefaults"))
    requires "name" !in AsObj(Get(EditorFormConfig(config, form), "fileuploadfieldDefaults"))
    requires BaseColumn(mf, config, grid).Ok?
    requires FieldConfig(mf, model, rules, EditorFormConfig(config, form), form, true, mode, editorStore).Ok?
    ensures var r := ColumnConfig(mf, model, rules, config, grid, form, mode, store, editorStore);
      r.Ok? && Get(r.value, "field") == Undefined
  {
    UploadEditorDropped(mf, model, rules, config, form, mode, editorStore, i);
    var column := LinkedColumn(BaseColumn(mf, config, grid).value, mf, model, store);
    assert ColumnConfig(mf, model, rules, config, grid, form, mode, store, editorStore)
        == FinishedColumn(column, true, Ok(Undefined));
    FinishedWithoutEditor(column);
  }

  /** A column whose editor was dropped has no editor. */
  lemma FinishedWithoutEditor(column: Obj)
    ensures FinishedColumn(column, true, Ok(Undefined)).Ok?
    ensures Get(FinishedColumn(column, true, Ok(Undefined)).value, "field") == Undefined
  {
  }

  /** The `id` column is hidden and has no editor, whatever the settings. */
  lemma IdColumnHidden(model: ModelInfo, rules: seq<Rule>, config: Obj, grid: Obj, form: Obj, mode: Mode,
                       store: Value, editorStore: Value, fieldType: string)
    requires ColumnConfig(ModelField("id", fieldType, Undefined), model, rules, config, grid, form, mode, store, editorStore).Ok?
    ensures var column := ColumnConfig(ModelField("id", fieldType, Undefined), model, rules, config, grid, form, mode,
                                       store, editorStore).value;
      Get(column, "hidden") == Bool(true) && Get(column, "field") == Undefined
  {
    var mf := ModelField("id", fieldType, Undefined);
    assert GetBelongsToAssociation(Str("id"), model).None? by {
      BelongsToAssociationNeedsForeignKey("id", model);
    }
  }

  /** Rewritten rules build the same column. */
  lemma ColumnConfigUnderRewrittenRules(mf: ModelField, model: ModelInfo, rules: seq<Rule>, rewritten: seq<Rule>,
                                        config: Obj, grid: Obj, form: Obj, mode: Mode, store: Value, editorStore: Value)
    requires |rewritten| == |rules|
    requires forall j :: 0 <= j < |rules| ==> rewritten[j] == rules[j] || rewritten[j] == Wrapped(rules[j])
    ensures ColumnConfig(mf, model, rewritten, config, grid, form, mode, store, editorStore)
            == ColumnConfig(mf, model, rules, config, grid, form, mode, store, editorStore)
  {
    FieldConfigUnderRewrittenRules(mf, model, rules, rewritten, EditorFormConfig(config, form), form, true, mode, editorStore);
  }

  /** The first half of `buildColumnConfig`: the default column, and for a
      foreign key its renderer over a store from the store cache (with the
      grid's settings) and the grid's extra `render` listener. */
  method LinkColumn(mf: ModelField, model: ModelInfo, config: Obj, grid: Obj, listeners: Obj, cache: StoreCache)
    returns (column: Result<Obj>, listenersOut: Obj, ghost store: Value)
    modifies cache
    ensures column.Err? <==> BaseColumn(mf, config, grid).Err?
    ensures column.Err? ==> column.error == TypeError
    ensures column.Ok? ==> column.value == LinkedColumn(BaseColumn(mf, config, grid).value, mf, model, store)
    ensures column.Ok? ==> listenersOut == ColumnListeners(listeners, mf, model, store)
    ensures var assoc := GetBelongsToAssociation(Str(mf.name), model);
      && (column.Ok? && assoc.Some? ==> store.Ref? && StoreOutcome(old(cache.stores), cache.stores, assoc.value.name, config, store.obj))
      && (!(column.Ok? && assoc.Some?) ==> cache.stores == old(cache.stores))
    ensures CacheExtends(old(cache.stores), cache.stores)
  {
    listenersOut, store := listeners, Undefined;
    var base := BaseColumn(mf, config, grid);
    if base.Err? {
      return Err(base.error), listenersOut, store;
    }
    var assoc := GetBelongsToAssociation(Str(mf.name), model);
    var ref := Undefined;
    if assoc.Some? {
      var s := cache.GetStore(assoc.value.name, config);
      ref := Ref(s);
    }
    store := ref;
    column := Ok(LinkedColumn(base.value, mf, model, ref));
    listenersOut := ColumnListeners(listeners, mf, model, ref);
  }

  /** `buildColumnConfig`. The editor's association takes its store from the
      store cache with the editor's settings; the editor's rules pass
      rewrites the model's rule array in place. The ghost results are the
      stores handed out to the column and to the editor (`Undefined` where
      none was) and the store cache as it was between the two. */
  method BuildColumnConfig(mf: ModelField, model: ModelInfo, config: Obj, grid: Obj, form: Obj, mode: Mode,
                           listeners: Obj, cache: StoreCache)
    returns (r: Result<Obj>, listenersOut: Obj, ghost store: Value, ghost editorStore: Value,
             ghost mid: map<string, Instance>)
    modifies model.validations, cache
    ensures r == ColumnConfig(mf, model, old(model.validations[..]), config, grid, form, mode, store, editorStore)
    ensures r.Ok? ==> listenersOut == ColumnListeners(listeners, mf, model, store)
    ensures Truthy(Get(config, "editable")) && BaseColumn(mf, config, grid).Ok? ==>
              RulesPassed(mf, old(model.validations[..]), model.validations[..], EditorFormConfig(config, form), form, true, mode)
    ensures !(Truthy(Get(config, "editable")) && BaseColumn(mf, config, grid).Ok?) ==>
              model.validations[..] == old(model.validations[..])
    ensures ColumnStoresOutcome(mf, model, old(model.validations[..]), config, grid, form, mode,
                                  old(cache.stores), mid, cache.stores, store, editorStore)
    ensures CacheExtends(old(cache.stores), cache.stores)
  {
    editorStore := Undefined;
    var linked;
    linked, listenersOut, store := LinkColumn(mf, model, config, grid, listeners, cache);
    mid := cache.stores;
    if linked.Err? {
      return Err(linked.error), listenersOut, store, editorStore, mid;
    }
    assert model.validations[..] == old(model.validations[..]);
    r, editorStore := EditedColumn(linked.value, mf, model, config, form, mode, cache);
  }

  /** The second half of `buildColumnConfig`: in an editable grid the column
      gets its editor, then the `id` column is hidden. */
  method EditedColumn(column: Obj, mf: ModelField, model: ModelInfo, config: Obj, form: Obj, mode: Mode,
                      cache: StoreCache)
    returns (r: Result<Obj>, ghost editorStore: Value)
    modifies model.validations, cache
    ensures r == FinishedColumn(column, Truthy(Get(config, "editable")),
                                ColumnEditor(mf, model, old(model.validations[..]), config, form, mode, editorStore))
    ensures Truthy(Get(config, "editable")) ==>
              RulesPassed(mf, old(model.validations[..]), model.validations[..], EditorFormConfig(config, form), form, true, mode)
    ensures !Truthy(Get(config, "editable")) ==> model.validations[..] == old(model.validations[..])
    ensures var assoc := if Truthy(Get(config, "editable"))
                         then FieldAssociation(mf, model, old(model.validations[..]), EditorFormConfig(config, form),
                                               form, true, mode)
                         else None;
      && (assoc.Some? ==>
            editorStore.Ref?
            && StoreOutcome(old(cache.stores), cache.stores, assoc.value.name, EditorFormConfig(config, form), editorStore.obj))
      && (assoc.None? ==> cache.stores == old(cache.stores))
    ensures CacheExtends(old(cache.stores), cache.stores)
  {
    editorStore := Undefined;
    var editor: Result<Value> := Ok(Undefined);
    if Truthy(Get(config, "editable")) {
      editor, editorStore := BuildEditor(mf, model, config, form, mode, cache);
    }
    r := FinishedColumn(column, Truthy(Get(config, "editable")), editor);
  }

  /** The stores a column hands out, each through the store cache: the
      column's own for a foreign key, taking the cache from `before` to `mid`,
      then the editor's for the association its field config links, taking
      it from `mid` to `after`. */
  ghost predicate ColumnStoresOutcome(mf: ModelField, model: ModelInfo, rules: seq<Rule>, config: Obj, grid: Obj,
                                      form: Obj, mode: Mode, before: map<string, Instance>,
                                      mid: map<string, Instance>, after: map<string, Instance>,
                                      store: Value, editorStore: Value)
  {
    var linked := BaseColumn(mf, config, grid).Ok?;
    var assoc := GetBelongsToAssociation(Str(mf.name), model);
    var editorAssoc := if linked && Truthy(Get(config, "editable"))
                       then FieldAssociation(mf, model, rules, EditorFormConfig(config, form), form, true, mode)
                       else None;
    && (linked && assoc.Some? ==> store.Ref? && StoreOutcome(before, mid, assoc.value.name, config, store.obj))
    && (!(linked && assoc.Some?) ==> mid == before)
    && (editorAssoc.Some? ==>
          editorStore.Ref?
          && StoreOutcome(mid, after, editorAssoc.value.name, EditorFormConfig(config, form), editorStore.obj))
    && (editorAssoc.None? ==> after == mid)
  }

  /** The editor of an editable grid's column: the field config built with
      the editor settings, then reduced to what a column editor takes. */
  method BuildEditor(mf: ModelField, model: ModelInfo, config: Obj, form: Obj, mode: Mode, cache: StoreCache)
    returns (editor: Result<Value>, ghost editorStore: Value)
    modifies model.validations, cache
    ensures editor == ColumnEditor(mf, model, old(model.validations[..]), config, form, mode, editorStore)
    ensures RulesPassed(mf, old(model.validations[..]), model.validations[..], EditorFormConfig(config, form), form, true, mode)
    ensures var assoc := FieldAssociation(mf, model, old(model.validations[..]), EditorFormConfig(config, form), form, true, mode);
      && (assoc.Some? ==>
            editorStore.Ref?
            && StoreOutcome(old(cache.stores), cache.stores, assoc.value.name, EditorFormConfig(config, form), editorStore.obj))
      && (assoc.None? ==> cache.stores == old(cache.stores))
    ensures CacheExtends(old(cache.stores), cache.stores)
  {
    var field;
    field, editorStore := BuildFieldConfig(mf, model, EditorFormConfig(config, form), form, true, mode, cache);
    editor := if field.Err? then Err(field.error) else Ok(EditorField(field.value));
  }
}
