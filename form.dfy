/** `Bancha.scaffold.Form`: form-field configs from model fields, and the
    form panel config built around them. */
module FormScaffold {
  import opened Values
  import opened Naming
  import opened Schema
  import opened Stores
  import opened Buttons
  import opened Defaults
  import opened FormRules

  // ---------------------------------------------------------------------------
  // The singleton's settings

  /** `fieldToFieldConfigs`: the widget a model field type becomes. */
  function FieldTable(fieldType: string): (entry: Option<Obj>)
    ensures WellFormedEntry(entry)
    ensures entry.Some? <==> fieldType in ModelTypes
    ensures entry.Some? ==> entry.value["xtype"].s in {"textfield", "numberfield", "checkboxfield", "datefield"}
    ensures entry.Some? ==> ("allowDecimals" in entry.value <==> fieldType == "int")
  {
    if fieldType == "auto" || fieldType == "string" then Some(map["xtype" := Str("textfield")])
    else if fieldType == "int" then Some(map["xtype" := Str("numberfield"), "allowDecimals" := Bool(false)])
    else if fieldType == "float" then Some(map["xtype" := Str("numberfield")])
    else if fieldType == "boolean" || fieldType == "bool" then Some(map["xtype" := Str("checkboxfield")])
    else if fieldType == "date" then Some(map["xtype" := Str("datefield")])
    else None
  }

  /** The settings of the `Bancha.scaffold.Form` singleton that a build reads. */
  const FormDefaults: Obj := map[
    "exclude" := List([]),
    "fieldDefaults" := Obj(map[]),
    "datefieldDefaults" := Obj(map[]),
    "fileuploadfieldDefaults" := Obj(map["emptyText" := Str("Select an file")]),
    "textfieldDefaults" := Obj(map[]),
    "numberfieldDefaults" := Obj(map[]),
    "checkboxfieldDefaults" := Obj(map["uncheckedValue" := Bool(false)]),
    "onSave" := Closure("Bancha.scaffold.Form.onSave", []),
    "onReset" := Closure("Bancha.scaffold.Form.onReset", []),
    "buttons" := List([Str("reset"), Str("save")]),
    "saveButtonConfig" := Obj(map["iconCls" := Str("icon-save"), "text" := Str("Save"), "formBind" := Bool(true)]),
    "resetButtonConfig" := Obj(map["iconCls" := Str("icon-reset"), "text" := Str("Reset")]),
    "loadRecord" := Bool(false)
  ]

  // ---------------------------------------------------------------------------
  // One field

  /** `buildDefaultFieldFromModelType`: the layered defaults for a model type;
      the widget type always comes from the type table. */
  function BuildDefaultField(fieldType: string, config: Obj, form: Obj): (r: Result<Obj>)
    ensures r.Err? <==> fieldType !in ModelTypes || !Pick(config, form, "fieldDefaults").Obj?
    ensures r.Ok? ==> Get(r.value, "xtype") == FieldTable(fieldType).value["xtype"]
  {
    BuildDefault(FieldTable(fieldType), config, form, "fieldDefaults")
  }

  /** The start of `buildFieldConfig`: the default field, named after the model
      field; outside an editor also labelled with the humanized name and, for
      a date field with a date format, given that format. */
  function BaseField(mf: ModelField, config: Obj, form: Obj, isEditor: bool): (r: Result<Obj>)
    ensures r.Err? <==> BuildDefaultField(mf.fieldType, config, form).Err? || (!isEditor && Humanize(mf.name).Err?)
    ensures r.Err? ==> r.error == TypeError
    ensures r.Ok? ==> "name" in r.value && r.value["name"] == Str(mf.name)
    ensures r.Ok? ==> Get(r.value, "xtype") == FieldTable(mf.fieldType).value["xtype"]
    ensures r.Ok? && !isEditor ==> "fieldLabel" in r.value && r.value["fieldLabel"] == Str(Humanize(mf.name).value)
    ensures r.Ok? && mf.fieldType == "date" && !isEditor && Truthy(mf.dateFormat) ==>
              "format" in r.value && r.value["format"] == mf.dateFormat
  {
    match BuildDefaultField(mf.fieldType, config, form)
    case Err(e) => Err(e)
    case Ok(field) =>
      var named := field["name" := Str(mf.name)];
      if isEditor then Ok(named)
      else if Humanize(mf.name).Err? then Err(TypeError)
      else
        var labelled := named["fieldLabel" := Str(Humanize(mf.name).value)];
        if mf.fieldType == "date" && Truthy(mf.dateFormat) then Ok(labelled["format" := mf.dateFormat])
        else Ok(labelled)
  }

  /** The keys an association writes. */
  const AssociationKeys: set<string> := {"xtype", "store", "displayField", "valueField", "queryMode"}

  /** A foreign-key field becomes a local combo box over the associated
      model's store, showing its display field and storing its id. */
  function WithAssociation(field: Obj, assoc: ModelInfo, store: Value): (r: Obj)
    ensures r.Keys == field.Keys + AssociationKeys
    ensures r["xtype"] == Str("combobox") && r["store"] == store && r["queryMode"] == Str("local")
    ensures r["displayField"] == GetDisplayFieldName(assoc)
    ensures Truthy(assoc.idProperty) ==> r["valueField"] == assoc.idProperty
    ensures !Truthy(assoc.idProperty) ==> r["valueField"] == Str("id")
    ensures forall k :: k in field && k !in AssociationKeys ==> r[k] == field[k]
  {
    field["xtype" := Str("combobox")]["store" := store]["displayField" := GetDisplayFieldName(assoc)]
         ["valueField" := Or(assoc.idProperty, Str("id"))]["queryMode" := Str("local")]
  }

  /** The field config after the association check: a foreign key of a
      registered belongs-to association becomes a combo box; any other field
      is left as it is. */
  function LinkedField(field: Obj, model: ModelInfo, store: Value): (r: Obj)
    ensures GetBelongsToAssociation(Get(field, "name"), model).None? ==> r == field
    ensures GetBelongsToAssociation(Get(field, "name"), model).Some? ==>
              r == WithAssociation(field, GetBelongsToAssociation(Get(field, "name"), model).value, store)
    ensures forall k :: k in field && k !in AssociationKeys ==> k in r && r[k] == field[k]
  {
    var assoc := GetBelongsToAssociation(Get(field, "name"), model);
    if assoc.Some? then WithAssociation(field, assoc.value, store) else field
  }

  /** `internalTransformFieldConfig`: the `id` field is hidden; every other
      field passes unchanged. */
  function InternalTransformField(field: Obj): (r: Obj)
    ensures Get(field, "name") == Str("id") ==> Get(r, "xtype") == Str("hiddenfield")
    ensures Get(field, "name") != Str("id") ==> r == field
    ensures forall k :: k in field ==> k in r
    ensures forall k :: k in r && k != "xtype" ==> k in field && r[k] == field[k]
  {
    if Get(field, "name") == Str("id") then field["xtype" := Str("hiddenfield")] else field
  }

  /** Hiding the id field twice is hiding it once. */
  lemma InternalTransformFieldIdempotent(field: Obj)
    ensures InternalTransformField(InternalTransformField(field)) == InternalTransformField(field)
  {
  }

  /** Upload fields are dropped from editors (`undefined`); every other field
      config is kept. */
  function DropEditorUpload(field: Obj, isEditor: bool): (v: Value)
    ensures v == Undefined <==> isEditor && Get(field, "xtype") == Str("fileuploadfield")
    ensures v != Undefined ==> v == Obj(field)
  {
    if isEditor && Get(field, "xtype") == Str("fileuploadfield") then Undefined else Obj(field)
  }

  /** The field config once the model's rules ran over it. */
  function RuledField(mf: ModelField, rules: seq<Rule>, config: Obj, form: Obj, isEditor: bool, mode: Mode): Result<Obj>
  {
    match BaseField(mf, config, form, isEditor)
    case Err(e) => Err(e)
    case Ok(base) => FieldAfterRules(base, Str(mf.name), rules, config, mode)
  }

  /** The association a field is a foreign key of, once the rules ran. */
  function FieldAssociation(mf: ModelField, model: ModelInfo, rules: seq<Rule>, config: Obj, form: Obj,
                            isEditor: bool, mode: Mode): Option<ModelInfo>
  {
    match RuledField(mf, rules, config, form, isEditor, mode)
    case Err(_) => None
    case Ok(field) => GetBelongsToAssociation(Get(field, "name"), model)
  }

  /** What `buildFieldConfig` returns for the model field `mf` over the rules
      `rules`, where `store` is the store `getStore` hands out for an
      association. Only the default field, the label and the rules can fail. */
  function FieldConfig(mf: ModelField, model: ModelInfo, rules: seq<Rule>, config: Obj, form: Obj,
                       isEditor: bool, mode: Mode, store: Value): (r: Result<Value>)
    ensures r.Err? <==> RuledField(mf, rules, config, form, isEditor, mode).Err?
    ensures r.Err? ==> r.error == RuledField(mf, rules, config, form, isEditor, mode).error
    ensures r.Ok? && !isEditor ==> r.value.Obj?
    ensures r.Ok? && isEditor ==> r.value == Undefined || r.value.Obj?
  {
    match RuledField(mf, rules, config, form, isEditor, mode)
    case Err(e) => Err(e)
    case Ok(field) => Ok(DropEditorUpload(InternalTransformField(LinkedField(field, model, store)), isEditor))
  }

  /** The production build never raises on rules: a field config fails only
      where its default field or its label does. */
  lemma FieldConfigInProduction(mf: ModelField, model: ModelInfo, rules: seq<Rule>, config: Obj, form: Obj,
                                isEditor: bool, store: Value)
    ensures FieldConfig(mf, model, rules, config, form, isEditor, Production, store).Err?
            <==> BaseField(mf, config, form, isEditor).Err?
  {
    var base := BaseField(mf, config, form, isEditor);
    if base.Ok? {
      RulesNeverRaiseInProduction(base.value, Str(mf.name), rules, config);
    }
  }

  /** Rules rewritten in place by earlier builds give the same field config
      as the rules as declared. */
  lemma FieldConfigUnderRewrittenRules(mf: ModelField, model: ModelInfo, rules: seq<Rule>, rewritten: seq<Rule>,
                                       config: Obj, form: Obj, isEditor: bool, mode: Mode, store: Value)
    requires |rewritten| == |rules|
    requires forall j :: 0 <= j < |rules| ==> rewritten[j] == rules[j] || rewritten[j] == Wrapped(rules[j])
    ensures FieldConfig(mf, model, rewritten, config, form, isEditor, mode, store)
            == FieldConfig(mf, model, rules, config, form, isEditor, mode, store)
    ensures FieldAssociation(mf, model, rewritten, config, form, isEditor, mode)
            == FieldAssociation(mf, model, rules, config, form, isEditor, mode)
  {
    var base := BaseField(mf, config, form, isEditor);
    if base.Ok? {
      RulesStableUnderRewrite(base.value, Str(mf.name), rules, rewritten, config, mode);
    }
  }

  /** Neither the rules nor an association write the name or the label. */
  lemma NameAndLabelKeys()
    ensures "name" !in RuleKeys && "fieldLabel" !in RuleKeys
    ensures "name" !in AssociationKeys && "fieldLabel" !in AssociationKeys
  {
  }

  /** A key that neither the rules nor the upload defaults write keeps the
      value the base field gave it. */
  lemma RuledFieldKeeps(mf: ModelField, rules: seq<Rule>, config: Obj, form: Obj, isEditor: bool, mode: Mode, k: string)
    requires RuledField(mf, rules, config, form, isEditor, mode).Ok?
    requires k in BaseField(mf, config, form, isEditor).value
    requires k !in RuleKeys && k !in AsObj(Get(config, "fileuploadfieldDefaults"))
    ensures k in RuledField(mf, rules, config, form, isEditor, mode).value
    ensures RuledField(mf, rules, config, form, isEditor, mode).value[k] == BaseField(mf, config, form, isEditor).value[k]
  {
    RulesKeepUntouched(BaseField(mf, config, form, isEditor).value, Str(mf.name), rules, config, mode, k);
  }

  /** The rules keep the field's name unless the upload defaults rename it. */
  lemma RuledFieldName(mf: ModelField, rules: seq<Rule>, config: Obj, form: Obj, isEditor: bool, mode: Mode)
    requires RuledField(mf, rules, config, form, isEditor, mode).Ok?
    requires "name" !in AsObj(Get(config, "fileuploadfieldDefaults"))
    ensures Get(RuledField(mf, rules, config, form, isEditor, mode).value, "name") == Str(mf.name)
  {
    NameAndLabelKeys();
    RuledFieldKeeps(mf, rules, config, form, isEditor, mode, "name");
  }

  /** Outside an editor every field is labelled with its humanized name (as
      long as the upload defaults bring no label of their own). */
  lemma FieldLabelledWithName(mf: ModelField, model: ModelInfo, rules: seq<Rule>, config: Obj, form: Obj,
                              mode: Mode, store: Value)
    requires "fieldLabel" !in AsObj(Get(config, "fileuploadfieldDefaults"))
    requires FieldConfig(mf, model, rules, config, form, false, mode, store).Ok?
    ensures var v := FieldConfig(mf, model, rules, config, form, false, mode, store).value;
      v.Obj? && Get(v.props, "fieldLabel") == Str(Humanize(mf.name).value)
  {
    NameAndLabelKeys();
    RuledFieldKeeps(mf, rules, config, form, false, mode, "fieldLabel");
  }

  /** The model's `id` field is always a hidden field (as long as the upload
      defaults do not rename fields). */
  lemma IdFieldIsHidden(mf: ModelField, model: ModelInfo, rules: seq<Rule>, config: Obj, form: Obj,
                        isEditor: bool, mode: Mode, store: Value)
    requires mf.name == "id"
    requires "name" !in AsObj(Get(config, "fileuploadfieldDefaults"))
    requires FieldConfig(mf, model, rules, config, form, isEditor, mode, store).Ok?
    ensures var v := FieldConfig(mf, model, rules, config, form, isEditor, mode, store).value;
      v.Obj? && Get(v.props, "xtype") == Str("hiddenfield")
  {
    RuledFieldName(mf, rules, config, form, isEditor, mode);
    AssociationNameDefinedIff("id", "belongsTo");
  }

  /** A foreign-key field with a registered belongs-to association becomes a
      combo box over the store handed out for the associated model. */
  lemma ForeignKeyFieldIsCombobox(mf: ModelField, model: ModelInfo, rules: seq<Rule>, config: Obj, form: Obj,
                                  isEditor: bool, mode: Mode, store: Value)
    requires GetBelongsToAssociation(Str(mf.name), model).Some?
    requires "name" !in AsObj(Get(config, "fileuploadfieldDefaults"))
    requires FieldConfig(mf, model, rules, config, form, isEditor, mode, store).Ok?
    ensures var assoc := GetBelongsToAssociation(Str(mf.name), model).value;
      var v := FieldConfig(mf, model, rules, config, form, isEditor, mode, store).value;
      && v.Obj?
      && Get(v.props, "xtype") == Str("combobox")
      && Get(v.props, "store") == store
      && Get(v.props, "displayField") == GetDisplayFieldName(assoc)
      && Get(v.props, "valueField") == Or(assoc.idProperty, Str("id"))
  {
    RuledFieldName(mf, rules, config, form, isEditor, mode);
    NameAndLabelKeys();
    BelongsToAssociationNeedsForeignKey(mf.name, model);
    assert |mf.name| >= 3;
  }

  /** In an editor, a field with a file rule is dropped (unless it is the id
      field or a foreign key, or the upload defaults change its type or name). */
  lemma EditorDropsUploadField(mf: ModelField, model: ModelInfo, rules: seq<Rule>, config: Obj, form: Obj,
                               mode: Mode, store: Value, i: nat)
    requires i < |rules| && rules[i].kind == "file" && rules[i].name == mf.name
    requires mf.name != "id" && GetBelongsToAssociation(Str(mf.name), model).None?
    requires "xtype" !in AsObj(Get(config, "fileuploadfieldDefaults"))
    requires "name" !in AsObj(Get(config, "fileuploadfieldDefaults"))
    requires FieldConfig(mf, model, rules, config, form, true, mode, store).Ok?
    ensures FieldConfig(mf, model, rules, config, form, true, mode, store).value == Undefined
  {
    RuledFieldName(mf, rules, config, form, true, mode);
    FileRuleMakesUpload(BaseField(mf, config, form, true).value, Str(mf.name), rules, config, mode, i);
  }

  /** The model's rule array `after` as a field's rules pass left it, from
      `before`: untouched when the base field failed, otherwise rewritten up
      to where the pass ended. */
  ghost predicate RulesPassed(mf: ModelField, before: seq<Rule>, after: seq<Rule>, config: Obj, form: Obj,
                              isEditor: bool, mode: Mode)
  {
    && |after| == |before|
    && (BaseField(mf, config, form, isEditor).Err? ==> after == before)
    && (BaseField(mf, config, form, isEditor).Ok? ==>
         var k := Applied(BaseField(mf, config, form, isEditor).value, Str(mf.name), before, config, mode);
         && (forall j :: 0 <= j < k ==> after[j] == RuleAfter(before[j], Str(mf.name)))
         && (forall j :: k <= j < |before| ==> after[j] == before[j]))
  }

  /** The first half of `buildFieldConfig`: the base field, then the rules
      pass over the model's rule array. */
  method RunFieldRules(mf: ModelField, validations: array<Rule>, config: Obj, form: Obj, isEditor: bool, mode: Mode)
    returns (ruled: Result<Obj>)
    modifies validations
    ensures ruled == RuledField(mf, old(validations[..]), config, form, isEditor, mode)
    ensures RulesPassed(mf, old(validations[..]), validations[..], config, form, isEditor, mode)
  {
    var base := BaseField(mf, config, form, isEditor);
    if base.Err? {
      return Err(base.error);
    }
    ruled := AddValidationRuleConfigs(base.value, validations, config, mode);
  }

  /** `buildFieldConfig`. The model's rule array is updated in place by the
      rules pass; an association takes its store from the store cache. The
      ghost result `store` is the store handed out (`Undefined` when there is
      no association). */
  method BuildFieldConfig(mf: ModelField, model: ModelInfo, config: Obj, form: Obj, isEditor: bool, mode: Mode,
                          cache: StoreCache)
    returns (r: Result<Value>, ghost store: Value)
    modifies model.validations, cache
    ensures r == FieldConfig(mf, model, old(model.validations[..]), config, form, isEditor, mode, store)
    ensures RulesPassed(mf, old(model.validations[..]), model.validations[..], config, form, isEditor, mode)
    ensures var assoc := FieldAssociation(mf, model, old(model.validations[..]), config, form, isEditor, mode);
      && (assoc.Some? ==> store.Ref? && StoreOutcome(old(cache.stores), cache.stores, assoc.value.name, config, store.obj))
      && (assoc.None? ==> cache.stores == old(cache.stores))
    ensures CacheExtends(old(cache.stores), cache.stores)
  {
    store := Undefined;
    var ruled := RunFieldRules(mf, model.validations, config, form, isEditor, mode);
    if ruled.Err? {
      return Err(ruled.error), store;
    }
    var assoc := GetBelongsToAssociation(Get(ruled.value, "name"), model);
    var ref := Undefined;
    if assoc.Some? {
      var s := cache.GetStore(assoc.value.name, config);
      ref := Ref(s);
    }
    store := ref;
    r := Ok(DropEditorUpload(InternalTransformField(LinkedField(ruled.value, model, ref)), isEditor));
  }
}
