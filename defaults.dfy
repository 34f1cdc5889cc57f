/** The default layering shared by the grid and form builders: a copy of the
    generic defaults (`columnDefaults`, `fieldDefaults`), overlaid with the
    per-type defaults (`numbercolumnDefaults`, `textfieldDefaults`, ...) and
    then with the entry of the type table. */
module Defaults {
  import opened Values
  import opened Schema

  /** `defaults.<key> || this.<key>`: the setting given for this call, else the
      singleton's own. The two are never merged. */
  function Pick(config: Obj, singleton: Obj, key: string): (v: Value)
    ensures Truthy(Get(config, key)) ==> v == config[key]
    ensures !Truthy(Get(config, key)) ==> v == Get(singleton, key)
  {
    Or(Get(config, key), Get(singleton, key))
  }

  /** The key of the per-type defaults of a widget type (`xtype + 'Defaults'`). */
  function TypeDefaultsKey(xtype: string): string
  {
    xtype + "Defaults"
  }

  /** A type-table entry names its widget type as a string. */
  predicate WellFormedEntry(entry: Option<Obj>)
  {
    entry.Some? ==> Get(entry.value, "xtype").Str?
  }

  /** The precedence of the three layers: the table entry wins, then the
      per-type defaults, then the generic defaults; no other key appears. */
  ghost predicate Layered(r: Obj, generic: Obj, typeDefaults: Obj, entry: Obj)
  {
    && r.Keys == generic.Keys + typeDefaults.Keys + entry.Keys
    && (forall k :: k in entry ==> r[k] == entry[k])
    && (forall k :: k in typeDefaults && k !in entry ==> r[k] == typeDefaults[k])
    && (forall k :: k in generic && k !in typeDefaults && k !in entry ==> r[k] == generic[k])
  }

  /** The per-type defaults that apply to a table entry. */
  function TypeDefaults(entry: Obj, config: Obj, singleton: Obj): Obj
    requires Get(entry, "xtype").Str?
  {
    AsObj(Pick(config, singleton, TypeDefaultsKey(entry["xtype"].s)))
  }

  /** `buildDefaultColumnFromModelType` / `buildDefaultFieldFromModelType`
      for the table entry of the model type (`None` for a type the table does
      not know: reading `xtype` off `undefined` crashes). Generic defaults that
      are not an object leave nothing to copy onto and are taken as a crash. */
  function BuildDefault(entry: Option<Obj>, config: Obj, singleton: Obj, genericKey: string): (r: Result<Obj>)
    requires WellFormedEntry(entry)
    ensures r.Err? <==> entry.None? || !Pick(config, singleton, genericKey).Obj?
    ensures r.Err? ==> r.error == TypeError
    ensures r.Ok? ==> forall k :: k in entry.value ==> k in r.value && r.value[k] == entry.value[k]
  {
    if entry.None? then Err(TypeError)
    else
      var generic := Pick(config, singleton, genericKey);
      if !generic.Obj? then Err(TypeError)
      else Ok(Apply(generic.props, entry.value, TypeDefaults(entry.value, config, singleton)))
  }

  /** The layers' precedence holds for every default built. */
  lemma BuildDefaultLayered(entry: Option<Obj>, config: Obj, singleton: Obj, genericKey: string)
    requires WellFormedEntry(entry)
    requires BuildDefault(entry, config, singleton, genericKey).Ok?
    ensures Layered(BuildDefault(entry, config, singleton, genericKey).value, Pick(config, singleton, genericKey).props,
                    TypeDefaults(entry.value, config, singleton), entry.value)
  {
  }

  /** Per-call defaults replace the singleton's rather than merging with them:
      a key that only the singleton's per-type defaults carry does not reach
      the result once the call brings its own per-type defaults. */
  lemma PerCallTypeDefaultsReplace(entry: Obj, config: Obj, singleton: Obj, genericKey: string, k: string)
    requires WellFormedEntry(Some(entry))
    requires Truthy(Get(config, TypeDefaultsKey(entry["xtype"].s)))
    requires Pick(config, singleton, genericKey).Obj?
    requires k !in entry && k !in AsObj(config[TypeDefaultsKey(entry["xtype"].s)])
    requires k !in Pick(config, singleton, genericKey).props
    ensures BuildDefault(Some(entry), config, singleton, genericKey).Ok?
    ensures k !in BuildDefault(Some(entry), config, singleton, genericKey).value
  {
  }

  /** The result does not depend on the singleton's settings for the keys the
      call sets itself. */
  lemma PerCallDefaultsOverrideSingleton(entry: Obj, config: Obj, s1: Obj, s2: Obj, genericKey: string)
    requires WellFormedEntry(Some(entry))
    requires Truthy(Get(config, genericKey))
    requires Truthy(Get(config, TypeDefaultsKey(entry["xtype"].s)))
    ensures BuildDefault(Some(entry), config, s1, genericKey) == BuildDefault(Some(entry), config, s2, genericKey)
  {
  }

  /** `Ext.apply({}, config, Ext.clone(this))`: every setting of the
      singleton, with the settings given for the call winning; a call
      without a config object gets the singleton's settings. */
  function Merge(userConfig: Value, singleton: Obj): (r: Obj)
    ensures r.Keys == AsObj(userConfig).Keys + singleton.Keys
    ensures forall k :: k in AsObj(userConfig) ==> r[k] == AsObj(userConfig)[k]
    ensures forall k :: k in singleton && k !in AsObj(userConfig) ==> r[k] == singleton[k]
  {
    Apply(map[], AsObj(userConfig), singleton)
  }

  /** The model class name of `config.target`: a string is taken as it is.
      Values here have no class objects, so any other target reads as the
      empty name. */
  function TargetName(config: Obj): (name: string)
    ensures Get(config, "target").Str? ==> name == config["target"].s
    ensures !Get(config, "target").Str? ==> name == ""
  {
    if Get(config, "target").Str? then config["target"].s else ""
  }

  /** The per-call config of a build: the merged settings with `target`
      reduced to the model's class name. */
  function Targeted(userConfig: Value, singleton: Obj): (r: Obj)
    ensures r.Keys == AsObj(userConfig).Keys + singleton.Keys + {"target"}
    ensures r["target"] == Str(TargetName(Merge(userConfig, singleton)))
    ensures forall k :: k in AsObj(userConfig) && k != "target" ==> r[k] == AsObj(userConfig)[k]
    ensures forall k :: k in singleton && k !in AsObj(userConfig) && k != "target" ==> r[k] == singleton[k]
  {
    var merged := Merge(userConfig, singleton);
    merged["target" := Str(TargetName(merged))]
  }

  /** The `exclude` check: a setting that is not an array raises in the
      debug build and is reset to `[]` in the production build. */
  function CheckExclude(config: Obj, mode: Mode): (r: Result<Obj>)
    ensures r.Err? <==> mode == Debug && !Get(config, "exclude").List?
    ensures r.Err? ==> r.error == ExcludeNotArray
    ensures r.Ok? ==> Get(r.value, "exclude").List?
    ensures Get(config, "exclude").List? ==> r == Ok(config)
    ensures r.Ok? ==> forall k :: k in config && k != "exclude" ==> k in r.value && r.value[k] == config[k]
  {
    if Get(config, "exclude").List? then Ok(config)
    else if mode == Debug then Err(ExcludeNotArray)
    else Ok(config["exclude" := List([])])
  }

  /** The excluded names of a checked config. */
  function ExcludeList(config: Obj): seq<Value>
  {
    if Get(config, "exclude").List? then config["exclude"].items else []
  }

  /** The model fields that are scaffolded: those whose name is not in
      `exclude` (`exclude.indexOf(field.name) === -1`), in model order. */
  function Kept(fields: seq<ModelField>, exclude: seq<Value>): (kept: seq<ModelField>)
    ensures |kept| <= |fields|
    decreases |fields|
  {
    if fields == [] then []
    else
      var front := Kept(fields[..|fields| - 1], exclude);
      var last := fields[|fields| - 1];
      if Str(last.name) in exclude then front else front + [last]
  }

  /** The scaffolded fields are exactly the model fields whose name is not
      excluded. */
  lemma {:induction false} KeptMembers(fields: seq<ModelField>, exclude: seq<Value>)
    ensures forall f :: f in Kept(fields, exclude) <==> f in fields && Str(f.name) !in exclude
    decreases |fields|
  {
    if fields != [] {
      var front, last := fields[..|fields| - 1], fields[|fields| - 1];
      KeptMembers(front, exclude);
      assert fields == front + [last];
    }
  }

  /** Filtering keeps the model's field order: the fields of `a + b` are
      those of `a` followed by those of `b`. */
  lemma {:induction false} KeptAppend(a: seq<ModelField>, b: seq<ModelField>, exclude: seq<Value>)
    ensures Kept(a + b, exclude) == Kept(a, exclude) + Kept(b, exclude)
    decreases |b|
  {
    if b == [] {
      assert a + b == a;
    } else {
      var front, last := b[..|b| - 1], b[|b| - 1];
      var ab := a + b;
      KeptAppend(a, front, exclude);
      assert ab[..|ab| - 1] == a + front;
      assert ab[|ab| - 1] == last;
      if Str(last.name) !in exclude {
        assert Kept(ab, exclude) == Kept(a + front, exclude) + [last];
        assert Kept(b, exclude) == Kept(front, exclude) + [last];
        AppendAssoc(Kept(a, exclude), Kept(front, exclude), [last]);
      }
    }
  }

  /** With nothing excluded every field is scaffolded, in order. */
  lemma {:induction false} KeptAll(fields: seq<ModelField>, exclude: seq<Value>)
    requires forall i :: 0 <= i < |fields| ==> Str(fields[i].name) !in exclude
    ensures Kept(fields, exclude) == fields
    decreases |fields|
  {
    if fields != [] {
      var front := fields[..|fields| - 1];
      KeptAll(front, exclude);
      assert front + [fields[|fields| - 1]] == fields;
    }
  }
}
