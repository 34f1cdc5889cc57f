/** What the scaffolding reads from a data model: its fields, validation rules,
    belongs-to associations and proxy capabilities, plus the naming rules that
    link a foreign-key field to its association. */
module Schema {
  import opened Values
  import opened Naming

  /** A model field: its name, its type name (`field.type.type`) and its
      `dateFormat`. */
  datatype ModelField = ModelField(name: string, fieldType: string, dateFormat: Value)

  /** The model field types the scaffolding knows a widget for. */
  const ModelTypes: set<string> := {"auto", "string", "int", "float", "boolean", "bool", "date"}

  /** An `Ext.data.validations` rule. `kind` is the rule's `type`, `matcher`
      the text of its regular expression (format rules). */
  datatype Rule = Rule(kind: string, name: string, min: Value, max: Value, precision: Value,
                       matcher: string, extension: Value)

  /** The Ext.Direct api of a proxy, reduced to which actions it has. */
  datatype Api = Api(create: bool, update: bool, destroy: bool)

  datatype Proxy = Proxy(api: Option<Api>, writer: bool)

  /** A model class. `validations` is the prototype's rule array, which the
      form builder updates in place. `idProperty` is the prototype's id
      property; `staticIdProperty` is the `idProperty` read off the class
      itself. `associations` maps association names to the associated model. */
  datatype ModelInfo = ModelInfo(
    name: string,
    fields: seq<ModelField>,
    validations: array<Rule>,
    idProperty: Value,
    staticIdProperty: Value,
    displayField: Value,
    associations: map<string, ModelInfo>,
    proxy: Proxy)

  /** `Ext.ModelManager`: the registered models by class name. */
  type Registry = map<string, ModelInfo>

  /** The rule arrays of the registered models. */
  function ValidationArrays(registry: Registry): set<array<Rule>>
  {
    set name | name in registry :: registry[name].validations
  }

  // ---------------------------------------------------------------------------
  // Splitting on '_'

  /** `s.split('_')`: the pieces between underscores, empty pieces included. */
  function Split(s: string): (parts: seq<string>)
    ensures |parts| >= 1
    ensures forall i :: 0 <= i < |parts| ==> '_' !in parts[i]
  {
    if s == [] then [""]
    else
      var rest := Split(s[1..]);
      if s[0] == '_' then [""] + rest
      else [[s[0]] + rest[0]] + rest[1..]
  }

  /** `parts.join('_')`. */
  function Join(parts: seq<string>): string
    requires |parts| >= 1
  {
    if |parts| == 1 then parts[0] else parts[0] + "_" + Join(parts[1..])
  }

  lemma {:induction false} JoinSplit(s: string)
    ensures Join(Split(s)) == s
  {
    if s != [] {
      var rest := Split(s[1..]);
      JoinSplit(s[1..]);
      if s[0] == '_' {
        assert Split(s) == [""] + rest;
        assert Split(s)[1..] == rest;
        assert s == "_" + s[1..];
      } else {
        var ps := Split(s);
        assert ps == [[s[0]] + rest[0]] + rest[1..];
        if |rest| == 1 {
          assert s == [s[0]] + s[1..];
        } else {
          assert ps[1..] == rest[1..];
          assert Join(rest) == rest[0] + "_" + Join(rest[1..]);
          assert s == [s[0]] + s[1..];
        }
      }
    }
  }

  lemma {:induction false} SplitNoUnderscore(a: string)
    requires '_' !in a
    ensures Split(a) == [a]
  {
    if a != [] {
      assert '_' !in a[1..] by { forall c | c in a[1..] ensures c != '_' { assert c in a; } }
      SplitNoUnderscore(a[1..]);
      assert a == [a[0]] + a[1..];
    }
  }

  /** Splitting at an underscore splits each side separately. */
  lemma {:induction false} SplitAtUnderscore(a: string, b: string)
    ensures Split(a + "_" + b) == Split(a) + Split(b)
  {
    if a == [] {
      assert a + "_" + b == "_" + b;
      assert ("_" + b)[1..] == b;
    } else {
      var s := a + "_" + b;
      assert s[0] == a[0];
      assert s[1..] == a[1..] + "_" + b;
      SplitAtUnderscore(a[1..], b);
      if a[0] == '_' {
        assert Split(a) == [""] + Split(a[1..]);
      } else {
        assert Split(a) == [[a[0]] + Split(a[1..])[0]] + Split(a[1..])[1..];
      }
    }
  }

  /** The inverse direction of `JoinSplit`: joining underscore-free pieces
      and splitting again gives the pieces back. */
  lemma {:induction false} SplitJoin(parts: seq<string>)
    requires |parts| >= 1
    requires forall i :: 0 <= i < |parts| ==> '_' !in parts[i]
    ensures Split(Join(parts)) == parts
  {
    SplitNoUnderscore(parts[0]);
    if |parts| > 1 {
      SplitJoin(parts[1..]);
      SplitAtUnderscore(parts[0], Join(parts[1..]));
    }
  }

  // ---------------------------------------------------------------------------
  // fieldNameToModelAssociationName

  /** `part.substr(0, 1).toUpperCase() + part.substr(1)`; an empty part stays empty. */
  function CapitalizeFirst(part: string): (r: string)
    ensures |r| == |part|
    ensures part != [] ==> r[0] == Upper(part[0]) && r[1..] == part[1..]
  {
    if part == [] then [] else [Upper(part[0])] + part[1..]
  }

  /** The later parts, each with its first letter capitalised, concatenated. */
  function Capitalized(parts: seq<string>): string
  {
    if parts == [] then [] else Capitalized(parts[..|parts| - 1]) + CapitalizeFirst(parts[|parts| - 1])
  }

  lemma CapitalizedPrefix(parts: seq<string>, i: nat)
    requires i < |parts|
    ensures Capitalized(parts[..i + 1]) == Capitalized(parts[..i]) + CapitalizeFirst(parts[i])
  {
    assert parts[..i + 1][..i] == parts[..i];
  }

  /** Whether a field name follows the foreign-key convention: at least two
      underscore-separated parts, the last exactly `id`. */
  predicate IsForeignKeyName(parts: seq<string>)
  {
    |parts| >= 2 && parts[|parts| - 1] == "id"
  }

  /** The association name guessed from a field name, or `None` for
      `undefined`: the first part as it is, the later parts (without the
      trailing `id`) capitalised, and an `s` unless the association is a
      belongs-to. */
  function AssociationName(fieldName: Value, associationType: string): Option<string>
  {
    if !fieldName.Str? then None
    else
      var parts := Split(fieldName.s);
      if !IsForeignKeyName(parts) then None
      else
        var name := parts[0] + Capitalized(parts[1..|parts| - 1]);
        Some(if associationType == "belongsTo" then name else name + "s")
  }

  /** `fieldNameToModelAssociationName`: split on `_`, give up unless the
      last part is `id`, then join the rest in camel case. */
  method FieldNameToModelAssociationName(fieldName: Value, associationType: string)
    returns (r: Option<string>)
    ensures r == AssociationName(fieldName, associationType)
  {
    if !fieldName.Str? {
      return None;
    }
    var parts := Split(fieldName.s);
    if |parts| < 2 || parts[|parts| - 1] != "id" {
      return None;
    }
    var name := PopAndCamelCase(parts);
    if associationType == "belongsTo" {
      r := Some(name);
    } else {
      r := Some(name + "s");
    }
  }

  /** Pop the trailing part, shift the first part, which stays as it is, and
      append every remaining part with its first letter capitalised. */
  method PopAndCamelCase(all: seq<string>) returns (name: string)
    requires |all| >= 2
    ensures name == all[0] + Capitalized(all[1..|all| - 1])
  {
    var popped := all[..|all| - 1];
    name := popped[0];
    var parts := popped[1..];
    assert parts == all[1..|all| - 1];
    var i := 0;
    while i < |parts|
      invariant 0 <= i <= |parts|
      invariant name == all[0] + Capitalized(parts[..i])
    {
      CapitalizedPrefix(parts, i);
      AppendAssoc(all[0], Capitalized(parts[..i]), CapitalizeFirst(parts[i]));
      name := name + CapitalizeFirst(parts[i]);
      i := i + 1;
    }
    assert parts[..i] == parts;
  }

  /** A name is recognised exactly when it is a string ending in `_id`. */
  lemma AssociationNameDefinedIff(s: string, associationType: string)
    ensures AssociationName(Str(s), associationType).Some? <==> |s| >= 3 && s[|s| - 3..] == "_id"
  {
    var parts := Split(s);
    if IsForeignKeyName(parts) {
      var front := parts[..|parts| - 1];
      assert parts == front + ["id"];
      JoinSplit(s);
      JoinAppend(front, "id");
      assert s == Join(front) + "_id";
    }
    if |s| >= 3 && s[|s| - 3..] == "_id" {
      var t := s[..|s| - 3];
      assert s == t + "_" + "id";
      SplitAtUnderscore(t, "id");
      SplitNoUnderscore("id");
    }
  }

  lemma {:induction false} JoinAppend(parts: seq<string>, last: string)
    requires |parts| >= 1
    ensures Join(parts + [last]) == Join(parts) + "_" + last
  {
    if |parts| > 1 {
      assert (parts + [last])[1..] == parts[1..] + [last];
      JoinAppend(parts[1..], last);
    }
  }

  /** The CakePHP convention read backwards: the field `<w0>_<w1>_..._id`
      of underscore-free words names the association `w0W1...`, plural
      unless it is a belongs-to. */
  lemma AssociationNameOfForeignKey(words: seq<string>, associationType: string)
    requires |words| >= 1
    requires forall i :: 0 <= i < |words| ==> '_' !in words[i]
    ensures AssociationName(Str(Join(words + ["id"])), associationType)
         == Some(var name := words[0] + Capitalized(words[1..]);
                 if associationType == "belongsTo" then name else name + "s")
  {
    var all := words + ["id"];
    assert forall i :: 0 <= i < |all| ==> '_' !in all[i] by {
      forall i | 0 <= i < |all| ensures '_' !in all[i] {
        if i < |words| { assert all[i] == words[i]; } else { assert all[i] == "id"; }
      }
    }
    SplitJoin(all);
    assert all[1..|all| - 1] == words[1..];
  }

  lemma BookAuthorExample(fieldName: string)
    requires fieldName == "book_author_id"
    ensures AssociationName(Str(fieldName), "belongsTo") == Some("bookAuthor")
    ensures AssociationName(Str(fieldName), "hasMany") == Some("bookAuthors")
  {
    BookAuthorWords();
    AssociationNameOfForeignKey(["book", "author"], "belongsTo");
    AssociationNameOfForeignKey(["book", "author"], "hasMany");
    CapitalizedAuthor();
  }

  lemma BookAuthorWords()
    ensures forall i :: 0 <= i < |["book", "author"]| ==> '_' !in ["book", "author"][i]
    ensures Join(["book", "author"] + ["id"]) == "book_author_id"
    ensures ["book", "author"][1..] == ["author"]
    ensures "book" + "Author" == "bookAuthor" && "bookAuthor" + "s" == "bookAuthors"
  {
    assert ["book", "author"] + ["id"] == ["book", "author", "id"];
    JoinBookAuthorId();
  }

  lemma JoinBookAuthorId()
    ensures Join(["book", "author", "id"]) == "book_author_id"
  {
    assert ["book", "author", "id"][1..] == ["author", "id"];
    assert ["author", "id"][1..] == ["id"];
    assert Join(["author", "id"]) == "author_id";
  }

  lemma CapitalizedAuthor()
    ensures Capitalized(["author"]) == "Author"
  {
    assert ["author"][..0] == [];
    assert Upper('a') == 'A';
    assert "author"[1..] == "uthor";
    assert CapitalizeFirst("author") == "Author";
  }

  // ---------------------------------------------------------------------------
  // getDisplayFieldName and getBelongsToAssociation

  function FieldNames(fields: seq<ModelField>): (names: seq<string>)
    ensures |names| == |fields|
    ensures forall i :: 0 <= i < |fields| ==> names[i] == fields[i].name
  {
    if fields == [] then [] else [fields[0].name] + FieldNames(fields[1..])
  }

  /** The names of a longer prefix of the fields. */
  lemma FieldNamesPrefix(fields: seq<ModelField>, i: nat)
    requires i < |fields|
    ensures FieldNames(fields[..i + 1]) == FieldNames(fields[..i]) + [fields[i].name]
  {
  }

  /** `getDisplayFieldName`: a string `displayField` first, then the first of
      `name`, `title`, `code` that is a field, then the class's id property,
      then the first field name (`undefined` for a model without fields). */
  function GetDisplayFieldName(model: ModelInfo): (r: Value)
    ensures model.displayField.Str? ==> r == model.displayField
    ensures !model.displayField.Str? ==>
      || (r.Str? && r.s in FieldNames(model.fields))
      || (Truthy(model.staticIdProperty) && r == model.staticIdProperty)
      || (model.fields == [] && r == Undefined)
    ensures var names := FieldNames(model.fields);
      (!model.displayField.Str? && "name" !in names && "title" !in names && "code" !in names) ==>
        && (Truthy(model.staticIdProperty) ==> r == model.staticIdProperty)
        && (!Truthy(model.staticIdProperty) && model.fields != [] ==> r == Str(model.fields[0].name))
        && (!Truthy(model.staticIdProperty) && model.fields == [] ==> r == Undefined)
    ensures !model.displayField.Str? && "name" in FieldNames(model.fields) ==> r == Str("name")
    ensures (!model.displayField.Str? && "name" !in FieldNames(model.fields)
      && "title" in FieldNames(model.fields)) ==> r == Str("title")
    ensures (!model.displayField.Str? && "name" !in FieldNames(model.fields)
      && "title" !in FieldNames(model.fields) && "code" in FieldNames(model.fields)) ==> r == Str("code")
  {
    var names := FieldNames(model.fields);
    if model.displayField.Str? then model.displayField
    else if "name" in names then Str("name")
    else if "title" in names then Str("title")
    else if "code" in names then Str("code")
    else Or(model.staticIdProperty, if names == [] then Undefined else Str(names[0]))
  }

  /** `getBelongsToAssociation`: the association named after a foreign-key
      field, if the model has one under that name. An empty guessed name is
      falsy and finds nothing. */
  function GetBelongsToAssociation(fieldName: Value, model: ModelInfo): Option<ModelInfo>
  {
    var name := AssociationName(fieldName, "belongsTo");
    if name.Some? && name.value != "" && name.value in model.associations
    then Some(model.associations[name.value])
    else None
  }

  /** Only a string field name ending in `_id` can have an association, and
      then it is the one registered under the guessed belongs-to name. */
  lemma BelongsToAssociationNeedsForeignKey(s: string, model: ModelInfo)
    ensures GetBelongsToAssociation(Str(s), model).Some? ==>
      |s| >= 3 && s[|s| - 3..] == "_id" &&
      GetBelongsToAssociation(Str(s), model) == Some(model.associations[AssociationName(Str(s), "belongsTo").value])
  {
    AssociationNameDefinedIff(s, "belongsTo");
  }
}
