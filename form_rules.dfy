/** `addValidationRuleConfigs`: the model's validation rules for one field,
    translated into form-field settings, applied in declaration order. */
module FormRules {
  import opened Values
  import opened Schema

  // The text of the four regular expressions whose `format` rules are
  // recognised; matchers are compared as strings, never run.
  const AlphaMatcher: string := @"/^[a-zA-Z_]+$/"
  const AlphaNumMatcher: string := @"/^[a-zA-Z0-9_]+$/"
  const EmailMatcher: string := @"/^(\w+)([\-+.][\w]+)*@(\w[\-\w]*\.){1,5}([A-Za-z]){2,6}$/"
  const UrlMatcher: string := @"/(((^https?)|(^ftp)):\/\/([\-\w]+\.)+\w{2,3}(\/[%\-\w]+(\.\w{2,})?)*(([\w\-\.\?\\\/+@&#;`~=%!]*)(\.\w{2,})?)*\/?)/i"

  /** The `vtype` a format rule's matcher stands for, if it is one of the four. */
  function VtypeOf(matcher: string): (v: Option<string>)
    ensures v.Some? <==> matcher in {AlphaMatcher, AlphaNumMatcher, EmailMatcher, UrlMatcher}
    ensures matcher == AlphaMatcher ==> v == Some("alpha")
    ensures matcher == AlphaNumMatcher ==> v == Some("alphanum")
    ensures matcher == EmailMatcher ==> v == Some("email")
    ensures matcher == UrlMatcher ==> v == Some("url")
  {
    if matcher == AlphaMatcher then Some("alpha")
    else if matcher == AlphaNumMatcher then Some("alphanum")
    else if matcher == EmailMatcher then Some("email")
    else if matcher == UrlMatcher then Some("url")
    else None
  }

  /** The widget type a rule kind insists on, for the three kinds that check it. */
  predicate GuardedKind(kind: string)
  {
    kind == "length" || kind == "format" || kind == "numberformat"
  }

  function RequiredXtype(kind: string): string
    requires GuardedKind(kind)
  {
    if kind == "numberformat" then "numberfield" else "textfield"
  }

  /** `if (Ext.isDefined(v)) field[key] = v`. */
  function SetIfDefined(field: Obj, key: string, v: Value): (r: Obj)
    ensures v != Undefined ==> r == field[key := v]
    ensures v == Undefined ==> r == field
  {
    if v != Undefined then field[key := v] else field
  }

  /** A file rule's extension after the rule ran: a single string is wrapped
      into a one-element array. */
  function WrappedExtension(extension: Value): (e: Value)
    ensures extension.Str? ==> e == List([extension])
    ensures !extension.Str? ==> e == extension
  {
    if extension.Str? then List([extension]) else extension
  }

  /** Whether `rule` is one of the field's rules (`rule.name === field.name`). */
  predicate AppliesTo(rule: Rule, name: Value)
  {
    Str(rule.name) == name
  }

  /** The keys a rule may write on the field config. */
  function Touched(rule: Rule, config: Obj): set<string>
  {
    if rule.kind == "presence" then {"allowBlank"}
    else if rule.kind == "length" then {"minLength", "maxLength"}
    else if rule.kind == "format" then {"vtype"}
    else if rule.kind == "numberformat" then {"minValue", "maxValue", "decimalPrecision"}
    else if rule.kind == "file" then {"xtype", "vtype", "validExtensions"} + AsObj(Get(config, "fileuploadfieldDefaults")).Keys
    else {}
  }

  /** A `length` rule of the field: only a text field takes `minLength` and
      `maxLength`; in the debug build any other widget type raises. */
  function LengthRule(field: Obj, rule: Rule, mode: Mode): (r: Result<Obj>)
    ensures r.Err? <==> mode == Debug && Get(field, "xtype") != Str("textfield")
    ensures Get(field, "xtype") != Str("textfield") && mode == Production ==> r == Ok(field)
    ensures Get(field, "xtype") == Str("textfield") ==>
      && r.Ok? && field.Keys <= r.value.Keys <= field.Keys + {"minLength", "maxLength"}
      && (forall k :: k in field && k != "minLength" && k != "maxLength" ==> r.value[k] == field[k])
      && Get(r.value, "minLength") == (if rule.min != Undefined then rule.min else Get(field, "minLength"))
      && Get(r.value, "maxLength") == (if rule.max != Undefined then rule.max else Get(field, "maxLength"))
  {
    var xtype := Get(field, "xtype");
    if mode == Debug && xtype != Str("textfield") then Err(IncompatibleRule(rule.kind, xtype))
    else if xtype == Str("textfield") then Ok(SetIfDefined(SetIfDefined(field, "minLength", rule.min), "maxLength", rule.max))
    else Ok(field)
  }

  /** A `format` rule of the field: a recognised matcher sets `vtype`, an
      unknown one is ignored. Only the debug build checks the widget type. */
  function FormatRule(field: Obj, rule: Rule, mode: Mode): (r: Result<Obj>)
    ensures r.Err? <==> mode == Debug && Get(field, "xtype") != Str("textfield")
    ensures r.Ok? && VtypeOf(rule.matcher).Some? ==> r.value == field["vtype" := Str(VtypeOf(rule.matcher).value)]
    ensures r.Ok? && VtypeOf(rule.matcher).None? ==> r.value == field
  {
    var xtype := Get(field, "xtype");
    if mode == Debug && xtype != Str("textfield") then Err(IncompatibleRule(rule.kind, xtype))
    else
      var vtype := VtypeOf(rule.matcher);
      if vtype.Some? then Ok(field["vtype" := Str(vtype.value)]) else Ok(field)
  }

  /** A `numberformat` rule of the field: only a number field takes
      `minValue`, `maxValue` and `decimalPrecision`; in the debug build any
      other widget type raises. */
  function NumberFormatRule(field: Obj, rule: Rule, mode: Mode): (r: Result<Obj>)
    ensures r.Err? <==> mode == Debug && Get(field, "xtype") != Str("numberfield")
    ensures Get(field, "xtype") != Str("numberfield") && mode == Production ==> r == Ok(field)
    ensures Get(field, "xtype") == Str("numberfield") ==>
      && r.Ok? && field.Keys <= r.value.Keys <= field.Keys + {"minValue", "maxValue", "decimalPrecision"}
      && (forall k :: k in field && k !in {"minValue", "maxValue", "decimalPrecision"} ==> r.value[k] == field[k])
      && Get(r.value, "minValue") == (if rule.min != Undefined then rule.min else Get(field, "minValue"))
      && Get(r.value, "maxValue") == (if rule.max != Undefined then rule.max else Get(field, "maxValue"))
      && Get(r.value, "decimalPrecision") == (if rule.precision != Undefined then rule.precision else Get(field, "decimalPrecision"))
  {
    var xtype := Get(field, "xtype");
    if mode == Debug && xtype != Str("numberfield") then Err(IncompatibleRule(rule.kind, xtype))
    else if xtype == Str("numberfield") then
      Ok(SetIfDefined(SetIfDefined(SetIfDefined(field, "minValue", rule.min), "maxValue", rule.max),
                      "decimalPrecision", rule.precision))
    else Ok(field)
  }

  /** A `file` rule of the field: the field becomes a file upload field, takes
      the file-upload defaults, and an extension list (a single string is
      wrapped) becomes its `fileExtension` validation. */
  function FileRule(field: Obj, rule: Rule, config: Obj): (r: Obj)
    ensures r.Keys == field.Keys + {"xtype"} + AsObj(Get(config, "fileuploadfieldDefaults")).Keys
                      + (if WrappedExtension(rule.extension).List? then {"vtype", "validExtensions"} else {})
    ensures forall k :: k in field && k !in Touched(rule.(kind := "file"), config) ==> r[k] == field[k]
    ensures "xtype" !in AsObj(Get(config, "fileuploadfieldDefaults")) ==> r["xtype"] == Str("fileuploadfield")
    ensures WrappedExtension(rule.extension).List? ==>
      r["vtype"] == Str("fileExtension") && r["validExtensions"] == WrappedExtension(rule.extension)
  {
    var upload := Apply(field["xtype" := Str("fileuploadfield")], AsObj(Get(config, "fileuploadfieldDefaults")), map[]);
    var extension := WrappedExtension(rule.extension);
    if extension.List? then upload["vtype" := Str("fileExtension")]["validExtensions" := extension]
    else upload
  }

  /** One rule applied to the field config `field` of the field named `name`:
      rules of other fields change nothing, and only a `length`, `format` or
      `numberformat` rule on the wrong widget type raises, in the debug build. */
  function ApplyRule(field: Obj, name: Value, rule: Rule, config: Obj, mode: Mode): (r: Result<Obj>)
    ensures r.Err? <==>
      (mode == Debug && AppliesTo(rule, name) && GuardedKind(rule.kind)
       && Get(field, "xtype") != Str(RequiredXtype(rule.kind)))
    ensures !AppliesTo(rule, name) ==> r == Ok(field)
    ensures AppliesTo(rule, name) && rule.kind == "presence" ==> r == Ok(field["allowBlank" := Bool(false)])
    ensures rule.kind !in RuleKinds ==> r == Ok(field)
  {
    if !AppliesTo(rule, name) then Ok(field)
    else if rule.kind == "presence" then Ok(field["allowBlank" := Bool(false)])
    else if rule.kind == "length" then LengthRule(field, rule, mode)
    else if rule.kind == "format" then FormatRule(field, rule, mode)
    else if rule.kind == "numberformat" then NumberFormatRule(field, rule, mode)
    else if rule.kind == "file" then Ok(FileRule(field, rule, config))
    else Ok(field)
  }

  /** The rule kinds the library knows. */
  const RuleKinds: set<string> := {"presence", "length", "format", "numberformat", "file"}

  /** A rule of the field is handled by its kind's own step. */
  lemma ApplyRuleByKind(field: Obj, name: Value, rule: Rule, config: Obj, mode: Mode)
    requires AppliesTo(rule, name)
    ensures rule.kind == "length" ==> ApplyRule(field, name, rule, config, mode) == LengthRule(field, rule, mode)
    ensures rule.kind == "format" ==> ApplyRule(field, name, rule, config, mode) == FormatRule(field, rule, mode)
    ensures rule.kind == "numberformat" ==>
              ApplyRule(field, name, rule, config, mode) == NumberFormatRule(field, rule, mode)
    ensures rule.kind == "file" ==> ApplyRule(field, name, rule, config, mode) == Ok(FileRule(field, rule, config))
  {
  }

  /** A rule keeps every key of the field config and writes only the keys its
      kind touches. */
  lemma ApplyRuleFrame(field: Obj, name: Value, rule: Rule, config: Obj, mode: Mode)
    requires ApplyRule(field, name, rule, config, mode).Ok?
    ensures var r := ApplyRule(field, name, rule, config, mode).value;
      && field.Keys <= r.Keys
      && (forall k :: k in field && k !in Touched(rule, config) ==> r[k] == field[k])
      && (forall k :: k in r && k !in field ==> k in Touched(rule, config))
  {
    if AppliesTo(rule, name) && rule.kind == "file" {
      var r := FileRule(field, rule, config);
      assert forall k :: k in r && k !in field ==> k in Touched(rule, config);
    }
  }

  /** The rule as left behind in the model's rule array: a file rule of this
      field has its string extension wrapped; every other rule is untouched. */
  function RuleAfter(rule: Rule, name: Value): (r: Rule)
    ensures r.kind == rule.kind && r.name == rule.name && r.min == rule.min && r.max == rule.max
    ensures r.precision == rule.precision && r.matcher == rule.matcher
    ensures (AppliesTo(rule, name) && rule.kind == "file") ==> r.extension == WrappedExtension(rule.extension)
    ensures !(AppliesTo(rule, name) && rule.kind == "file") ==> r == rule
  {
    if AppliesTo(rule, name) && rule.kind == "file" then rule.(extension := WrappedExtension(rule.extension))
    else rule
  }

  /** A rule as a pass over its own field leaves it behind: a file rule has
      its extension wrapped, every other kind is never rewritten. */
  function Wrapped(rule: Rule): (r: Rule)
    ensures r.kind == rule.kind && r.name == rule.name
    ensures rule.kind == "file" ==> r.extension == WrappedExtension(rule.extension)
    ensures rule.kind != "file" ==> r == rule
  {
    if rule.kind == "file" then rule.(extension := WrappedExtension(rule.extension)) else rule
  }

  /** A rule after the passes of the fields named in `names`. */
  function RuleAfterPasses(rule: Rule, names: seq<string>): Rule
  {
    if rule.name in names then Wrapped(rule) else rule
  }

  /** Wrapping twice is wrapping once, so one more pass over the field `n`
      only adds `n` to the names that went through. */
  lemma RuleAfterPassesStep(rule: Rule, names: seq<string>, n: string)
    ensures RuleAfter(RuleAfterPasses(rule, names), Str(n)) == RuleAfterPasses(rule, names + [n])
    ensures RuleAfter(rule, Str(n)) == RuleAfterPasses(rule, [n])
  {
    if rule.kind == "file" && rule.name in names && rule.name == n {
      assert WrappedExtension(WrappedExtension(rule.extension)) == WrappedExtension(rule.extension);
    }
  }

  /** A rule that already went through acts as it did the first time: a
      wrapped extension is wrapped no further. */
  lemma ApplyRuleWrapped(field: Obj, name: Value, rule: Rule, config: Obj, mode: Mode)
    ensures ApplyRule(field, name, Wrapped(rule), config, mode) == ApplyRule(field, name, rule, config, mode)
  {
    if AppliesTo(rule, name) && rule.kind == "file" {
      assert WrappedExtension(WrappedExtension(rule.extension)) == WrappedExtension(rule.extension);
    }
  }

  /** The field config after the rules, in declaration order; the first rule
      that raises ends the pass with its error. */
  function FieldAfterRules(field: Obj, name: Value, rules: seq<Rule>, config: Obj, mode: Mode): Result<Obj>
    decreases |rules|
  {
    if rules == [] then Ok(field)
    else match FieldAfterRules(field, name, rules[..|rules| - 1], config, mode)
      case Err(e) => Err(e)
      case Ok(f) => ApplyRule(f, name, rules[|rules| - 1], config, mode)
  }

  /** How many rules went through before the pass ended: all of them, or
      those before the one that raised. */
  function Applied(field: Obj, name: Value, rules: seq<Rule>, config: Obj, mode: Mode): (k: nat)
    ensures k <= |rules|
    ensures k == |rules| <==> FieldAfterRules(field, name, rules, config, mode).Ok?
    ensures k < |rules| ==>
      && FieldAfterRules(field, name, rules[..k], config, mode).Ok?
      && FieldAfterRules(field, name, rules[..k + 1], config, mode) == FieldAfterRules(field, name, rules, config, mode)
    decreases |rules|
  {
    if rules == [] then 0
    else
      var front := rules[..|rules| - 1];
      if FieldAfterRules(field, name, front, config, mode).Err? then
        var k := Applied(field, name, front, config, mode);
        assert front[..k] == rules[..k] && front[..k + 1] == rules[..k + 1];
        assert FieldAfterRules(field, name, rules, config, mode) == FieldAfterRules(field, name, front, config, mode);
        k
      else if FieldAfterRules(field, name, rules, config, mode).Err? then
        assert rules[..|rules|] == rules;
        |rules| - 1
      else |rules|
  }

  /** Rules of other fields have no effect at all. */
  lemma {:induction false} RulesOfOtherFieldsIgnored(field: Obj, name: Value, rules: seq<Rule>, config: Obj, mode: Mode)
    requires forall i :: 0 <= i < |rules| ==> !AppliesTo(rules[i], name)
    ensures FieldAfterRules(field, name, rules, config, mode) == Ok(field)
    decreases |rules|
  {
    if rules != [] {
      RulesOfOtherFieldsIgnored(field, name, rules[..|rules| - 1], config, mode);
    }
  }

  /** The production build never raises on rules. */
  lemma {:induction false} RulesNeverRaiseInProduction(field: Obj, name: Value, rules: seq<Rule>, config: Obj)
    ensures FieldAfterRules(field, name, rules, config, Production).Ok?
    decreases |rules|
  {
    if rules != [] {
      RulesNeverRaiseInProduction(field, name, rules[..|rules| - 1], config);
    }
  }

  /** Rules apply in declaration order: running `a + b` is running `a`, then
      `b` on what `a` produced; a raise in `a` ends the pass there. */
  lemma {:induction false} FieldAfterRulesAppend(field: Obj, name: Value, a: seq<Rule>, b: seq<Rule>, config: Obj, mode: Mode)
    ensures FieldAfterRules(field, name, a + b, config, mode) ==
      match FieldAfterRules(field, name, a, config, mode)
      case Err(e) => Err(e)
      case Ok(f) => FieldAfterRules(f, name, b, config, mode)
    decreases |b|
  {
    if b == [] {
      assert a + b == a;
    } else {
      var front := b[..|b| - 1];
      FieldAfterRulesAppend(field, name, a, front, config, mode);
      assert (a + b)[..|a + b| - 1] == a + front;
      assert (a + b)[|a + b| - 1] == b[|b| - 1];
    }
  }

  /** A pass over rules that earlier passes rewrote in place (over this
      field or any other) yields the same field config as over the rules
      as declared. */
  lemma {:induction false} RulesStableUnderRewrite(field: Obj, name: Value, rules: seq<Rule>, rewritten: seq<Rule>,
                                                  config: Obj, mode: Mode)
    requires |rewritten| == |rules|
    requires forall j :: 0 <= j < |rules| ==> rewritten[j] == rules[j] || rewritten[j] == Wrapped(rules[j])
    ensures FieldAfterRules(field, name, rewritten, config, mode) == FieldAfterRules(field, name, rules, config, mode)
    decreases |rules|
  {
    if rules != [] {
      var n := |rules| - 1;
      RulesStableUnderRewrite(field, name, rules[..n], rewritten[..n], config, mode);
      var pre := FieldAfterRules(field, name, rules[..n], config, mode);
      if pre.Ok? {
        ApplyRuleWrapped(pre.value, name, rules[n], config, mode);
      }
    }
  }

  /** Once a rule raises, the rules after it do not matter. */
  lemma {:induction false} RaiseEndsPass(field: Obj, name: Value, rules: seq<Rule>, i: nat, config: Obj, mode: Mode)
    requires i < |rules|
    requires FieldAfterRules(field, name, rules[..i], config, mode).Ok?
    requires FieldAfterRules(field, name, rules[..i + 1], config, mode).Err?
    ensures FieldAfterRules(field, name, rules, config, mode) == FieldAfterRules(field, name, rules[..i + 1], config, mode)
    ensures Applied(field, name, rules, config, mode) == i
    decreases |rules|
  {
    if |rules| > i + 1 {
      var front := rules[..|rules| - 1];
      assert front[..i] == rules[..i] && front[..i + 1] == rules[..i + 1];
      RaiseEndsPass(field, name, front, i, config, mode);
    } else {
      assert rules[..i + 1] == rules;
    }
  }

  /** Every key a rule of some kind writes, besides the upload defaults. */
  const RuleKeys: set<string> :=
    {"allowBlank", "minLength", "maxLength", "vtype", "minValue", "maxValue", "decimalPrecision",
     "xtype", "validExtensions"}

  /** A key outside `RuleKeys` and the upload defaults keeps its value
      through the rules. */
  lemma {:induction false} RulesKeepUntouched(field: Obj, name: Value, rules: seq<Rule>, config: Obj, mode: Mode, k: string)
    requires k in field
    requires k !in RuleKeys && k !in AsObj(Get(config, "fileuploadfieldDefaults"))
    requires FieldAfterRules(field, name, rules, config, mode).Ok?
    ensures k in FieldAfterRules(field, name, rules, config, mode).value
    ensures FieldAfterRules(field, name, rules, config, mode).value[k] == field[k]
    decreases |rules|
  {
    if rules != [] {
      var n := |rules| - 1;
      RulesKeepUntouched(field, name, rules[..n], config, mode, k);
      var pre := FieldAfterRules(field, name, rules[..n], config, mode).value;
      if AppliesTo(rules[n], name) {
        assert k !in Touched(rules[n], config);
        ApplyRuleFrame(pre, name, rules[n], config, mode);
      }
    }
  }

  /** A file rule of the field makes it an upload field, unless the upload
      defaults name another widget type; no later rule changes that. */
  lemma {:induction false} FileRuleMakesUpload(field: Obj, name: Value, rules: seq<Rule>, config: Obj, mode: Mode, i: nat)
    requires i < |rules| && rules[i].kind == "file" && AppliesTo(rules[i], name)
    requires "xtype" !in AsObj(Get(config, "fileuploadfieldDefaults"))
    requires FieldAfterRules(field, name, rules, config, mode).Ok?
    ensures Get(FieldAfterRules(field, name, rules, config, mode).value, "xtype") == Str("fileuploadfield")
    decreases |rules|
  {
    var n := |rules| - 1;
    var front := rules[..n];
    var pre := FieldAfterRules(field, name, front, config, mode).value;
    if i < n {
      assert front[i] == rules[i];
      FileRuleMakesUpload(field, name, front, config, mode, i);
      if AppliesTo(rules[n], name) && rules[n].kind != "file" {
        ApplyRuleFrame(pre, name, rules[n], config, mode);
      }
    }
  }

  /** A presence rule of the field makes it required (`allowBlank: false`),
      unless the upload defaults of a file rule set `allowBlank` again; no
      other rule writes that key. */
  lemma {:induction false} PresenceMakesRequired(field: Obj, name: Value, rules: seq<Rule>, config: Obj, mode: Mode, i: nat)
    requires i < |rules| && rules[i].kind == "presence" && AppliesTo(rules[i], name)
    requires "allowBlank" !in AsObj(Get(config, "fileuploadfieldDefaults"))
    requires FieldAfterRules(field, name, rules, config, mode).Ok?
    ensures Get(FieldAfterRules(field, name, rules, config, mode).value, "allowBlank") == Bool(false)
    decreases |rules|
  {
    var n := |rules| - 1;
    var front := rules[..n];
    var pre := FieldAfterRules(field, name, front, config, mode).value;
    if i < n {
      assert front[i] == rules[i];
      PresenceMakesRequired(field, name, front, config, mode, i);
      if AppliesTo(rules[n], name) {
        ApplyRuleFrame(pre, name, rules[n], config, mode);
      }
    }
  }

  /** `addValidationRuleConfigs`, in place on the model's rule array: the
      field's name is read once, then each rule in turn updates the field
      config; a file rule of the field also rewrites its own `extension`. A
      raise leaves the rules from the raising one on as they were. */
  method AddValidationRuleConfigs(field: Obj, validations: array<Rule>, config: Obj, mode: Mode)
    returns (r: Result<Obj>)
    modifies validations
    ensures r == FieldAfterRules(field, Get(field, "name"), old(validations[..]), config, mode)
    ensures var k := Applied(field, Get(field, "name"), old(validations[..]), config, mode);
      && (forall j :: 0 <= j < k ==> validations[j] == RuleAfter(old(validations[j]), Get(field, "name")))
      && (forall j :: k <= j < validations.Length ==> validations[j] == old(validations[j]))
  {
    var name := Get(field, "name");
    ghost var original := validations[..];
    var current := field;
    var i := 0;
    while i < validations.Length
      invariant 0 <= i <= validations.Length
      invariant FieldAfterRules(field, name, original[..i], config, mode) == Ok(current)
      invariant forall j :: 0 <= j < i ==> validations[j] == RuleAfter(original[j], name)
      invariant forall j :: i <= j < validations.Length ==> validations[j] == original[j]
    {
      assert original[..i + 1][..i] == original[..i];
      var step := ApplyRuleAt(validations, i, current, name, config, mode);
      if step.Err? {
        RaiseEndsPass(field, name, original, i, config, mode);
        return Err(step.error);
      }
      current := step.value;
      i := i + 1;
    }
    assert original[..i] == original;
    r := Ok(current);
  }

  /** One turn of the loop: rule `i` applied to the field config, and the
      rule itself rewritten when it went through. */
  method ApplyRuleAt(validations: array<Rule>, i: nat, current: Obj, name: Value, config: Obj, mode: Mode)
    returns (step: Result<Obj>)
    requires i < validations.Length
    modifies validations
    ensures step == ApplyRule(current, name, old(validations[i]), config, mode)
    ensures step.Ok? ==> validations[i] == RuleAfter(old(validations[i]), name)
    ensures step.Err? ==> validations[i] == old(validations[i])
    ensures forall j :: 0 <= j < validations.Length && j != i ==> validations[j] == old(validations[j])
  {
    var rule := validations[i];
    step := ApplyRule(current, name, rule, config, mode);
    if step.Ok? {
      validations[i] := RuleAfter(rule, name);
    }
  }
}
