/** `replaceButtonPlaceHolders`: the toolbar button list of a scaffolded
    panel, with the `create`, `reset` and `save` placeholders swapped for the
    configured buttons and the panel scope injected where asked for. */
module Buttons {
  import opened Values

  /** The scope marker a custom button uses to ask for the panel scope. */
  const ScopeMarker: Value := Str("scaffold-scope-me")

  /** The placeholder names with the config keys of their button and handler. */
  predicate IsPlaceholder(b: Value)
  {
    b == Str("create") || b == Str("reset") || b == Str("save")
  }

  function ButtonConfigKey(b: Value): string
    requires IsPlaceholder(b)
  {
    if b == Str("create") then "createButtonConfig"
    else if b == Str("reset") then "resetButtonConfig"
    else "saveButtonConfig"
  }

  function HandlerKey(b: Value): string
    requires IsPlaceholder(b)
  {
    if b == Str("create") then "onCreate"
    else if b == Str("reset") then "onReset"
    else "onSave"
  }

  /** `Ext.apply(config.<x>ButtonConfig, {scope, handler: config.on<X>})`:
      a button config object gets the scope and the handler; anything that
      is not an object comes back as it is. */
  function PlaceholderButton(config: Obj, placeholder: Value, scope: Value): (r: Value)
    requires IsPlaceholder(placeholder)
    ensures Get(config, ButtonConfigKey(placeholder)).Obj? ==>
      && r.Obj?
      && r.props.Keys == Get(config, ButtonConfigKey(placeholder)).props.Keys + {"scope", "handler"}
      && r.props["scope"] == scope
      && r.props["handler"] == Get(config, HandlerKey(placeholder))
      && (forall k :: k in Get(config, ButtonConfigKey(placeholder)).props && k != "scope" && k != "handler" ==>
            r.props[k] == Get(config, ButtonConfigKey(placeholder)).props[k])
    ensures !Get(config, ButtonConfigKey(placeholder)).Obj? ==> r == Get(config, ButtonConfigKey(placeholder))
  {
    var c := Get(config, ButtonConfigKey(placeholder));
    if c.Obj? then Obj(Apply(c.props, map["scope" := scope, "handler" := Get(config, HandlerKey(placeholder))], map[]))
    else c
  }

  /** One entry after the rewrite. Reading `scope` off an `undefined` entry
      crashes. */
  function ReplacedEntry(b: Value, config: Obj, scope: Value): (r: Result<Value>)
    ensures r.Err? <==> b == Undefined
    ensures IsPlaceholder(b) ==> r == Ok(PlaceholderButton(config, b, scope))
    ensures !IsPlaceholder(b) && b.Obj? && Get(b.props, "scope") == ScopeMarker ==>
      r.Ok? && r.value.Obj? && r.value.props.Keys == b.props.Keys
      && r.value.props["scope"] == scope
      && (forall k :: k in b.props && k != "scope" ==> r.value.props[k] == b.props[k])
    ensures !IsPlaceholder(b) && b != Undefined && !(b.Obj? && Get(b.props, "scope") == ScopeMarker) ==>
      r == Ok(b)
  {
    if IsPlaceholder(b) then Ok(PlaceholderButton(config, b, scope))
    else if b == Undefined then Err(TypeError)
    else if b.Obj? && Get(b.props, "scope") == ScopeMarker then Ok(Obj(b.props["scope" := scope]))
    else Ok(b)
  }

  /** How many entries the loop gets through: all of them, or up to the first
      `undefined` one. */
  function Reached(bs: seq<Value>): (k: nat)
    ensures k <= |bs|
    ensures forall i :: 0 <= i < k ==> bs[i] != Undefined
    ensures k < |bs| ==> bs[k] == Undefined
  {
    if bs == [] then 0
    else if bs[0] == Undefined then 0
    else 1 + Reached(bs[1..])
  }

  /** The whole list after the rewrite, when the loop gets through it. */
  function ReplacedAll(bs: seq<Value>, config: Obj, scope: Value): (r: seq<Value>)
    requires Reached(bs) == |bs|
    ensures |r| == |bs|
    ensures forall i :: 0 <= i < |bs| ==> r[i] == ReplacedEntry(bs[i], config, scope).value
  {
    seq(|bs|, i requires 0 <= i < |bs| => ReplacedEntry(bs[i], config, scope).value)
  }

  /** The placeholder whose button config is stored under `key`, if any. */
  function PlaceholderOf(key: string): (p: Value)
    ensures IsPlaceholder(p) <==> key in {"createButtonConfig", "resetButtonConfig", "saveButtonConfig"}
    ensures IsPlaceholder(p) ==> ButtonConfigKey(p) == key
  {
    if key == "createButtonConfig" then Str("create")
    else if key == "resetButtonConfig" then Str("reset")
    else if key == "saveButtonConfig" then Str("save")
    else Undefined
  }

  /** The config as left behind once the placeholders in `seen` have been
      processed: `Ext.apply` changed the button config object of each
      placeholder kind that occurred, in place; the rest is as it was. */
  function ConfigAfter(config: Obj, seen: seq<Value>, scope: Value): (r: Obj)
    ensures r.Keys == config.Keys
    ensures forall k :: k in config ==> (r[k].Obj? <==> config[k].Obj?)
  {
    map k | k in config :: ConfigEntryAfter(config, k, seen, scope)
  }

  function ConfigEntryAfter(config: Obj, k: string, seen: seq<Value>, scope: Value): Value
    requires k in config
  {
    var p := PlaceholderOf(k);
    if IsPlaceholder(p) && p in seen && config[k].Obj? then PlaceholderButton(config, p, scope) else config[k]
  }

  /** Only the button configs of placeholders that occurred change. */
  lemma ConfigAfterChangesOnlyUsedButtons(config: Obj, seen: seq<Value>, scope: Value, k: string)
    requires k in config
    requires !(IsPlaceholder(PlaceholderOf(k)) && PlaceholderOf(k) in seen)
    ensures ConfigAfter(config, seen, scope)[k] == config[k]
  {
  }

  /** Applying a placeholder's scope and handler a second time changes nothing. */
  lemma PlaceholderButtonStable(config: Obj, seen: seq<Value>, b: Value, scope: Value)
    requires IsPlaceholder(b)
    ensures PlaceholderButton(ConfigAfter(config, seen, scope), b, scope) == PlaceholderButton(config, b, scope)
  {
    var cfg := ConfigAfter(config, seen, scope);
    var key := ButtonConfigKey(b);
    assert PlaceholderOf(HandlerKey(b)) == Undefined;
    assert Get(cfg, HandlerKey(b)) == Get(config, HandlerKey(b));
    assert PlaceholderOf(key) == b;
    if key in config && config[key].Obj? && b in seen {
      var c := config[key].props;
      var x := map["scope" := scope, "handler" := Get(config, HandlerKey(b))];
      ApplyIdempotent(c, x);
    }
  }

  /** Processing one more entry: a placeholder updates its own button config
      (when that is an object); anything else leaves the config alone. */
  lemma ConfigAfterStep(config: Obj, seen: seq<Value>, b: Value, scope: Value)
    ensures IsPlaceholder(b) && ButtonConfigKey(b) in config && config[ButtonConfigKey(b)].Obj? ==>
      ConfigAfter(config, seen + [b], scope)
        == ConfigAfter(config, seen, scope)[ButtonConfigKey(b) := PlaceholderButton(config, b, scope)]
    ensures !(IsPlaceholder(b) && ButtonConfigKey(b) in config && config[ButtonConfigKey(b)].Obj?) ==>
      ConfigAfter(config, seen + [b], scope) == ConfigAfter(config, seen, scope)
  {
    if IsPlaceholder(b) && ButtonConfigKey(b) in config && config[ButtonConfigKey(b)].Obj? {
      ConfigAfterStepApplied(config, seen, b, scope);
    } else {
      ConfigAfterStepUnchanged(config, seen, b, scope);
    }
  }

  lemma ConfigAfterStepApplied(config: Obj, seen: seq<Value>, b: Value, scope: Value)
    requires IsPlaceholder(b) && ButtonConfigKey(b) in config && config[ButtonConfigKey(b)].Obj?
    ensures ConfigAfter(config, seen + [b], scope)
         == ConfigAfter(config, seen, scope)[ButtonConfigKey(b) := PlaceholderButton(config, b, scope)]
  {
    var before := ConfigAfter(config, seen, scope);
    var after := ConfigAfter(config, seen + [b], scope);
    var key := ButtonConfigKey(b);
    var applied := PlaceholderButton(config, b, scope);
    var expected := before[key := applied];
    assert after.Keys == expected.Keys;
    forall k | k in after
      ensures after[k] == expected[k]
    {
      ConfigEntryAfterStep(config, k, seen, b, scope);
    }
  }

  lemma ConfigAfterStepUnchanged(config: Obj, seen: seq<Value>, b: Value, scope: Value)
    requires !(IsPlaceholder(b) && ButtonConfigKey(b) in config && config[ButtonConfigKey(b)].Obj?)
    ensures ConfigAfter(config, seen + [b], scope) == ConfigAfter(config, seen, scope)
  {
    var before := ConfigAfter(config, seen, scope);
    var after := ConfigAfter(config, seen + [b], scope);
    forall k | k in config
      ensures after[k] == before[k]
    {
      ConfigEntryAfterStep(config, k, seen, b, scope);
    }
  }

  lemma ConfigEntryAfterStep(config: Obj, k: string, seen: seq<Value>, b: Value, scope: Value)
    requires k in config
    ensures ConfigEntryAfter(config, k, seen + [b], scope)
         == if IsPlaceholder(b) && k == ButtonConfigKey(b) && config[k].Obj?
            then PlaceholderButton(config, b, scope) else ConfigEntryAfter(config, k, seen, scope)
  {
    var p := PlaceholderOf(k);
    assert p in seen + [b] <==> p in seen || p == b;
    if IsPlaceholder(b) {
      assert PlaceholderOf(ButtonConfigKey(b)) == b;
    }
  }

  /** The rewrite, in place. `buttons == null` stands for `undefined`, which is
      returned untouched like an empty list. On an `undefined` entry the loop
      crashes, with the entries before it already rewritten. Alongside the
      array, the config is returned with the button configs that `Ext.apply`
      changed. */
  method ReplaceButtonPlaceHolders(buttons: array?<Value>, config: Obj, scope: Value)
    returns (r: Result<Obj>)
    modifies buttons
    ensures buttons == null ==> r == Ok(config)
    ensures buttons != null ==>
      var k := Reached(old(buttons[..]));
      && (r.Err? <==> k < buttons.Length)
      && (r.Err? ==> r.error == TypeError)
      && (r.Ok? ==> r.value == ConfigAfter(config, old(buttons[..]), scope))
      && (forall i :: 0 <= i < k ==> buttons[i] == ReplacedEntry(old(buttons[i]), config, scope).value)
      && (forall i :: k <= i < buttons.Length ==> buttons[i] == old(buttons[i]))
  {
    if buttons == null || buttons.Length == 0 {
      assert ConfigAfter(config, [], scope) == config;
      return Ok(config);
    }
    ghost var original := buttons[..];
    var cfg := config;
    var i := 0;
    while i < buttons.Length
      invariant 0 <= i <= buttons.Length
      invariant i <= Reached(original)
      invariant cfg == ConfigAfter(config, original[..i], scope)
      invariant forall j :: 0 <= j < i ==> buttons[j] == ReplacedEntry(original[j], config, scope).value
      invariant forall j :: i <= j < buttons.Length ==> buttons[j] == original[j]
    {
      assert original[..i + 1] == original[..i] + [original[i]];
      var crashed;
      cfg, crashed := ReplaceAt(buttons, i, cfg, config, original[..i], scope);
      if crashed {
        return Err(TypeError);
      }
      i := i + 1;
    }
    assert original[..i] == original;
    r := Ok(cfg);
  }

  /** One turn of the loop: rewrite entry `i` in place, given the config as
      the earlier entries `seen` left it. */
  method ReplaceAt(buttons: array<Value>, i: nat, cfg: Obj, ghost config: Obj, ghost seen: seq<Value>, scope: Value)
    returns (cfg': Obj, crashed: bool)
    requires i < buttons.Length
    requires cfg == ConfigAfter(config, seen, scope)
    modifies buttons
    ensures crashed <==> old(buttons[i]) == Undefined
    ensures crashed ==> buttons[..] == old(buttons[..])
    ensures !crashed ==> buttons[i] == ReplacedEntry(old(buttons[i]), config, scope).value
    ensures !crashed ==> cfg' == ConfigAfter(config, seen + [old(buttons[i])], scope)
    ensures forall j :: 0 <= j < buttons.Length && j != i ==> buttons[j] == old(buttons[j])
  {
    var b := buttons[i];
    ConfigAfterStep(config, seen, b, scope);
    cfg', crashed := cfg, false;
    if b == Str("create") || b == Str("reset") || b == Str("save") {
      var key := ButtonConfigKey(b);
      var applied := PlaceholderButton(cfg, b, scope);
      PlaceholderButtonStable(config, seen, b, scope);
      buttons[i] := applied;
      if Get(cfg, key).Obj? {
        cfg' := cfg[key := applied];
      }
    } else if b == Undefined {
      crashed := true;
    } else if b.Obj? && Get(b.props, "scope") == ScopeMarker {
      buttons[i] := Obj(b.props["scope" := scope]);
    }
  }

  /** The call's config once `config.buttons || []` went through the
      placeholder rewrite: the rewritten list under `buttons`, and the button
      configs that were applied to in place. An `undefined` entry crashes the
      rewrite. */
  function ConfigWithButtons(config: Obj, scope: Value): (r: Result<Obj>)
    ensures var bv := Or(Get(config, "buttons"), List([]));
      && (r.Err? <==> bv.List? && Reached(bv.items) < |bv.items|)
      && (r.Err? ==> r.error == TypeError)
      && (r.Ok? ==> r.value.Keys == config.Keys + {"buttons"})
      && (r.Ok? && !bv.List? ==> r.value["buttons"] == bv)
      && (r.Ok? && bv.List? ==>
            && r.value["buttons"].List? && |r.value["buttons"].items| == |bv.items|
            && forall i :: 0 <= i < |bv.items| ==>
                 r.value["buttons"].items[i] == ReplacedEntry(bv.items[i], config, scope).value)
  {
    var bv := Or(Get(config, "buttons"), List([]));
    if !bv.List? then Ok(config["buttons" := bv])
    else if Reached(bv.items) < |bv.items| then Err(TypeError)
    else Ok(ConfigAfter(config, bv.items, scope)["buttons" := List(ReplacedAll(bv.items, config, scope))])
  }

  /** A placeholder button and the config's button config of its kind are one
      object: the wired button, with the form scope and the configured
      handler. */
  lemma PlaceholderButtonShared(config: Obj, scope: Value, i: nat)
    requires ConfigWithButtons(config, scope).Ok?
    requires Or(Get(config, "buttons"), List([])).List?
    requires i < |Or(Get(config, "buttons"), List([])).items|
    requires IsPlaceholder(Or(Get(config, "buttons"), List([])).items[i])
    requires Get(config, ButtonConfigKey(Or(Get(config, "buttons"), List([])).items[i])).Obj?
    ensures var b := Or(Get(config, "buttons"), List([])).items[i];
      var out := ConfigWithButtons(config, scope).value;
      && out["buttons"].items[i] == out[ButtonConfigKey(b)]
      && out[ButtonConfigKey(b)].Obj?
      && Get(out[ButtonConfigKey(b)].props, "scope") == scope
      && Get(out[ButtonConfigKey(b)].props, "handler") == Get(config, HandlerKey(b))
  {
    var bv := Or(Get(config, "buttons"), List([]));
    var b := bv.items[i];
    assert b in bv.items;
    assert PlaceholderOf(ButtonConfigKey(b)) == b;
  }

  /** The button step of `buildConfig`, over a fresh array holding the list. */
  method BuildButtons(config: Obj, scope: Value) returns (r: Result<Obj>)
    ensures r == ConfigWithButtons(config, scope)
  {
    var bv := Or(Get(config, "buttons"), List([]));
    if !bv.List? {
      return Ok(config["buttons" := bv]);
    }
    var arr := new Value[|bv.items|](i requires 0 <= i < |bv.items| => bv.items[i]);
    assert arr[..] == bv.items;
    var res := ReplaceButtonPlaceHolders(arr, config, scope);
    if res.Err? {
      return Err(res.error);
    }
    assert arr[..] == ReplacedAll(bv.items, config, scope);
    r := Ok(res.value["buttons" := List(arr[..])]);
  }
}
