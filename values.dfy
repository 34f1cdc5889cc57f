/** JavaScript values as the scaffolding library sees them, Ext's config objects
    and the `Ext.apply` merge that layers them. */
module Values {

  /** A live object made by `Ext.create` (a data store, a cell-editing plugin):
      the class it was created from and the config it was created with. The
      library never looks inside it, it only passes the reference around. */
  class Instance {
    const className: Value
    const settings: map<string, Value>

    constructor (className: Value, settings: map<string, Value>)
      ensures this.className == className && this.settings == settings
    {
      this.className := className;
      this.settings := settings;
    }
  }

  /** The values that occur in scaffold configs. Functions are `Closure`s: the
      name of the function and the values it captured. */
  datatype Value =
    | Undefined
    | Bool(b: bool)
    | Num(n: int)
    | Str(s: string)
    | List(items: seq<Value>)
    | Obj(props: map<string, Value>)
    | Closure(name: string, captured: seq<Value>)
    | Sequenced(first: Value, second: Value)  // Ext.Function.createSequence(first, second)
    | Ref(obj: Instance)

  /** A plain config object. */
  type Obj = map<string, Value>

  /** `Ext.emptyFn`, the placeholder handler the library recognises by identity. */
  const EmptyFn: Value := Closure("Ext.emptyFn", [])

  /** Build mode: the IFDEBUG blocks that raise with `Ext.Error.raise` are only
      present in the debug build. */
  datatype Mode = Debug | Production

  /** Errors: the ones the debug build raises on purpose, and `TypeError` for a
      property read on `undefined` that crashes either build. */
  datatype Error =
    | ModelError          // buildColumns: model missing or not registered
    | ExcludeNotArray     // exclude is not an array
    | IncompatibleRule(kind: string, xtype: Value)
    | ModelsNotArray      // ManagementPanel: models is not an array
    | TypeError

  datatype Result<T> = Ok(value: T) | Err(error: Error)

  datatype Option<T> = None | Some(value: T)

  /** JavaScript truthiness. */
  predicate Truthy(v: Value)
  {
    match v
    case Undefined => false
    case Bool(b) => b
    case Num(n) => n != 0
    case Str(s) => s != ""
    case _ => true
  }

  /** JavaScript `a || b`. */
  function Or(a: Value, b: Value): (r: Value)
    ensures Truthy(a) ==> r == a
    ensures !Truthy(a) ==> r == b
  {
    if Truthy(a) then a else b
  }

  /** Reading `o.k`: a missing key reads as `undefined`. */
  function Get(o: Obj, k: string): (r: Value)
    ensures k in o ==> r == o[k]
    ensures k !in o ==> r == Undefined
  {
    if k in o then o[k] else Undefined
  }

  /** The object a config value stands for when it is used as a set of
      defaults; anything that is not an object contributes no keys. */
  function AsObj(v: Value): (r: Obj)
    ensures v.Obj? ==> r == v.props
    ensures !v.Obj? ==> r == map[]
  {
    if v.Obj? then v.props else map[]
  }

  /** `Ext.apply(target, config, defaults)`: the defaults are copied onto the
      target first, then the config, so the config wins every collision. */
  function Apply(target: Obj, config: Obj, defaults: Obj): (r: Obj)
    ensures r.Keys == target.Keys + config.Keys + defaults.Keys
    ensures forall k :: k in config ==> r[k] == config[k]
    ensures forall k :: k in defaults && k !in config ==> r[k] == defaults[k]
    ensures forall k :: k in target && k !in config && k !in defaults ==> r[k] == target[k]
  {
    target + defaults + config
  }

  /** Applying the same config twice is the same as applying it once. */
  lemma ApplyIdempotent(target: Obj, config: Obj)
    ensures Apply(Apply(target, config, map[]), config, map[]) == Apply(target, config, map[])
  {
    var once := Apply(target, config, map[]);
    var twice := Apply(once, config, map[]);
    assert twice.Keys == once.Keys;
    forall k | k in once ensures twice[k] == once[k] {
      if k in config {
        assert twice[k] == config[k] == once[k];
      } else {
        assert twice[k] == once[k];
      }
    }
  }

  /** Sequence concatenation is associative. */
  lemma AppendAssoc<T>(a: seq<T>, b: seq<T>, c: seq<T>)
    ensures (a + b) + c == a + (b + c)
  {
  }

  /** The successful outcomes of `xs`. */
  function Oks<T>(xs: seq<T>): (results: seq<Result<T>>)
    ensures |results| == |xs| && forall i :: 0 <= i < |xs| ==> results[i] == Ok(xs[i])
  {
    seq(|xs|, i requires 0 <= i < |xs| => Ok(xs[i]))
  }

  lemma OksAppend<T>(xs: seq<T>, x: T)
    ensures Oks(xs + [x]) == Oks(xs) + [Ok(x)]
  {
    assert Oks(xs + [x])[|xs|] == Ok(x);
  }

  /** `f` applied to the elements of `xs` and `ys` pairwise. */
  function Zip2With<A, B, R>(f: (A, B) -> R, xs: seq<A>, ys: seq<B>): (r: seq<R>)
    requires |xs| == |ys|
    ensures |r| == |xs| && forall i :: 0 <= i < |xs| ==> r[i] == f(xs[i], ys[i])
  {
    seq(|xs|, i requires 0 <= i < |xs| => f(xs[i], ys[i]))
  }

  lemma Zip2WithAppend<A, B, R>(f: (A, B) -> R, xs: seq<A>, ys: seq<B>, x: A, y: B)
    requires |xs| == |ys|
    ensures Zip2With(f, xs + [x], ys + [y]) == Zip2With(f, xs, ys) + [f(x, y)]
  {
    assert Zip2With(f, xs + [x], ys + [y])[|xs|] == f(x, y);
  }

  /** `f` applied to the elements of `xs`, `ys` and `zs` pointwise. */
  function Zip3With<A, B, C, R>(f: (A, B, C) -> R, xs: seq<A>, ys: seq<B>, zs: seq<C>): (r: seq<R>)
    requires |xs| == |ys| == |zs|
    ensures |r| == |xs| && forall i :: 0 <= i < |xs| ==> r[i] == f(xs[i], ys[i], zs[i])
  {
    seq(|xs|, i requires 0 <= i < |xs| => f(xs[i], ys[i], zs[i]))
  }

  lemma Zip3WithAppend<A, B, C, R>(f: (A, B, C) -> R, xs: seq<A>, ys: seq<B>, zs: seq<C>, x: A, y: B, z: C)
    requires |xs| == |ys| == |zs|
    ensures Zip3With(f, xs + [x], ys + [y], zs + [z]) == Zip3With(f, xs, ys, zs) + [f(x, y, z)]
  {
    assert Zip3With(f, xs + [x], ys + [y], zs + [z])[|xs|] == f(x, y, z);
  }

  lemma TakeOneMore<T>(xs: seq<T>, n: nat)
    requires n < |xs|
    ensures xs[..n + 1] == xs[..n] + [xs[n]]
  {
  }

  lemma PrefixOfLonger<T>(xs: seq<T>, n: nat)
    requires n < |xs|
    ensures xs[..n + 1][..n] == xs[..n]
  {
  }
}
