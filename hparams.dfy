/**
 * The hyper-parameter dictionary of the speech synthesiser: a dictionary
 * whose attributes are its entries, built from a configuration mapping by
 * turning every nested mapping into an attribute dictionary as well.
 */
module HParams {
  import opened Wrappers
  import opened PyValues

  /** The exceptions these operations raise. */
  datatype PyError =
    | KeyError(key: string)
    | AttributeError(name: string)
    | UnboundLocalError(name: string)

  /** The value an entry gets: a mapping becomes an attribute dictionary over its converted entries; anything else is kept. */
  function Convert(v: PyValue): (r: PyValue)
    ensures HasKeys(v) <==> r.PAttrDict?
    ensures !HasKeys(v) ==> r == v
    ensures HasKeys(v) ==> r.entries.Keys == v.entries.Keys
  {
    if HasKeys(v) then PAttrDict(map k | k in v.entries :: Convert(v.entries[k])) else v
  }

  /** The entries of `AttributeDict(dct)`; `None` and every other falsy value give the empty dictionary. */
  function Construct(dct: PyValue): (entries: map<string, PyValue>)
    requires Falsy(dct) || HasKeys(dct)
    ensures Falsy(dct) ==> entries == map[]
    ensures HasKeys(dct) ==> entries.Keys == dct.entries.Keys
    ensures forall k :: k in entries ==> entries[k] == Convert(dct.entries[k])
  {
    if Falsy(dct) then map[] else map k | k in dct.entries :: Convert(dct.entries[k])
  }

  /** Two values have the same shape: mappings with the same keys and same-shaped values, or equal non-mappings. */
  predicate SameShape(a: PyValue, b: PyValue) {
    if HasKeys(a) then
      HasKeys(b) && a.entries.Keys == b.entries.Keys
      && forall k :: k in a.entries ==> SameShape(a.entries[k], b.entries[k])
    else a == b
  }

  /** Conversion keeps the whole nested key structure and every non-mapping leaf. */
  lemma {:induction false} ConvertKeepsShape(v: PyValue)
    ensures SameShape(v, Convert(v))
  {
    if HasKeys(v) {
      forall k | k in v.entries
        ensures SameShape(v.entries[k], Convert(v).entries[k])
      {
        ConvertKeepsShape(v.entries[k]);
      }
    }
  }

  /** Converting a converted value again changes nothing. */
  lemma {:induction false} ConvertIdempotent(v: PyValue)
    ensures Convert(Convert(v)) == Convert(v)
  {
    if HasKeys(v) {
      forall k | k in v.entries
        ensures Convert(Convert(v.entries[k])) == Convert(v.entries[k])
      {
        ConvertIdempotent(v.entries[k]);
      }
    }
  }

  /** Turns every nested attribute dictionary back into a plain one. */
  function Plain(v: PyValue): (r: PyValue)
    ensures HasKeys(v) <==> r.PDict?
  {
    if HasKeys(v) then PDict(map k | k in v.entries :: Plain(v.entries[k])) else v
  }

  /** A value holding no attribute dictionary at any depth, as `json`/`yaml` loaders return. */
  predicate Loaded(v: PyValue) {
    !v.PAttrDict? && (v.PDict? ==> forall k :: k in v.entries ==> Loaded(v.entries[k]))
  }

  /** Conversion loses nothing: undoing it gives back a loaded configuration. */
  lemma {:induction false} PlainUndoesConvert(v: PyValue)
    requires Loaded(v)
    ensures Plain(Convert(v)) == v
  {
    if v.PDict? {
      forall k | k in v.entries
        ensures Plain(Convert(v.entries[k])) == v.entries[k]
      {
        PlainUndoesConvert(v.entries[k]);
      }
      assert Plain(Convert(v)).entries == v.entries;
    }
  }

  /** The names attribute lookup finds on the class before `__getattr__` is consulted. */
  const ClassAttributes: set<string> := {
    "clear", "copy", "fromkeys", "get", "items", "keys", "pop", "popitem", "setdefault", "update", "values", "export"}

  /** What `getattr` gives: an entry, or one of the class's own methods. */
  datatype Attribute = Entry(value: PyValue) | Method(name: string)

  class AttributeDict {
    var entries: map<string, PyValue>

    /** `AttributeDict(dct)`: the entries of `dct`, every mapping among them converted. */
    constructor(dct: PyValue)
      requires Falsy(dct) || HasKeys(dct)
      ensures entries == Construct(dct)
    {
      entries := map[];
      new;
      if !Falsy(dct) {
        var source := dct.entries;
        var rest := source.Keys;
        while rest != {}
          invariant rest <= source.Keys
          invariant source == dct.entries
          invariant entries == map k | k in source.Keys - rest :: Convert(source[k])
          decreases rest
        {
          var key :| key in rest;
          var value := source[key];
          if HasKeys(value) {
            value := Convert(value);
          }
          entries := entries[key := value];
          rest := rest - {key};
        }
      }
    }

    /** `__getattr__`, reached only for names the class does not define: a missing entry raises `KeyError`. */
    function GetAttr(attr: string): (r: Result<Attribute, PyError>)
      reads this
      ensures attr in ClassAttributes ==> r == Success(Method(attr))
      ensures attr !in ClassAttributes ==> (r.Success? <==> attr in entries)
      ensures attr !in ClassAttributes && attr in entries ==> r == Success(Entry(entries[attr]))
      ensures attr !in ClassAttributes && attr !in entries ==> r == Failure(KeyError(attr))
    {
      if attr in ClassAttributes then Success(Method(attr))
      else if attr in entries then Success(Entry(entries[attr]))
      else Failure(KeyError(attr))
    }

    /** `__setattr__`: every attribute assignment stores an entry, whatever its name. */
    method SetAttr(attr: string, value: PyValue)
      modifies this
      ensures entries == old(entries)[attr := value]
      ensures attr !in ClassAttributes ==> GetAttr(attr) == Success(Entry(value))
      ensures forall k :: k != attr ==> GetAttr(k) == old(GetAttr(k))
    {
      entries := entries[attr := value];
    }

    /** `export`: a plain dictionary with the same entries; nested attribute dictionaries stay as they are. */
    function Export(): (d: PyValue)
      reads this
      ensures d.PDict? && d.entries == entries
    {
      PDict(entries)
    }
  }

  /**
   * Building from a loaded configuration and exporting recursively gives
   * the configuration back: nothing is added, dropped or altered.
   */
  lemma ExportRoundTrip(a: AttributeDict, config: map<string, PyValue>)
    requires Loaded(PDict(config)) && a.entries == Construct(PDict(config))
    ensures Plain(a.Export()) == PDict(config)
  {
    PlainUndoesConvert(PDict(config));
    assert a.Export().entries == Convert(PDict(config)).entries;
  }

  /** `AttributeDict(dct)` for any value: a truthy non-mapping has no `items` to iterate. */
  method NewAttributeDict(dct: PyValue) returns (r: Result<AttributeDict, PyError>)
    ensures r.Success? <==> Falsy(dct) || HasKeys(dct)
    ensures r.Failure? ==> r.error == AttributeError("items")
    ensures r.Success? ==> fresh(r.value) && r.value.entries == Construct(dct)
  {
    if !Falsy(dct) && !HasKeys(dct) {
      return Failure(AttributeError("items"));
    }
    var a := new AttributeDict(dct);
    r := Success(a);
  }

  /**
   * `create_hparams`: a mapping is used as it is, a string names a YAML
   * file whose loaded content is used, and anything else leaves `config`
   * unbound.
   */
  method CreateHParams(configSource: PyValue, loadYaml: string -> PyValue) returns (r: Result<AttributeDict, PyError>)
    ensures HasKeys(configSource) ==> r.Success? && r.value.entries == Construct(configSource)
    ensures HasKeys(configSource) ==> r.value.entries.Keys == configSource.entries.Keys
    ensures configSource.PStr? ==> (r.Success? <==> Falsy(loadYaml(configSource.s)) || HasKeys(loadYaml(configSource.s)))
    ensures !HasKeys(configSource) && !configSource.PStr? ==> r == Failure(UnboundLocalError("config"))
    ensures r.Success? ==> fresh(r.value)
  {
    var config: PyValue;
    if HasKeys(configSource) {
      config := configSource;
    } else if configSource.PStr? {
      config := loadYaml(configSource.s);
    } else {
      return Failure(UnboundLocalError("config"));
    }
    r := NewAttributeDict(config);
  }
}
