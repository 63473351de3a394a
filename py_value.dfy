/**
 * The Python values the configuration helpers handle: what `json.load`
 * and `yaml.safe_load` return, and the attribute dictionaries built
 * from them. Mapping keys are strings.
 */
module PyValues {

  datatype PyValue =
    | PNone
    | PBool(b: bool)
    | PInt(i: int)
    | PStr(s: string)
    | PList(items: seq<PyValue>)
    | PDict(entries: map<string, PyValue>)
    | PAttrDict(entries: map<string, PyValue>)

  /** `hasattr(value, 'keys')`: the mappings, plain or attribute dictionaries. */
  predicate HasKeys(v: PyValue) {
    v.PDict? || v.PAttrDict?
  }

  /** Python truthiness: `not v` holds. */
  predicate Falsy(v: PyValue) {
    match v
    case PNone => true
    case PBool(b) => !b
    case PInt(i) => i == 0
    case PStr(s) => s == ""
    case PList(items) => items == []
    case PDict(entries) => entries == map[]
    case PAttrDict(entries) => entries == map[]
  }

  /** `d.get(k) is None`: the key is absent, or present with the value `None`. */
  predicate GetIsNone(d: map<string, PyValue>, k: string) {
    k !in d || d[k] == PNone
  }
}
