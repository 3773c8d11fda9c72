/** JSON values as `json.loads` produces them. Parsing itself is not modelled:
    callers receive the parser as a function, `string -> Decoded` when its failure
    offset matters and `string -> Option<...>` when only success does. */
module JsonValues {
  import opened Results

  /** An object keeps its members in text order, duplicates included, the way
      they were read; `Lookup` resolves a duplicate the way a Python dict does. */
  datatype Json =
    | JNull
    | JBool(b: bool)
    | JInt(i: int)
    | JFloat(x: real)
    | JStr(s: string)
    | JArr(items: seq<Json>)
    | JObj(fields: seq<(string, Json)>)

  /** `d[k]` on the dict built from `fields`: the value of the LAST member named `k`. */
  function Lookup(fields: seq<(string, Json)>, k: string): (r: Option<Json>)
    ensures r.None? <==> forall i :: 0 <= i < |fields| ==> fields[i].0 != k
    ensures r.Some? ==> exists i :: 0 <= i < |fields| && fields[i] == (k, r.value)
                                    && forall j :: i < j < |fields| ==> fields[j].0 != k
  {
    if |fields| == 0 then None
    else
      var last := |fields| - 1;
      if fields[last].0 == k then
        assert fields[last] == (k, fields[last].1);
        Some(fields[last].1)
      else
        var r := Lookup(fields[..last], k);
        LookupPastOther(fields, k, r);
        r
  }

  /** A last member with another key does not change what is found. */
  lemma LookupPastOther(fields: seq<(string, Json)>, k: string, r: Option<Json>)
    requires |fields| > 0 && fields[|fields| - 1].0 != k
    requires var init := fields[..|fields| - 1];
             && (r.None? <==> forall i :: 0 <= i < |init| ==> init[i].0 != k)
             && (r.Some? ==> exists i :: 0 <= i < |init| && init[i] == (k, r.value)
                                         && forall j :: i < j < |init| ==> init[j].0 != k)
    ensures r.None? <==> forall i :: 0 <= i < |fields| ==> fields[i].0 != k
    ensures r.Some? ==> exists i :: 0 <= i < |fields| && fields[i] == (k, r.value)
                                    && forall j :: i < j < |fields| ==> fields[j].0 != k
  {
    var init := fields[..|fields| - 1];
    assert forall i :: 0 <= i < |init| ==> init[i] == fields[i];
    if r.Some? {
      var i :| 0 <= i < |init| && init[i] == (k, r.value) && forall j :: i < j < |init| ==> init[j].0 != k;
      assert fields[i] == (k, r.value);
    }
  }

  /** `k in d` for a dict `d`. */
  predicate HasKey(j: Json, k: string) {
    j.JObj? && Lookup(j.fields, k).Some?
  }

  /** `d.get(k, default)` for a dict `d`. */
  function GetOr(j: Json, k: string, default: Json): (r: Json)
    requires j.JObj?
    ensures !HasKey(j, k) ==> r == default
    ensures HasKey(j, k) ==> Lookup(j.fields, k) == Some(r)
  {
    match Lookup(j.fields, k)
    case None => default
    case Some(v) => v
  }

  /** The number a value stands for in Python arithmetic (`bool` is a subclass
      of `int`); `None` for values arithmetic rejects with a TypeError. */
  function Numeric(j: Json): Option<real> {
    match j
    case JInt(i) => Some(i as real)
    case JFloat(x) => Some(x)
    case JBool(b) => Some(if b then 1.0 else 0.0)
    case _ => None
  }

  /** `type(v).__name__` for the Python object `json.loads` builds for `v`. */
  function TypeName(v: Json): string {
    match v
    case JNull => "NoneType"
    case JBool(_) => "bool"
    case JInt(_) => "int"
    case JFloat(_) => "float"
    case JStr(_) => "str"
    case JArr(_) => "list"
    case JObj(_) => "dict"
  }

  /** What `json.loads(doc)` does: returns a value, or raises `JSONDecodeError` at
      character offset `pos` of `doc`. */
  datatype Decoded = Decoded(value: Json) | Malformed(pos: nat)
}
