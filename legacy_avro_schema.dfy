/** src/avro_schema.py: `create_schema`, deriving a schema dict from a value. */
module LegacyAvroSchema {
  import opened PyValues

  /** The default of the `namespace` parameter, used by every nested call. */
  const DefaultNamespace: string := "avro.example"

  /** The type classification: `dict`, `list`, `str`, `numbers.Integral` (which takes in `bool`),
      `numbers.Real`; `None` for anything else (`None`, `bytes`). */
  function Classified(v: Value): Option<string> {
    match v
    case PyDict(_) => Some("record")
    case PyList(_) => Some("array")
    case PyStr(_) => Some("string")
    case PyBool(_) => Some("int")
    case PyInt(_) => Some("int")
    case PyFloat(_) => Some("float")
    case PyNone => None
    case PyBytes(_) => None
  }

  /** `type(v).__name__`. */
  function TypeName(v: Value): string {
    match v
    case PyNone => "NoneType"
    case PyBool(_) => "bool"
    case PyInt(_) => "int"
    case PyFloat(_) => "float"
    case PyStr(_) => "str"
    case PyBytes(_) => "bytes"
    case PyList(_) => "list"
    case PyDict(_) => "dict"
  }

  /** The `AttributeError` of `origin.items()` on a value that is not a dict. */
  function NoItems(v: Value): string {
    "'" + TypeName(v) + "' object has no attribute 'items'"
  }

  /** What `create_schema(origin, name, namespace)` returns or raises. */
  function DerivedSchema(origin: Value, name: string, namespace: string): (r: Call<Option<SchemaDict>>)
    ensures r == Returned(None) <==> Classified(origin).None? || name == ""
    ensures r.Returned? && r.value.Some? ==>
      && origin.PyDict?
      && r.value.value.namespace == namespace && r.value.value.kind == "record"
      && r.value.value.name == name && r.value.value.doc == None
      && |r.value.value.fields| == |origin.entries|
    decreases origin, 1
  {
    if Classified(origin).None? then Returned(None)
    else if name == "" then Returned(None)
    else if !origin.PyDict? then Raised(NoItems(origin))
    else
      match DerivedFields(origin, 0, [])
      case Raised(e) => Raised(e)
      case Returned(fields) => Returned(Some(SchemaDict(namespace, "record", name, fields, None)))
  }

  /** The loop over `origin.items()` from entry `k` on, `acc` holding the fields built so far:
      the first exception of a nested call ends it. */
  function DerivedFields(origin: Value, k: nat, acc: seq<Option<SchemaDict>>): (r: Call<seq<Option<SchemaDict>>>)
    requires origin.PyDict? && k <= |origin.entries|
    ensures r.Returned? ==> |r.value| == |acc| + |origin.entries| - k && r.value[..|acc|] == acc
    decreases origin, 0, |origin.entries| - k
  {
    if k == |origin.entries| then Returned(acc)
    else
      var (key, v) := origin.entries[k];
      match DerivedSchema(v, key, DefaultNamespace)
      case Raised(e) => Raised(e)
      case Returned(field) => DerivedFields(origin, k + 1, acc + [field])
  }

  /** The values on which `create_schema` returns: one it does not classify, an empty name, or a
      dict all of whose entries are such values under their keys. */
  predicate Derivable(v: Value, name: string)
    decreases v
  {
    Classified(v).None? || name == "" ||
    (v.PyDict? && forall i :: 0 <= i < |v.entries| ==> Derivable(v.entries[i].1, v.entries[i].0))
  }

  /** `create_schema` raises exactly when some classified non-dict sits under a non-empty name on a
      path of non-empty keys: `{'a': 1}` raises, `{'a': None}` and `{'a': {'b': None}}` do not. */
  lemma {:induction false} DerivedRaisesIff(v: Value, name: string, namespace: string)
    ensures DerivedSchema(v, name, namespace).Returned? <==> Derivable(v, name)
    decreases v, 1
  {
    if !Classified(v).None? && name != "" && v.PyDict? {
      FieldsRaiseIff(v, 0, []);
    }
  }

  lemma {:induction false} FieldsRaiseIff(v: Value, k: nat, acc: seq<Option<SchemaDict>>)
    requires v.PyDict? && k <= |v.entries|
    ensures DerivedFields(v, k, acc).Returned? <==>
      forall i :: k <= i < |v.entries| ==> Derivable(v.entries[i].1, v.entries[i].0)
    decreases v, 0, |v.entries| - k
  {
    if k < |v.entries| {
      var (key, sub) := v.entries[k];
      DerivedRaisesIff(sub, key, DefaultNamespace);
      var field := DerivedSchema(sub, key, DefaultNamespace);
      if field.Returned? {
        FieldsRaiseIff(v, k + 1, acc + [field.value]);
      }
    }
  }

  /** The loop from entry `k` on appends, in key order, the derivation of each entry's value under
      its key and the default namespace. */
  lemma {:induction false} DerivedFieldsInOrder(origin: Value, k: nat, acc: seq<Option<SchemaDict>>)
    requires origin.PyDict? && k <= |origin.entries| && DerivedFields(origin, k, acc).Returned?
    ensures var fields := DerivedFields(origin, k, acc).value;
      forall i :: k <= i < |origin.entries| ==>
        DerivedSchema(origin.entries[i].1, origin.entries[i].0, DefaultNamespace) == Returned(fields[|acc| + i - k])
    decreases |origin.entries| - k
  {
    if k < |origin.entries| {
      var field := DerivedSchema(origin.entries[k].1, origin.entries[k].0, DefaultNamespace);
      var acc' := acc + [field.value];
      assert DerivedFields(origin, k, acc) == DerivedFields(origin, k + 1, acc');
      var fields := DerivedFields(origin, k + 1, acc').value;
      DerivedFieldsInOrder(origin, k + 1, acc');
      assert fields[..|acc'|] == acc';
      forall i | k <= i < |origin.entries|
        ensures DerivedSchema(origin.entries[i].1, origin.entries[i].0, DefaultNamespace) == Returned(fields[|acc| + i - k])
      {
        if i == k {
          assert fields[|acc|] == acc'[|acc|];
        }
      }
    }
  }

  /** Field `i` of a derived record is `create_schema(value_i, key_i, 'avro.example')`. */
  lemma DerivedSchemaFields(origin: Value, name: string, namespace: string)
    requires DerivedSchema(origin, name, namespace).Returned? && DerivedSchema(origin, name, namespace).value.Some?
    ensures origin.PyDict?
    ensures var fields := DerivedSchema(origin, name, namespace).value.value.fields;
      forall i :: 0 <= i < |origin.entries| ==>
        DerivedSchema(origin.entries[i].1, origin.entries[i].0, DefaultNamespace) == Returned(fields[i])
  {
    var fields := DerivedSchema(origin, name, namespace).value.value.fields;
    assert fields == DerivedFields(origin, 0, []).value;
    DerivedFieldsInOrder(origin, 0, []);
    forall i | 0 <= i < |origin.entries|
      ensures DerivedSchema(origin.entries[i].1, origin.entries[i].0, DefaultNamespace) == Returned(fields[i])
    {
    }
  }

  /** A nested number under a non-empty key reaches `origin.items()`. */
  lemma NestedNumberRaises()
    ensures DerivedSchema(PyDict([("a", PyInt(1))]), "r", DefaultNamespace) == Raised(NoItems(PyInt(1)))
  {
    var d := PyDict([("a", PyInt(1))]);
    assert DerivedSchema(PyInt(1), "a", DefaultNamespace) == Raised(NoItems(PyInt(1)));
    assert DerivedFields(d, 0, []) == Raised(NoItems(PyInt(1)));
  }

  /** A nested `None` becomes a `None` field. */
  lemma NestedNoneIsNoneField()
    ensures DerivedSchema(PyDict([("a", PyNone)]), "r", "ns") == Returned(Some(SchemaDict("ns", "record", "r", [None], None)))
  {
    var d := PyDict([("a", PyNone)]);
    assert DerivedFields(d, 1, [None]) == Returned([None]);
    assert DerivedFields(d, 0, []) == Returned([None]);
  }

  /** `create_schema` with its loop appending to `schema['fields']` and its recursive calls. */
  method CreateSchema(origin: Value, name: string, namespace: string) returns (r: Call<Option<SchemaDict>>)
    ensures r == DerivedSchema(origin, name, namespace)
    decreases origin
  {
    var oType: Option<string>;
    if origin.PyDict? {
      oType := Some("record");
    } else if origin.PyList? {
      oType := Some("array");
    } else if origin.PyStr? {
      oType := Some("string");
    } else if origin.PyInt? || origin.PyBool? {
      oType := Some("int");
    } else if origin.PyFloat? {
      oType := Some("float");
    } else {
      return Returned(None);
    }
    if name == "" {
      return Returned(None);
    }
    if !origin.PyDict? {
      return Raised(NoItems(origin));
    }
    var fields: seq<Option<SchemaDict>> := [];
    var k := 0;
    while k < |origin.entries|
      invariant 0 <= k <= |origin.entries|
      invariant DerivedFields(origin, 0, []) == DerivedFields(origin, k, fields)
    {
      var (key, v) := origin.entries[k];
      var field := CreateSchema(v, key, DefaultNamespace);
      if field.Raised? {
        return Raised(field.error);
      }
      fields := fields + [field.value];
      k := k + 1;
    }
    return Returned(Some(SchemaDict(namespace, oType.value, name, fields, None)));
  }
}
