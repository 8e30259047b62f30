/**
  The record codec of the flat-file backend: an instance of a record type
  becomes a FileDb field-value set (property name -> value), and a stored
  record becomes an instance again. Values are opaque (`V`) and are only
  compared for equality.
 */
module Codec {
  import opened RecordTypes

  /** A FileDb record or `FieldValues` set: field name -> stored value. */
  type Record<V> = map<string, V>

  /** An instance of a record type: its property values in `GetProperties` order. */
  type Instance<V> = seq<V>

  /**
    The field values of instance `x`: every property name is a key, and
    with distinct names each key holds its property's value.
   */
  function FieldValues<V>(props: seq<Property>, x: Instance<V>): (r: Record<V>)
    requires |x| == |props|
    ensures r.Keys == NameSet(props)
    ensures DistinctNames(props) ==> forall i :: 0 <= i < |props| ==> r[props[i].name] == x[i]
  {
    if |props| == 0 then map[]
    else
      var n := |props| - 1;
      FieldValues(props[..n], x[..n])[props[n].name := x[n]]
  }

  /**
    `CreateFieldValues`: adds one entry per property, in order. `Add`
    refuses a key already present, which distinct names rule out.
   */
  method CreateFieldValues<V>(props: seq<Property>, x: Instance<V>) returns (fieldValues: Record<V>)
    requires |x| == |props| && DistinctNames(props)
    ensures fieldValues == FieldValues(props, x)
  {
    fieldValues := map[];
    for i := 0 to |props|
      invariant fieldValues == FieldValues(props[..i], x[..i])
    {
      assert props[..i + 1][..i] == props[..i] && x[..i + 1][..i] == x[..i];
      assert props[i].name !in fieldValues;
      fieldValues := fieldValues[props[i].name := x[i]];
    }
    assert props[..|props|] == props && x[..|x|] == x;
  }

  /** Every property of the type has a field in the record. */
  predicate Covers<V>(props: seq<Property>, record: Record<V>)
  {
    NameSet(props) <= record.Keys
  }

  /** The instance a record decodes to: each property read from its field. */
  function Decode<V>(props: seq<Property>, record: Record<V>): (x: Instance<V>)
    requires Covers(props, record)
    ensures |x| == |props|
  {
    seq(|props|, i requires 0 <= i < |props| => record[props[i].name])
  }

  /**
    `CreateT`: starts from a new instance `blank` (what `new T()` yields)
    and sets every property from the record's field of the same name, so
    nothing of `blank` survives.
   */
  method CreateT<V>(props: seq<Property>, record: Record<V>, blank: Instance<V>) returns (instance: Instance<V>)
    requires |blank| == |props|
    requires Covers(props, record)
    ensures instance == Decode(props, record)
  {
    instance := blank;
    for i := 0 to |props|
      invariant |instance| == |props|
      invariant forall j :: 0 <= j < i ==> instance[j] == record[props[j].name]
    {
      instance := instance[i := record[props[i].name]];
    }
  }

  /** Decoding the field values of an instance gives back every property value. */
  lemma DecodeFieldValues<V>(props: seq<Property>, x: Instance<V>)
    requires |x| == |props| && DistinctNames(props)
    ensures Covers(props, FieldValues(props, x))
    ensures Decode(props, FieldValues(props, x)) == x
  {
  }

  /**
    A record holding exactly the type's fields re-encodes to itself, so
    stored records and instances are in one-to-one correspondence.
   */
  lemma FieldValuesDecode<V>(props: seq<Property>, record: Record<V>)
    requires DistinctNames(props) && record.Keys == NameSet(props)
    ensures FieldValues(props, Decode(props, record)) == record
  {
  }
}
