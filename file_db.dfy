/**
  The flat-file backend (`FileDBDatabase`). The FileDb engine is an
  in-memory model: a map from file path to table (fields and records),
  and whether a file is currently open. Every table operation opens the
  type's file, works on it and closes it before returning.
 */
module FileDbBackend {
  import opened Wrappers
  import opened RecordTypes
  import opened Schema
  import opened Codec
  import Paths

  const FileExtension: string := ".fdb"

  /** A FileDb file: its field layout and its records, in insertion order. */
  datatype Table<V> = Table(fields: seq<Field>, records: seq<Record<V>>)

  function FieldNames(fields: seq<Field>): set<string>
  {
    set f | f in fields :: f.name
  }

  /** Every record of the table holds exactly the table's fields. */
  ghost predicate WellFormedTable<V>(table: Table<V>)
  {
    forall record | record in table.records :: record.Keys == FieldNames(table.fields)
  }

  /** A well-formed disk: every file's records hold exactly that file's fields. */
  ghost predicate WellFormedDisk<V>(disk: map<string, Table<V>>)
  {
    forall path | path in disk :: WellFormedTable(disk[path])
  }

  /** Storing a well-formed table keeps the disk well-formed. */
  lemma StoreWellFormed<V>(disk: map<string, Table<V>>, path: string, table: Table<V>)
    requires WellFormedDisk(disk) && WellFormedTable(table)
    ensures WellFormedDisk(disk[path := table])
  {
  }

  /** The record's "Id" field equals `id` (FileDb's `FilterExpression("Id", id, Equal)`). */
  predicate IdEquals<V(==)>(record: Record<V>, id: V)
  {
    IdName in record && record[IdName] == id
  }

  /** `UpdateRecords`: every record whose "Id" equals `id` takes the given field values. */
  function UpdatedRecords<V(==)>(records: seq<Record<V>>, id: V, fieldValues: Record<V>): (r: seq<Record<V>>)
    ensures |r| == |records|
  {
    seq(|records|, i requires 0 <= i < |records| =>
      if IdEquals(records[i], id) then records[i] + fieldValues else records[i])
  }

  /** The instances the stored records decode to (`table.Select(CreateT<T>)`). */
  function DecodeAll<V>(props: seq<Property>, records: seq<Record<V>>): (xs: seq<Instance<V>>)
    requires forall record | record in records :: Covers(props, record)
    ensures |xs| == |records|
  {
    seq(|records|, i requires 0 <= i < |records| => Decode(props, records[i]))
  }

  /**
    `FirstOrDefault(predicate)`: the first instance, in order, that
    satisfies the predicate, or `None` when none does.
   */
  function FirstMatch<V>(xs: seq<Instance<V>>, matches: Instance<V> -> bool): (r: Option<Instance<V>>)
    ensures r.None? <==> forall i :: 0 <= i < |xs| ==> !matches(xs[i])
    ensures r.Some? ==> exists k :: 0 <= k < |xs| && xs[k] == r.value && matches(xs[k]) &&
                                    forall j :: 0 <= j < k ==> !matches(xs[j])
  {
    if |xs| == 0 then None
    else if matches(xs[0]) then Some(xs[0])
    else
      var r := FirstMatch(xs[1..], matches);
      assert r.Some? ==> exists k :: 1 <= k < |xs| && xs[k] == r.value && matches(xs[k]) &&
                                     forall j :: 0 <= j < k ==> !matches(xs[j]) by {
        if r.Some? {
          var k :| 0 <= k < |xs| - 1 && xs[1..][k] == r.value && matches(xs[1..][k]) &&
                   forall j :: 0 <= j < k ==> !matches(xs[1..][j]);
          assert forall j :: 1 <= j < k + 1 ==> !matches(xs[j]) by {
            forall j | 1 <= j < k + 1 ensures !matches(xs[j]) { assert xs[j] == xs[1..][j - 1]; }
          }
        }
      }
      r
  }

  /**
    Find after Insert: a match already in the table is still the answer;
    otherwise the inserted instance is found exactly when it satisfies
    the predicate.
   */
  lemma {:induction false} FindAfterInsert<V>(props: seq<Property>, records: seq<Record<V>>, x: Instance<V>,
                                              matches: Instance<V> -> bool)
    requires DistinctNames(props) && |x| == |props|
    requires forall record | record in records :: Covers(props, record)
    ensures forall record | record in records + [FieldValues(props, x)] :: Covers(props, record)
    ensures FirstMatch(DecodeAll(props, records + [FieldValues(props, x)]), matches) ==
            match FirstMatch(DecodeAll(props, records), matches)
            case Some(y) => Some(y)
            case None => if matches(x) then Some(x) else None
  {
    DecodeFieldValues(props, x);
    var records' := records + [FieldValues(props, x)];
    var before, after := DecodeAll(props, records), DecodeAll(props, records');
    assert after == before + [x] by {
      assert forall i :: 0 <= i < |records| ==> records'[i] == records[i];
    }
    FirstMatchAppend(before, x, matches);
  }

  /** Appending an instance affects `FirstMatch` only when nothing earlier matched. */
  lemma {:induction false} FirstMatchAppend<V>(xs: seq<Instance<V>>, x: Instance<V>, matches: Instance<V> -> bool)
    ensures FirstMatch(xs + [x], matches) ==
            match FirstMatch(xs, matches)
            case Some(y) => Some(y)
            case None => if matches(x) then Some(x) else None
  {
    if |xs| > 0 {
      assert (xs + [x])[1..] == xs[1..] + [x];
      FirstMatchAppend(xs[1..], x, matches);
    }
  }

  /**
    After `UpdateRecords` with the field values of `x` and `x`'s Id, every
    record whose Id matched decodes to `x`, and every other record is
    unchanged.
   */
  lemma UpdatedRecordsDecode<V>(props: seq<Property>, records: seq<Record<V>>, x: Instance<V>, k: nat)
    requires DistinctNames(props) && |x| == |props|
    requires k < |props| && props[k].name == IdName
    requires forall record | record in records :: record.Keys == NameSet(props)
    ensures var updated := UpdatedRecords(records, x[k], FieldValues(props, x));
      && (forall record | record in updated :: record.Keys == NameSet(props))
      && forall i :: 0 <= i < |records| ==>
           if IdEquals(records[i], x[k]) then Decode(props, updated[i]) == x
           else updated[i] == records[i]
  {
  }

  /** The predicate `y => y.Id == id`, with "Id" the `k`-th property. */
  function ById<V(==)>(k: nat, id: V): Instance<V> -> bool
  {
    (y: Instance<V>) => k < |y| && y[k] == id
  }

  /** If every match is `x` and some element matches, the first match is `x`. */
  lemma OnlyMatchIsFound<V>(xs: seq<Instance<V>>, matches: Instance<V> -> bool, x: Instance<V>, i: nat)
    requires i < |xs| && matches(xs[i])
    requires forall j :: 0 <= j < |xs| && matches(xs[j]) ==> xs[j] == x
    ensures FirstMatch(xs, matches) == Some(x)
  {
  }

  /** One record after the Id update: if it carries `x`'s Id, it decodes to `x`. */
  lemma UpdatedRecordById<V>(props: seq<Property>, record: Record<V>, x: Instance<V>, k: nat)
    requires DistinctNames(props) && |x| == |props|
    requires k < |props| && props[k].name == IdName
    requires record.Keys == NameSet(props)
    ensures var updated := if IdEquals(record, x[k]) then record + FieldValues(props, x) else record;
      Covers(props, updated) && (ById(k, x[k])(Decode(props, updated)) ==> Decode(props, updated) == x)
  {
  }

  /**
    Find by Id after Update: when some record had `x`'s Id, looking up
    that Id afterwards yields `x`.
   */
  lemma {:induction false} FindByIdAfterUpdate<V>(props: seq<Property>, records: seq<Record<V>>, x: Instance<V>, k: nat)
    requires DistinctNames(props) && |x| == |props|
    requires k < |props| && props[k].name == IdName
    requires forall record | record in records :: record.Keys == NameSet(props)
    requires exists i :: 0 <= i < |records| && IdEquals(records[i], x[k])
    ensures forall record | record in UpdatedRecords(records, x[k], FieldValues(props, x)) :: Covers(props, record)
    ensures FirstMatch(DecodeAll(props, UpdatedRecords(records, x[k], FieldValues(props, x))), ById(k, x[k])) == Some(x)
  {
    var updated := UpdatedRecords(records, x[k], FieldValues(props, x));
    forall j | 0 <= j < |records|
      ensures Covers(props, updated[j])
      ensures ById(k, x[k])(Decode(props, updated[j])) ==> Decode(props, updated[j]) == x
    {
      UpdatedRecordById(props, records[j], x, k);
    }
    var xs := DecodeAll(props, updated);
    var i :| 0 <= i < |records| && IdEquals(records[i], x[k]);
    UpdatedRecordsDecode(props, records, x, k);
    OnlyMatchIsFound(xs, ById(k, x[k]), x, i);
  }

  class FileDbDatabase<V(==)> {
    /** The database folder supplied by the file-system wrapper. */
    const folder: string
    /** A FileDb engine exists (`Create` has run); before that, `Database` is null. */
    var hasEngine: bool
    /** A file is open on the engine. */
    var isOpen: bool
    /** The FileDb files on disk, by path. */
    var disk: map<string, Table<V>>

    ghost predicate Valid()
      reads this
    {
      WellFormedDisk(disk)
    }

    /** `CombinePath(typeof(T).Name)`. */
    function TablePath(t: RecordType): string
    {
      Paths.CombinePath(folder, t.name, FileExtension)
    }

    /** The file of type `t` exists and was laid out for `t` (schemas never migrate). */
    ghost predicate HoldsTableFor(t: RecordType)
      reads this
    {
      TablePath(t) in disk && FieldNames(disk[TablePath(t)].fields) == NameSet(t.props)
    }

    constructor (folder: string, disk: map<string, Table<V>>)
      requires WellFormedDisk(disk)
      ensures Valid() && this.folder == folder && this.disk == disk
      ensures !hasEngine && !isOpen
    {
      this.folder := folder;
      this.disk := disk;
      hasEngine, isOpen := false, false;
    }

    /** `Create`: a new, closed FileDb engine; the database name is ignored. */
    method Create(databaseName: string)
      requires Valid()
      modifies this
      ensures Valid() && hasEngine && !isOpen && disk == old(disk)
    {
      hasEngine, isOpen := true, false;
    }

    /**
      `CreateTable<T>`: derives the fields of `T`; if a property type is
      unsupported it throws before the file is touched, otherwise it
      creates the (empty) file of `T` and closes it.
     */
    method CreateTable(t: RecordType, enumNames: set<string>) returns (r: Result<seq<Field>, SchemaError>)
      requires Valid() && hasEngine
      modifies this
      ensures Valid() && hasEngine
      ensures r == DeriveFields(t.props, enumNames)
      ensures r.Failure? ==> disk == old(disk) && isOpen == old(isOpen)
      ensures r.Success? ==> disk == old(disk)[TablePath(t) := Table(r.value, [])] && !isOpen
      ensures r.Success? ==> HoldsTableFor(t)
    {
      var path := TablePath(t);
      r := CreateFields(t.props, enumNames);
      if r.Failure? {
        return;
      }
      disk := disk[path := Table(r.value, [])];
      isOpen := true;
      isOpen := false;
      forall i | 0 <= i < |t.props| ensures r.value[i].name == t.props[i].name {
        DerivedSchema(t.props, enumNames, i);
      }
      assert FieldNames(r.value) == NameSet(t.props) by {
        forall n | n in NameSet(t.props) ensures n in FieldNames(r.value) {
          var i :| 0 <= i < |t.props| && t.props[i].name == n;
          assert r.value[i] in r.value;
        }
      }
    }

    /** `Insert<T>`: appends the field values of `x` to the file of `T`. */
    method Insert(t: RecordType, x: Instance<V>)
      requires Valid() && hasEngine && HoldsTableFor(t)
      requires DistinctNames(t.props) && |x| == |t.props|
      modifies this
      ensures Valid() && hasEngine && HoldsTableFor(t) && !isOpen
      ensures disk == old(disk)[TablePath(t) := old(disk[TablePath(t)]).(
                records := old(disk[TablePath(t)].records) + [FieldValues(t.props, x)])]
    {
      var path := TablePath(t);
      isOpen := true;
      var fieldValues := CreateFieldValues(t.props, x);
      var table := disk[path];
      var table' := table.(records := table.records + [fieldValues]);
      assert WellFormedTable(table') by {
        assert fieldValues.Keys == FieldNames(table.fields);
        assert forall record | record in table'.records :: record in table.records || record == fieldValues;
      }
      StoreWellFormed(disk, path, table');
      disk := disk[path := table'];
      isOpen := false;
    }

    /**
      `Update<T>`: when `T` has an "Id" property, every record whose Id
      equals `x`'s takes the field values of `x`; without one the file is
      left as it is.
     */
    method Update(t: RecordType, x: Instance<V>)
      requires Valid() && hasEngine && HoldsTableFor(t)
      requires DistinctNames(t.props) && |x| == |t.props|
      modifies this
      ensures Valid() && hasEngine && HoldsTableFor(t) && !isOpen
      ensures IndexOfId(t.props).None? ==> disk == old(disk)
      ensures IndexOfId(t.props).Some? ==>
        var k := IndexOfId(t.props).value;
        disk == old(disk)[TablePath(t) := old(disk[TablePath(t)]).(
                  records := UpdatedRecords(old(disk[TablePath(t)].records), x[k], FieldValues(t.props, x)))]
    {
      var path := TablePath(t);
      isOpen := true;
      var idProp := IndexOfId(t.props);
      if idProp.Some? {
        var fieldValues := CreateFieldValues(t.props, x);
        var table := disk[path];
        UpdatedRecordsDecode(t.props, table.records, x, idProp.value);
        disk := disk[path := table.(records := UpdatedRecords(table.records, x[idProp.value], fieldValues))];
      }
      isOpen := false;
    }

    /**
      `Find<T>`: on an empty file, `None`; otherwise the first record, in
      file order, whose decoding satisfies the predicate, or `None`. The
      file is closed on both paths and its records are untouched.
     */
    method Find(t: RecordType, matches: Instance<V> -> bool) returns (r: Option<Instance<V>>)
      requires Valid() && hasEngine && HoldsTableFor(t)
      modifies this
      ensures Valid() && hasEngine && !isOpen && disk == old(disk)
      ensures forall record | record in disk[TablePath(t)].records :: Covers(t.props, record)
      ensures r == FirstMatch(DecodeAll(t.props, disk[TablePath(t)].records), matches)
      ensures disk[TablePath(t)].records == [] ==> r == None
    {
      var path := TablePath(t);
      isOpen := true;
      var table := disk[path].records;
      if |table| > 0 {
        r := FirstMatch(DecodeAll(t.props, table), matches);
        isOpen := false;
        return r;
      } else {
        isOpen := false;
        return None;
      }
    }
  }
}
