/**
  Schema derivation for the flat-file backend: one FileDb `Field` per
  property of the record type, with a storage type chosen by a fixed
  precedence and key roles reserved for the property named "Id".
 */
module Schema {
  import opened Wrappers
  import opened RecordTypes

  /** A member of FileDb's `DataTypeEnum`, by name. */
  datatype DataType = DataType(name: string)

  const Int32: DataType := DataType("Int32")
  const Bool: DataType := DataType("Bool")
  const String: DataType := DataType("String")

  /** The members the mapping names explicitly; FileDb's enum holds these and more. */
  predicate KnowsBuiltins(enumNames: set<string>)
  {
    {Int32.name, Bool.name, String.name} <= enumNames
  }

  /**
    A FileDb field descriptor. `autoIncStart` is FileDb's nullable
    `AutoIncStart`: `None` unless auto-increment was requested.
   */
  datatype Field = Field(name: string, dataType: DataType, isPrimaryKey: bool, autoIncStart: Option<int>)

  /**
    The exception raised for a property whose type has no storage type. The code
    throws a plain `Exception("Only Primitive Types supported!")`; the property
    name is the model's record of where derivation stopped.
   */
  datatype SchemaError = UnsupportedFieldType(property: string)

  /**
    The storage type of a CLR type: enumerations and 16-bit integers are
    stored as Int32, booleans as Bool, GUIDs as String, and any other type
    as the `DataTypeEnum` member spelled like the type's short name, if
    there is one (`Enum.TryParse`). `enumNames` are the member names of
    `DataTypeEnum`.
   */
  function StorageType(t: ClrType, enumNames: set<string>): (r: Option<DataType>)
    ensures KnowsBuiltins(enumNames) && r.Some? ==> r.value.name in enumNames
    ensures r.None? <==> t.Other? && t.typeName !in enumNames
  {
    match t
    case Enum(_) => Some(Int32)
    case Int16 => Some(Int32)
    case UInt16 => Some(Int32)
    case Boolean => Some(Bool)
    case Guid => Some(String)
    case Other(typeName) => if typeName in enumNames then Some(DataType(typeName)) else None
  }

  predicate Supported(p: Property, enumNames: set<string>)
  {
    StorageType(p.clrType, enumNames).Some?
  }

  /** `k` is the first property, in `GetProperties` order, whose type is unsupported. */
  predicate FirstUnsupported(props: seq<Property>, enumNames: set<string>, k: nat)
    requires k < |props|
  {
    !Supported(props[k], enumNames) && forall j :: 0 <= j < k ==> Supported(props[j], enumNames)
  }

  /** The field for one supported property; key roles only for "Id". */
  function FieldFor(p: Property, dataType: DataType): Field
  {
    var isId := p.name == IdName;
    Field(p.name, dataType, isId && p.hasPrimaryKey,
          if isId && p.hasAutoIncrement then Some(1) else None)
  }

  /**
    The schema of a record type: fails with the first property, in
    `GetProperties` order, whose type is unsupported.
   */
  function DeriveFields(props: seq<Property>, enumNames: set<string>): (r: Result<seq<Field>, SchemaError>)
    ensures r.Success? <==> forall i :: 0 <= i < |props| ==> Supported(props[i], enumNames)
    ensures r.Success? ==> |r.value| == |props|
    ensures r.Success? ==> forall i :: 0 <= i < |props| ==>
      Some(r.value[i].dataType) == StorageType(props[i].clrType, enumNames) &&
      r.value[i] == FieldFor(props[i], r.value[i].dataType)
    ensures r.Failure? ==> exists k :: 0 <= k < |props| && FirstUnsupported(props, enumNames, k) &&
                                       r.error == UnsupportedFieldType(props[k].name)
  {
    if |props| == 0 then Success([])
    else match StorageType(props[0].clrType, enumNames)
      case None => Failure(UnsupportedFieldType(props[0].name))
      case Some(dt) =>
        match DeriveFields(props[1..], enumNames)
        case Failure(e) => Failure(e)
        case Success(fs) => Success([FieldFor(props[0], dt)] + fs)
  }

  /**
    `CreateFields`: walks the properties in order, appending one field per
    property, and throws at the first property whose type is unsupported.
   */
  method CreateFields(props: seq<Property>, enumNames: set<string>) returns (r: Result<seq<Field>, SchemaError>)
    ensures r == DeriveFields(props, enumNames)
  {
    var fields: seq<Field> := [];
    for i := 0 to |props|
      invariant |fields| == i
      invariant forall j :: 0 <= j < i ==> Supported(props[j], enumNames)
      invariant forall j :: 0 <= j < i ==>
        Some(fields[j].dataType) == StorageType(props[j].clrType, enumNames) &&
        fields[j] == FieldFor(props[j], fields[j].dataType)
    {
      var info := props[i];
      var dataType: DataType;
      if info.clrType.Enum? || info.clrType.Int16? || info.clrType.UInt16? {
        dataType := Int32;
      } else if info.clrType.Boolean? {
        dataType := Bool;
      } else if info.clrType.Guid? {
        dataType := String;
      } else if info.clrType.typeName in enumNames {
        dataType := DataType(info.clrType.typeName);
      } else {
        r := Failure(UnsupportedFieldType(info.name));
        ghost var d := DeriveFields(props, enumNames);
        ghost var k :| 0 <= k < |props| && FirstUnsupported(props, enumNames, k) &&
                       d.error == UnsupportedFieldType(props[k].name);
        assert k == i;
        return;
      }
      var field := Field(info.name, dataType, false, None);
      if info.name == IdName {
        if info.hasPrimaryKey {
          field := field.(isPrimaryKey := true);
        }
        if info.hasAutoIncrement {
          field := field.(autoIncStart := Some(1));
        }
      }
      fields := fields + [field];
    }
    r := Success(fields);
    ghost var d := DeriveFields(props, enumNames);
    assert d.Success?;
    assert forall j :: 0 <= j < |props| ==> fields[j] == d.value[j];
    assert fields == d.value;
  }

  /**
    The schema, field by field: one field per property, in order, named
    after it, typed by the precedence of `StorageType`; only a field named
    "Id" has key roles, the primary key exactly when the property has
    [PrimaryKey] and an auto-increment start of 1 exactly when it has
    [AutoIncrement].
   */
  lemma DerivedSchema(props: seq<Property>, enumNames: set<string>, i: nat)
    requires DeriveFields(props, enumNames).Success? && i < |props|
    ensures var f := DeriveFields(props, enumNames).value[i];
      && f.name == props[i].name
      && (props[i].clrType.Enum? || props[i].clrType.Int16? || props[i].clrType.UInt16? ==> f.dataType == Int32)
      && (props[i].clrType.Boolean? ==> f.dataType == Bool)
      && (props[i].clrType.Guid? ==> f.dataType == String)
      && (props[i].clrType.Other? ==> f.dataType.name == props[i].clrType.typeName)
      && (f.isPrimaryKey <==> props[i].name == IdName && props[i].hasPrimaryKey)
      && (f.autoIncStart.Some? <==> props[i].name == IdName && props[i].hasAutoIncrement)
      && (f.autoIncStart.Some? ==> f.autoIncStart.value == 1)
  {
  }

  /**
    With distinct property names, at most one field of a schema is a
    primary key, and at most one auto-increments.
   */
  lemma AtMostOneKeyField(props: seq<Property>, enumNames: set<string>, i: nat, j: nat)
    requires DistinctNames(props)
    requires DeriveFields(props, enumNames).Success? && i < |props| && j < |props|
    ensures var fs := DeriveFields(props, enumNames).value;
      (fs[i].isPrimaryKey && fs[j].isPrimaryKey ==> i == j) &&
      (fs[i].autoIncStart.Some? && fs[j].autoIncStart.Some? ==> i == j)
  {
  }
}
