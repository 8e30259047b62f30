/**
  The shape of a persisted record type, standing in for what reflection
  (`GetProperties`, `Attribute.IsDefined`) reports about a C# class.
 */
module RecordTypes {
  import opened Wrappers

  /** The CLR type of a property, as far as schema derivation tells types apart. */
  datatype ClrType =
    | Enum(typeName: string)   // any enumeration type
    | Int16                    // System.Int16
    | UInt16                   // System.UInt16
    | Boolean                  // System.Boolean
    | Guid                     // System.Guid
    | Other(typeName: string)  // any other type, by its short `Name`

  /** One public property, with the two key attributes it may carry. */
  datatype Property = Property(
    name: string,
    clrType: ClrType,
    hasPrimaryKey: bool,       // [PrimaryKey] is defined on it
    hasAutoIncrement: bool)    // [AutoIncrement] is defined on it

  /** A record type `T`: its short name and its properties in the order `GetProperties` returns them. */
  datatype RecordType = RecordType(name: string, props: seq<Property>)

  /** The property name that alone may carry key roles. */
  const IdName: string := "Id"

  /** A C# class cannot declare two properties with the same name. */
  predicate DistinctNames(props: seq<Property>)
  {
    forall i, j :: 0 <= i < j < |props| ==> props[i].name != props[j].name
  }

  function NameSet(props: seq<Property>): set<string>
  {
    set p | p in props :: p.name
  }

  /** The position of the first property named "Id", if any. */
  function IndexOfId(props: seq<Property>): (r: Option<nat>)
    ensures r.Some? ==> r.value < |props| && props[r.value].name == IdName
    ensures r.Some? ==> forall j :: 0 <= j < r.value ==> props[j].name != IdName
    ensures r.None? ==> forall j :: 0 <= j < |props| ==> props[j].name != IdName
  {
    if |props| == 0 then None
    else if props[0].name == IdName then Some(0)
    else match IndexOfId(props[1..])
      case None => None
      case Some(k) => Some(k + 1)
  }
}
