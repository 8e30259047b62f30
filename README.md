# Record persistence layer of PokeD.Server.Desktop — a Dafny model

PokeD's server stores plain record types through a generic `Database`
contract with two interchangeable backends. `FileDBDatabase` is a
flat-file backend over the FileDb engine. It does its own mapping between
objects and records:

- It derives a FileDb schema from the type's properties (`CreateFields`).
- It encodes an object as a field-value set (`CreateFieldValues`) and
  decodes a record back into a new instance (`CreateT`).
- It evaluates `Find` predicates in memory over all decoded records.

`SQLiteDatabase` hands almost everything to SQLite.Net. The one thing it
decides itself is which key flags to pass when it creates a table.

This project models that mapping layer and proves properties of it.

- `record_types.dfy` (`RecordTypes`): a record type is an explicit list of
  properties. Each property has a name, a CLR type, and flags for
  whether it carries `[PrimaryKey]` and `[AutoIncrement]`. These stand in
  for reflection. An instance is the sequence of its property values, in
  the order `GetProperties` returns them. That order is assumed to be the
  same on every call (lines 90, 124, 158 and 168 each call it). Values
  have an opaque type `V`, and the model only compares them for equality.
- `schema.dfy` (`Schema`): storage-type precedence, key roles, and
  `CreateFields` as a loop proved against `DeriveFields`.
- `codec.dfy` (`Codec`): `CreateFieldValues` and `CreateT` as loops proved
  against `FieldValues` and `Decode`, and round trips in both directions.
- `paths.dfy` (`Paths`): the `CombinePath` shape, folder + name + extension.
- `file_db.dfy` (`FileDbBackend`): the `FileDBDatabase` class.
  - The FileDb engine is an in-memory disk: a map from path to table
    (fields and records), plus an open/closed flag.
  - `CreateTable`, `Insert`, `Update` and `Find` state their whole effect
    on that disk.
  - Lemmas relate the operations to each other: find after insert, and
    find by Id after update.
- `sqlite.dfy` (`SQLiteBackend`): the database path chosen by `Create`,
  and the `CreateTable` key flags. A lemma shows that both backends give
  "Id" the same key roles.
- `wrappers.dfy` (`Wrappers`): `Option` stands for a `null` result and
  `Result` for a thrown exception.

## Behaviour of the code worth noting

- `Insert`, `Update` and `Find` have no `try`/`finally` around `Open`…`Close`
  (WrapperInstances/DatabaseWrapperInstance.cs lines 81-83, 88-94, 99-112).
  So "closed afterwards" holds for normal returns only. When `CreateTable`
  throws on an unsupported property type, the file was never opened, and
  the model leaves the open flag as it was.
- `CreateT` reads `record[name]` for every property (line 169). The model
  requires the record to hold every property's field. Two things make that
  so for every table operation. `Valid()` keeps every stored record holding
  exactly the fields of its table. The precondition `HoldsTableFor`, which
  `CreateTable` establishes, says the type's table holds exactly the type's
  fields.
- The flat-file backend's `Create` ignores the database name it is given.
  It only makes a new engine.
- The SQLite `CreateTable` looks up the property "Id" unconditionally. For
  a type without one, `Attribute.IsDefined` receives `null` and throws.
  The model returns `Failure(MissingIdProperty)` in that case.

## Model

| member | source | states |
|---|---|---|
| RecordTypes.IndexOfId | WrapperInstances/DatabaseWrapperInstance.cs:90 | The first property named "Id", if there is one. `None` exactly when no property has that name |
| Schema.StorageType | WrapperInstances/DatabaseWrapperInstance.cs:128-136 | The type mapping fails exactly for a type that is not an enum, Int16, UInt16, bool or Guid and whose name is not a `DataTypeEnum` member. Every type it maps lands on a `DataTypeEnum` member |
| Schema.DeriveFields | WrapperInstances/DatabaseWrapperInstance.cs:120-152 | Succeeds exactly when every property type is supported. Then it gives one field per property, in order. Otherwise it fails at the first unsupported property. The code throws a plain `Exception`; `UnsupportedFieldType` and the property name it carries only record where the loop stopped |
| Schema.CreateFields | WrapperInstances/DatabaseWrapperInstance.cs:120-152 | The loop's result is exactly `DeriveFields`: the complete schema, or the error for the first unsupported property. It never returns a partial list |
| Schema.DerivedSchema | WrapperInstances/DatabaseWrapperInstance.cs:124-149 | Each field is named after its property. Its type follows the precedence enum/Int16/UInt16 → Int32, bool → Bool, Guid → String, otherwise the member named like the type. `IsPrimaryKey` holds iff the property is "Id" with `[PrimaryKey]`. `AutoIncStart` is 1 iff the property is "Id" with `[AutoIncrement]`, and unset otherwise |
| Schema.AtMostOneKeyField | WrapperInstances/DatabaseWrapperInstance.cs:139-147 | With distinct property names, at most one field is a primary key and at most one auto-increments |
| Codec.FieldValues | WrapperInstances/DatabaseWrapperInstance.cs:154-162 | The field-value set has exactly the property names as keys. Each key holds its property's value |
| Codec.CreateFieldValues | WrapperInstances/DatabaseWrapperInstance.cs:154-162 | The loop builds exactly `FieldValues`. Each `Add` sees a fresh key |
| Codec.Decode | WrapperInstances/DatabaseWrapperInstance.cs:164-172 | The decoded instance has one value per property |
| Codec.CreateT | WrapperInstances/DatabaseWrapperInstance.cs:164-172 | Starting from any new instance, the loop overwrites every property from the record, giving exactly `Decode` |
| Codec.DecodeFieldValues | WrapperInstances/DatabaseWrapperInstance.cs:154-172 | Round trip: decoding the field values of an instance gives back every property value |
| Codec.FieldValuesDecode | WrapperInstances/DatabaseWrapperInstance.cs:154-172 | Reverse round trip: a record holding exactly the type's fields re-encodes to itself |
| Paths.CombinePath | WrapperInstances/DatabaseWrapperInstance.cs:117 | The path starts with the database folder and ends with the file name followed by the extension |
| Paths.CombinePathInjective | WrapperInstances/DatabaseWrapperInstance.cs:117 | Two type names give the same file (same folder and extension) iff they are equal |
| SQLiteBackend.KeyFlags | WrapperInstances/DatabaseWrapperInstance.cs:35-41 | `ImplicitPK` is set iff "Id" has `[PrimaryKey]`. `AutoIncPK` is set iff it has `[AutoIncrement]`. No other bit is set. The flags are `None` iff neither attribute is present |
| SQLiteBackend.SQLiteDatabase.Create | WrapperInstances/DatabaseWrapperInstance.cs:26-31 | The connection is opened on the database folder + name + ".sqlite3" |
| SQLiteBackend.SQLiteDatabase.CreateTable | WrapperInstances/DatabaseWrapperInstance.cs:33-44 | Throws exactly when the type has no "Id" property. Otherwise the flags passed on are the `KeyFlags` of "Id" |
| SQLiteBackend.BackendsAgreeOnKeys | WrapperInstances/DatabaseWrapperInstance.cs:35-41 | `ImplicitPK` is set iff the flat-file "Id" field is the primary key. `AutoIncPK` is set iff that field has `AutoIncStart` 1 |
| FileDbBackend.UpdatedRecords | WrapperInstances/DatabaseWrapperInstance.cs:92 | `UpdateRecords` keeps the number of records |
| FileDbBackend.DecodeAll | WrapperInstances/DatabaseWrapperInstance.cs:105 | One decoded instance per stored record |
| FileDbBackend.FirstMatch | WrapperInstances/DatabaseWrapperInstance.cs:105 | `None` iff no instance satisfies the predicate. Otherwise it returns the earliest instance that does, and none before it matches |
| FileDbBackend.FirstMatchAppend | WrapperInstances/DatabaseWrapperInstance.cs:105 | Appending an instance changes the first match only when nothing earlier matched |
| FileDbBackend.FindAfterInsert | WrapperInstances/DatabaseWrapperInstance.cs:79-114 | After an insert, a match found before is still found. Otherwise the inserted instance is found iff it satisfies the predicate |
| FileDbBackend.UpdatedRecordsDecode | WrapperInstances/DatabaseWrapperInstance.cs:86-95 | After the update, every record whose Id matched decodes to the object, and every other record is unchanged. Records keep exactly the type's fields |
| FileDbBackend.FindByIdAfterUpdate | WrapperInstances/DatabaseWrapperInstance.cs:86-114 | If some record had the object's Id, a find by that Id after the update returns the object |
| FileDbBackend.FileDbDatabase.Create | WrapperInstances/DatabaseWrapperInstance.cs:66-71 | A new, closed engine. Files on disk are untouched and the name is ignored |
| FileDbBackend.FileDbDatabase.CreateTable | WrapperInstances/DatabaseWrapperInstance.cs:73-77 | With an unsupported property type it throws and leaves the disk unchanged. Otherwise the type's file is (re)created empty with the derived fields and left closed |
| FileDbBackend.FileDbDatabase.Insert | WrapperInstances/DatabaseWrapperInstance.cs:79-84 | Appends exactly one record equal to the object's field values. Every other record and file is unchanged, and the file ends closed |
| FileDbBackend.FileDbDatabase.Update | WrapperInstances/DatabaseWrapperInstance.cs:86-95 | If the type has "Id", every record with the object's Id takes its field values and all other records are unchanged. Without "Id" the disk is unchanged. The file ends closed either way |
| FileDbBackend.FileDbDatabase.Find | WrapperInstances/DatabaseWrapperInstance.cs:97-114 | Returns the first record, in file order, whose decoding satisfies the predicate, or `None`. On an empty file it returns `None`. The disk is unchanged and the file is closed on both paths |

## Left out

- The TCP listener (`TCPServerWrapperInstance.cs`) is not modelled. It is socket plumbing whose only logic is an early return once disposed.
- SQLite.Net is not modelled. Its `CreateTable`, `Insert`, `Update` and `Find` are one-line delegations whose behaviour is not visible. The model stops at the flags and the path handed to it.
- Reflection is replaced by an explicit property list per type (`GetProperties`, `Attribute.IsDefined`, `GetValue`, `SetValue`). The object's runtime type is taken to be `T` itself, not a subclass.
- `Find` takes a plain Dafny function as its predicate. Expression-tree compilation (`predicate.Compile()`) is not modelled.
- FileDb is an in-memory map from path to table. Real file I/O is not modelled, and neither are FileDb's exceptions, such as opening a missing file. Table operations therefore require the type's file to exist with the type's fields, because schemas never migrate.
- FileDb's `DataTypeEnum` is not part of this model. Its member names are the parameter `enumNames`. `Enum.TryParse` is modelled as exact name matching, which is all a CLR type name can trigger.
- `Path.Combine` is modelled for a relative file name and the separator '/'. Windows separators, volume separators and rooted names are left out. `FileSystemWrapper.DatabaseFolder.Path` is a constructor parameter.
- Stored values (Float, Double, a Guid written into a String field) are opaque and compared only by equality. FileDb's conversions between CLR values and stored values are not modelled.
- Calling a table operation before `Create` is not modelled. In the code it dereferences a null `Database` or `Connection` and throws (lines 43, 75, 81, 88, 99). The model requires `hasEngine` (flat-file) or a connection (SQLite) instead.
- Codec.CreateT: never fails. In the code, `info.SetValue` (line 169) throws for a getter-only property, so `Find` throws on any non-empty table of a type that has one. `CreateFields` and `CreateFieldValues` accept such properties, and the model's property list does not record whether a property has a setter.
- Property names are assumed distinct, as C# requires. `FieldValues.Add` would throw on a repeated name.
- FileDbBackend.FileDbDatabase.Insert: does not model FileDb numbering an auto-increment "Id" on `AddRecord`. That numbering belongs to FileDb, which is not part of this model. The appended record is stated as the encoded object.
- FileDbBackend.FileDbDatabase.CreateTable: states that FileDb's `Create` replaces any existing file of that path with an empty one. That is FileDb's behaviour, which is not visible here.
- The count of updated records that `UpdateRecords` returns is not modelled, because the code discards it.
- Concurrency is not modelled. Every operation is sequential.
