/**
  The relational backend. Only what it decides itself is modelled: the
  database file it connects to and the key flags it hands to
  `CreateTable`; the SQLite.Net calls themselves are external.
 */
module SQLiteBackend {
  import Wrappers
  import opened RecordTypes
  import Paths
  import Schema

  const FileExtension: string := ".sqlite3"

  /** SQLite.Net's `CreateFlags` bit values (the two used here and None). */
  type CreateFlags = bv32
  const None: CreateFlags := 0
  const ImplicitPK: CreateFlags := 1
  const AutoIncPK: CreateFlags := 4

  /** The exception `CreateTable` raises: the type has no "Id" property. */
  datatype SQLiteError = MissingIdProperty

  /** The key flags for a type whose "Id" property is `id`. */
  function KeyFlags(id: Property): (flags: CreateFlags)
    ensures flags & ImplicitPK != 0 <==> id.hasPrimaryKey
    ensures flags & AutoIncPK != 0 <==> id.hasAutoIncrement
    ensures flags & !(ImplicitPK | AutoIncPK) == 0
    ensures flags == None <==> !id.hasPrimaryKey && !id.hasAutoIncrement
  {
    (if id.hasPrimaryKey then ImplicitPK else None) | (if id.hasAutoIncrement then AutoIncPK else None)
  }

  class SQLiteDatabase {
    /** The database folder supplied by the file-system wrapper. */
    const folder: string
    /** The path of the open connection, `None` before `Create`. */
    var connection: Wrappers.Option<string>

    constructor (folder: string)
      ensures this.folder == folder && connection == Wrappers.None
    {
      this.folder := folder;
      connection := Wrappers.None;
    }

    /** `Create`: connects to `<folder>/<databaseName>.sqlite3`. */
    method Create(databaseName: string)
      modifies this
      ensures connection == Wrappers.Some(Paths.CombinePath(folder, databaseName, FileExtension))
    {
      connection := Wrappers.Some(Paths.CombinePath(folder, databaseName, FileExtension));
    }

    /**
      `CreateTable<T>`: the flags passed to the connection's CreateTable.
      `ImplicitPK` is set iff "Id" has [PrimaryKey], `AutoIncPK` iff it has
      [AutoIncrement]; a type without an "Id" property throws.
     */
    method CreateTable(t: RecordType) returns (r: Wrappers.Result<CreateFlags, SQLiteError>)
      requires connection.Some?
      ensures r.Failure? <==> IndexOfId(t.props).None?
      ensures r.Success? ==> r.value == KeyFlags(t.props[IndexOfId(t.props).value])
    {
      var k := IndexOfId(t.props);
      if k.None? {
        return Wrappers.Failure(MissingIdProperty);
      }
      var prop := t.props[k.value];
      var flags := None;
      if prop.hasPrimaryKey {
        flags := flags | ImplicitPK;
      }
      if prop.hasAutoIncrement {
        flags := flags | AutoIncPK;
      }
      r := Wrappers.Success(flags);
    }
  }

  /**
    Both backends give the "Id" property the same key roles: the SQLite
    flags carry `ImplicitPK` exactly when the FileDb "Id" field is the
    primary key, and `AutoIncPK` exactly when it auto-increments.
   */
  lemma BackendsAgreeOnKeys(t: RecordType, enumNames: set<string>)
    requires IndexOfId(t.props).Some?
    requires Schema.DeriveFields(t.props, enumNames).Success?
    ensures var k := IndexOfId(t.props).value;
      var field := Schema.DeriveFields(t.props, enumNames).value[k];
      var flags := KeyFlags(t.props[k]);
      (flags & ImplicitPK != 0 <==> field.isPrimaryKey) &&
      (flags & AutoIncPK != 0 <==> field.autoIncStart == Wrappers.Some(1))
  {
  }
}
