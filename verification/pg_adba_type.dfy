/** The generic SQL type tags of the asynchronous database access API. Only the
    tags that the PostgreSQL type table refers to are modelled. */
module SqlTypes {

  /** A generic SQL type tag, identified by its position in the list of named
      constants below. */
  newtype AdbaType = k: int | 0 <= k < 39

  const BIT: AdbaType := 0
  const ARRAY: AdbaType := 1
  const TINYINT: AdbaType := 2
  const SMALLINT: AdbaType := 3
  const INTEGER: AdbaType := 4
  const BIGINT: AdbaType := 5
  const FLOAT: AdbaType := 6
  const DOUBLE: AdbaType := 7
  const REAL: AdbaType := 8
  const NUMERIC: AdbaType := 9
  const DECIMAL: AdbaType := 10
  const CHAR: AdbaType := 11
  const VARCHAR: AdbaType := 12
  const OTHER: AdbaType := 13
  const LONG_VARCHAR: AdbaType := 14
  const DATE: AdbaType := 15
  const TIME: AdbaType := 16
  const TIMESTAMP: AdbaType := 17
  const BINARY: AdbaType := 18
  const VARBINARY: AdbaType := 19
  const LONG_VARBINARY: AdbaType := 20
  const NULL: AdbaType := 21
  const JAVA_OBJECT: AdbaType := 22
  const DISTINCT: AdbaType := 23
  const STRUCT: AdbaType := 24
  const BLOB: AdbaType := 25
  const CLOB: AdbaType := 26
  const REF: AdbaType := 27
  const DATALINK: AdbaType := 28
  const BOOLEAN: AdbaType := 29
  const ROWID: AdbaType := 30
  const NCHAR: AdbaType := 31
  const NVARCHAR: AdbaType := 32
  const LONG_NVARCHAR: AdbaType := 33
  const NCLOB: AdbaType := 34
  const SQLXML: AdbaType := 35
  const REF_CURSOR: AdbaType := 36
  const TIME_WITH_TIME_ZONE: AdbaType := 37
  const TIMESTAMP_WITH_TIME_ZONE: AdbaType := 38

  /** The text `toString()` gives for a tag: the constant's own name. */
  function TagName(a: AdbaType): string {
    match a
    case BIT => "BIT"
    case ARRAY => "ARRAY"
    case TINYINT => "TINYINT"
    case SMALLINT => "SMALLINT"
    case INTEGER => "INTEGER"
    case BIGINT => "BIGINT"
    case FLOAT => "FLOAT"
    case DOUBLE => "DOUBLE"
    case REAL => "REAL"
    case NUMERIC => "NUMERIC"
    case DECIMAL => "DECIMAL"
    case CHAR => "CHAR"
    case VARCHAR => "VARCHAR"
    case OTHER => "OTHER"
    case LONG_VARCHAR => "LONG_VARCHAR"
    case DATE => "DATE"
    case TIME => "TIME"
    case TIMESTAMP => "TIMESTAMP"
    case BINARY => "BINARY"
    case VARBINARY => "VARBINARY"
    case LONG_VARBINARY => "LONG_VARBINARY"
    case NULL => "NULL"
    case JAVA_OBJECT => "JAVA_OBJECT"
    case DISTINCT => "DISTINCT"
    case STRUCT => "STRUCT"
    case BLOB => "BLOB"
    case CLOB => "CLOB"
    case REF => "REF"
    case DATALINK => "DATALINK"
    case BOOLEAN => "BOOLEAN"
    case ROWID => "ROWID"
    case NCHAR => "NCHAR"
    case NVARCHAR => "NVARCHAR"
    case LONG_NVARCHAR => "LONG_NVARCHAR"
    case NCLOB => "NCLOB"
    case SQLXML => "SQLXML"
    case REF_CURSOR => "REF_CURSOR"
    case TIME_WITH_TIME_ZONE => "TIME_WITH_TIME_ZONE"
    case _ => "TIMESTAMP_WITH_TIME_ZONE"
  }
}

/** The PostgreSQL type table: one constant per SQL type kind, each carrying a
    type name, a wire type id (the server's `pg_type` oid), a generic tag and a
    preferred wire format, together with the two lookups that pick a constant
    for a generic tag or for a host value's class. */
module PgAdbaTypes {
  import SqlTypes
  import opened Wrappers

  /** Whether a value travels as text or as binary on the wire. */
  datatype FormatCode = Text | Binary

  /** The wire type id, generic tag and transfer format a constant is declared
      with. The catalog name is kept apart (see `Name`); the value encoder is
      not modelled. */
  datatype TypeInfo = TypeInfo(oid: int, tag: SqlTypes.AdbaType, format: FormatCode)

  /** A constant of the table, identified by its ordinal: its position in
      declaration order, which is also the order `values()` lists them in. */
  newtype PgAdbaType = k: int | 0 <= k < 94

  /** The number of constants. */
  const Count := 94

  const BIT: PgAdbaType := 0
  const BIT_ARRAY: PgAdbaType := 1
  const TINYINT: PgAdbaType := 2
  const SMALLINT: PgAdbaType := 3
  const INTEGER: PgAdbaType := 4
  const BIGINT: PgAdbaType := 5
  const FLOAT: PgAdbaType := 6
  const FLOAT_ARRAY: PgAdbaType := 7
  const DOUBLE_ARRAY: PgAdbaType := 8
  const REAL: PgAdbaType := 9
  const DOUBLE: PgAdbaType := 10
  const NUMERIC: PgAdbaType := 11
  const NUMERIC_ARRAY: PgAdbaType := 12
  const DECIMAL: PgAdbaType := 13
  const CHAR: PgAdbaType := 14
  const VARCHAR: PgAdbaType := 15
  const UUID: PgAdbaType := 16
  const UUID_ARRAY: PgAdbaType := 17
  const LONGVARCHAR: PgAdbaType := 18
  const DATE: PgAdbaType := 19
  const DATE_ARRAY: PgAdbaType := 20
  const TIME: PgAdbaType := 21
  const TIME_ARRAY: PgAdbaType := 22
  const TIMESTAMP: PgAdbaType := 23
  const TIMESTAMP_ARRAY: PgAdbaType := 24
  const BINARY: PgAdbaType := 25
  const VARBINARY: PgAdbaType := 26
  const LONGVARBINARY: PgAdbaType := 27
  const NULL: PgAdbaType := 28
  const OTHER: PgAdbaType := 29
  const JAVA_OBJECT: PgAdbaType := 30
  const DISTINCT: PgAdbaType := 31
  const STRUCT: PgAdbaType := 32
  const ARRAY: PgAdbaType := 33
  const BYTEA_ARRAY: PgAdbaType := 34
  const CHAR_ARRAY: PgAdbaType := 35
  const SHORT_ARRAY: PgAdbaType := 36
  const INTEGER_ARRAY: PgAdbaType := 37
  const LONG_ARRAY: PgAdbaType := 38
  const BOOLEAN_ARRAY: PgAdbaType := 39
  const STRING_ARRAY: PgAdbaType := 40
  const BLOB: PgAdbaType := 41
  const CLOB: PgAdbaType := 42
  const REF: PgAdbaType := 43
  const DATALINK: PgAdbaType := 44
  const BOOLEAN: PgAdbaType := 45
  const ROWID: PgAdbaType := 46
  const NCHAR: PgAdbaType := 47
  const NVARCHAR: PgAdbaType := 48
  const LONGNVARCHAR: PgAdbaType := 49
  const NCLOB: PgAdbaType := 50
  const SQLXML: PgAdbaType := 51
  const SQLXML_ARRAY: PgAdbaType := 52
  const REF_CURSOR: PgAdbaType := 53
  const TIME_WITH_TIME_ZONE: PgAdbaType := 54
  const TIME_WITH_TIME_ZONE_ARRAY: PgAdbaType := 55
  const TIMESTAMP_WITH_TIME_ZONE: PgAdbaType := 56
  const TIMESTAMP_WITH_TIME_ZONE_ARRAY: PgAdbaType := 57
  const INTERVAL: PgAdbaType := 58
  const INTERVAL_ARRAY: PgAdbaType := 59
  const JSON: PgAdbaType := 60
  const JSON_ARRAY: PgAdbaType := 61
  const JSONB: PgAdbaType := 62
  const JSONB_ARRAY: PgAdbaType := 63
  const CIDR: PgAdbaType := 64
  const CIDR_ARRAY: PgAdbaType := 65
  const POINT: PgAdbaType := 66
  const POINT_ARRAY: PgAdbaType := 67
  const LINE: PgAdbaType := 68
  const LINE_ARRAY: PgAdbaType := 69
  const LINE_SEGMENT: PgAdbaType := 70
  const LINE_SEGMENT_ARRAY: PgAdbaType := 71
  const BOX: PgAdbaType := 72
  const BOX_ARRAY: PgAdbaType := 73
  const PATH: PgAdbaType := 74
  const PATH_ARRAY: PgAdbaType := 75
  const POLYGON: PgAdbaType := 76
  const POLYGON_ARRAY: PgAdbaType := 77
  const CIRCLE: PgAdbaType := 78
  const CIRCLE_ARRAY: PgAdbaType := 79
  const OID: PgAdbaType := 80
  const OID_ARRAY: PgAdbaType := 81
  const LONG_RANGE: PgAdbaType := 82
  const LONG_RANGE_ARRAY: PgAdbaType := 83
  const INTEGER_RANGE: PgAdbaType := 84
  const INTEGER_RANGE_ARRAY: PgAdbaType := 85
  const NUMERIC_RANGE: PgAdbaType := 86
  const NUMERIC_RANGE_ARRAY: PgAdbaType := 87
  const LOCAL_DATE_TIME_RANGE: PgAdbaType := 88
  const LOCAL_DATE_TIME_RANGE_ARRAY: PgAdbaType := 89
  const OFFSET_DATE_TIME_RANGE: PgAdbaType := 90
  const OFFSET_DATE_TIME_RANGE_ARRAY: PgAdbaType := 91
  const LOCAL_DATE_RANGE: PgAdbaType := 92
  const LOCAL_DATE_RANGE_ARRAY: PgAdbaType := 93

  /** The wire type id, tag and format each constant is declared with. */
  function Info(t: PgAdbaType): TypeInfo {
    match t
    case BIT => TypeInfo(1560, SqlTypes.BIT, Text)
    case BIT_ARRAY => TypeInfo(1561, SqlTypes.ARRAY, Text)
    case TINYINT => TypeInfo(21, SqlTypes.TINYINT, Binary)
    case SMALLINT => TypeInfo(21, SqlTypes.SMALLINT, Binary)
    case INTEGER => TypeInfo(23, SqlTypes.INTEGER, Binary)
    case BIGINT => TypeInfo(20, SqlTypes.BIGINT, Binary)
    case FLOAT => TypeInfo(700, SqlTypes.FLOAT, Binary)
    case FLOAT_ARRAY => TypeInfo(1021, SqlTypes.FLOAT, Binary)
    case DOUBLE_ARRAY => TypeInfo(1022, SqlTypes.DOUBLE, Binary)
    case REAL => TypeInfo(700, SqlTypes.REAL, Binary)
    case DOUBLE => TypeInfo(701, SqlTypes.DOUBLE, Binary)
    case NUMERIC => TypeInfo(1700, SqlTypes.NUMERIC, Text)
    case NUMERIC_ARRAY => TypeInfo(1231, SqlTypes.ARRAY, Text)
    case DECIMAL => TypeInfo(1700, SqlTypes.DECIMAL, Text)
    case CHAR => TypeInfo(1042, SqlTypes.CHAR, Text)
    case VARCHAR => TypeInfo(1043, SqlTypes.VARCHAR, Text)
    case UUID => TypeInfo(2950, SqlTypes.OTHER, Text)
    case UUID_ARRAY => TypeInfo(2951, SqlTypes.ARRAY, Text)
    case LONGVARCHAR => TypeInfo(25, SqlTypes.LONG_VARCHAR, Text)
    case DATE => TypeInfo(1082, SqlTypes.DATE, Text)
    case DATE_ARRAY => TypeInfo(1182, SqlTypes.ARRAY, Text)
    case TIME => TypeInfo(1083, SqlTypes.TIME, Text)
    case TIME_ARRAY => TypeInfo(1183, SqlTypes.ARRAY, Text)
    case TIMESTAMP => TypeInfo(1114, SqlTypes.TIMESTAMP, Text)
    case TIMESTAMP_ARRAY => TypeInfo(1115, SqlTypes.ARRAY, Text)
    case BINARY => TypeInfo(17, SqlTypes.BINARY, Text)
    case VARBINARY => TypeInfo(17, SqlTypes.VARBINARY, Text)
    case LONGVARBINARY => TypeInfo(17, SqlTypes.LONG_VARBINARY, Text)
    case NULL => TypeInfo(0, SqlTypes.NULL, Text)
    case OTHER => TypeInfo(0, SqlTypes.OTHER, Binary)
    case JAVA_OBJECT => TypeInfo(0, SqlTypes.JAVA_OBJECT, Text)
    case DISTINCT => TypeInfo(0, SqlTypes.DISTINCT, Text)
    case STRUCT => TypeInfo(0, SqlTypes.STRUCT, Text)
    case ARRAY => TypeInfo(2277, SqlTypes.ARRAY, Text)
    case BYTEA_ARRAY => TypeInfo(1001, SqlTypes.ARRAY, Binary)
    case CHAR_ARRAY => TypeInfo(1014, SqlTypes.ARRAY, Binary)
    case SHORT_ARRAY => TypeInfo(1005, SqlTypes.ARRAY, Binary)
    case INTEGER_ARRAY => TypeInfo(1007, SqlTypes.ARRAY, Binary)
    case LONG_ARRAY => TypeInfo(1016, SqlTypes.ARRAY, Binary)
    case BOOLEAN_ARRAY => TypeInfo(1000, SqlTypes.ARRAY, Binary)
    case STRING_ARRAY => TypeInfo(1015, SqlTypes.ARRAY, Binary)
    case BLOB => TypeInfo(17, SqlTypes.BLOB, Binary)
    case CLOB => TypeInfo(25, SqlTypes.CLOB, Text)
    case REF => TypeInfo(0, SqlTypes.REF, Text)
    case DATALINK => TypeInfo(0, SqlTypes.DATALINK, Text)
    case BOOLEAN => TypeInfo(16, SqlTypes.BOOLEAN, Binary)
    case ROWID => TypeInfo(0, SqlTypes.ROWID, Binary)
    case NCHAR => TypeInfo(18, SqlTypes.NCHAR, Text)
    case NVARCHAR => TypeInfo(1043, SqlTypes.NVARCHAR, Text)
    case LONGNVARCHAR => TypeInfo(25, SqlTypes.LONG_NVARCHAR, Text)
    case NCLOB => TypeInfo(25, SqlTypes.NCLOB, Text)
    case SQLXML => TypeInfo(142, SqlTypes.SQLXML, Text)
    case SQLXML_ARRAY => TypeInfo(143, SqlTypes.ARRAY, Binary)
    case REF_CURSOR => TypeInfo(1790, SqlTypes.REF_CURSOR, Binary)
    case TIME_WITH_TIME_ZONE => TypeInfo(1266, SqlTypes.TIME_WITH_TIME_ZONE, Text)
    case TIME_WITH_TIME_ZONE_ARRAY => TypeInfo(1270, SqlTypes.ARRAY, Text)
    case TIMESTAMP_WITH_TIME_ZONE => TypeInfo(1184, SqlTypes.TIMESTAMP_WITH_TIME_ZONE, Text)
    case TIMESTAMP_WITH_TIME_ZONE_ARRAY => TypeInfo(1185, SqlTypes.ARRAY, Text)
    case INTERVAL => TypeInfo(1186, SqlTypes.OTHER, Text)
    case INTERVAL_ARRAY => TypeInfo(1187, SqlTypes.OTHER, Text)
    case JSON => TypeInfo(114, SqlTypes.OTHER, Text)
    case JSON_ARRAY => TypeInfo(199, SqlTypes.OTHER, Binary)
    case JSONB => TypeInfo(3802, SqlTypes.OTHER, Text)
    case JSONB_ARRAY => TypeInfo(3807, SqlTypes.OTHER, Binary)
    case CIDR => TypeInfo(650, SqlTypes.OTHER, Text)
    case CIDR_ARRAY => TypeInfo(651, SqlTypes.OTHER, Text)
    case POINT => TypeInfo(600, SqlTypes.OTHER, Text)
    case POINT_ARRAY => TypeInfo(1017, SqlTypes.OTHER, Text)
    case LINE => TypeInfo(628, SqlTypes.OTHER, Text)
    case LINE_ARRAY => TypeInfo(629, SqlTypes.OTHER, Text)
    case LINE_SEGMENT => TypeInfo(601, SqlTypes.OTHER, Text)
    case LINE_SEGMENT_ARRAY => TypeInfo(1018, SqlTypes.OTHER, Text)
    case BOX => TypeInfo(603, SqlTypes.OTHER, Text)
    case BOX_ARRAY => TypeInfo(1020, SqlTypes.OTHER, Text)
    case PATH => TypeInfo(602, SqlTypes.OTHER, Text)
    case PATH_ARRAY => TypeInfo(1019, SqlTypes.OTHER, Text)
    case POLYGON => TypeInfo(604, SqlTypes.OTHER, Text)
    case POLYGON_ARRAY => TypeInfo(1027, SqlTypes.OTHER, Text)
    case CIRCLE => TypeInfo(718, SqlTypes.OTHER, Text)
    case CIRCLE_ARRAY => TypeInfo(719, SqlTypes.OTHER, Text)
    case OID => TypeInfo(26, SqlTypes.OTHER, Text)
    case OID_ARRAY => TypeInfo(1028, SqlTypes.OTHER, Text)
    case LONG_RANGE => TypeInfo(3926, SqlTypes.OTHER, Text)
    case LONG_RANGE_ARRAY => TypeInfo(3927, SqlTypes.OTHER, Text)
    case INTEGER_RANGE => TypeInfo(3904, SqlTypes.OTHER, Text)
    case INTEGER_RANGE_ARRAY => TypeInfo(3905, SqlTypes.OTHER, Text)
    case NUMERIC_RANGE => TypeInfo(3906, SqlTypes.OTHER, Text)
    case NUMERIC_RANGE_ARRAY => TypeInfo(3907, SqlTypes.OTHER, Text)
    case LOCAL_DATE_TIME_RANGE => TypeInfo(3908, SqlTypes.OTHER, Text)
    case LOCAL_DATE_TIME_RANGE_ARRAY => TypeInfo(3909, SqlTypes.OTHER, Text)
    case OFFSET_DATE_TIME_RANGE => TypeInfo(3910, SqlTypes.OTHER, Text)
    case OFFSET_DATE_TIME_RANGE_ARRAY => TypeInfo(3911, SqlTypes.OTHER, Text)
    case LOCAL_DATE_RANGE => TypeInfo(3912, SqlTypes.OTHER, Text)
    case _ => TypeInfo(3913, SqlTypes.OTHER, Text)  // LOCAL_DATE_RANGE_ARRAY
  }

  /** The catalog name each constant is declared with. */
  function Name(t: PgAdbaType): string {
    match t
    case BIT => "bit"
    case BIT_ARRAY => "_bit"
    case TINYINT => "tinyint"
    case SMALLINT => "smallint"
    case INTEGER => "integer"
    case BIGINT => "bigint"
    case FLOAT => "float"
    case FLOAT_ARRAY => "_float4"
    case DOUBLE_ARRAY => "_float8"
    case REAL => "float"
    case DOUBLE => "double"
    case NUMERIC => "numeric"
    case NUMERIC_ARRAY => "_numeric"
    case DECIMAL => "numeric"
    case CHAR => "char"
    case VARCHAR => "varchar"
    case UUID => "uuid"
    case UUID_ARRAY => "_uuid"
    case LONGVARCHAR => "text"
    case DATE => "date"
    case DATE_ARRAY => "_date"
    case TIME => "time"
    case TIME_ARRAY => "_time"
    case TIMESTAMP => "timestamp"
    case TIMESTAMP_ARRAY => "_timestamp"
    case BINARY => "bytea"
    case VARBINARY => "bytea"
    case LONGVARBINARY => "bytea"
    case NULL => "void"
    case OTHER => "null"
    case JAVA_OBJECT => "java_object"
    case DISTINCT => "distinct"
    case STRUCT => "struct"
    case ARRAY => "anyarray"
    case BYTEA_ARRAY => "_bytea"
    case CHAR_ARRAY => "_bpchar"
    case SHORT_ARRAY => "_int4"
    case INTEGER_ARRAY => "_int4"
    case LONG_ARRAY => "_int8"
    case BOOLEAN_ARRAY => "_bool"
    case STRING_ARRAY => "_varchar"
    case BLOB => "bytea"
    case CLOB => "text"
    case REF => "ref"
    case DATALINK => "datalink"
    case BOOLEAN => "boolean"
    case ROWID => "rowid"
    case NCHAR => "char"
    case NVARCHAR => "varchar"
    case LONGNVARCHAR => "text"
    case NCLOB => "text"
    case SQLXML => "xml"
    case SQLXML_ARRAY => "xml[]"
    case REF_CURSOR => "refcursor"
    case TIME_WITH_TIME_ZONE => "time with timezone"
    case TIME_WITH_TIME_ZONE_ARRAY => "time with timezone"
    case TIMESTAMP_WITH_TIME_ZONE => "timestamp with timezone"
    case TIMESTAMP_WITH_TIME_ZONE_ARRAY => "timestamp with timezone[]"
    case INTERVAL => "interval"
    case INTERVAL_ARRAY => "interval[]"
    case JSON => "json"
    case JSON_ARRAY => "json[]"
    case JSONB => "jsonb"
    case JSONB_ARRAY => "jsonb[]"
    case CIDR => "cidr"
    case CIDR_ARRAY => "cidr"
    case POINT => "point"
    case POINT_ARRAY => "point[]"
    case LINE => "line"
    case LINE_ARRAY => "line[]"
    case LINE_SEGMENT => "lseg"
    case LINE_SEGMENT_ARRAY => "lseg[]"
    case BOX => "box"
    case BOX_ARRAY => "box[]"
    case PATH => "path"
    case PATH_ARRAY => "path[]"
    case POLYGON => "polygon"
    case POLYGON_ARRAY => "path[]"
    case CIRCLE => "circle"
    case CIRCLE_ARRAY => "circle[]"
    case OID => "oid"
    case OID_ARRAY => "oid[]"
    case LONG_RANGE => "int8range"
    case LONG_RANGE_ARRAY => "int8range[]"
    case INTEGER_RANGE => "int4range"
    case INTEGER_RANGE_ARRAY => "int4range[]"
    case NUMERIC_RANGE => "numrange"
    case NUMERIC_RANGE_ARRAY => "numrange[]"
    case LOCAL_DATE_TIME_RANGE => "tsrange"
    case LOCAL_DATE_TIME_RANGE_ARRAY => "tsrange[]"
    case OFFSET_DATE_TIME_RANGE => "tstzrange"
    case OFFSET_DATE_TIME_RANGE_ARRAY => "tstzrange[]"
    case LOCAL_DATE_RANGE => "daterange"
    case _ => "daterange[]"  // LOCAL_DATE_RANGE_ARRAY
  }

  function Oid(t: PgAdbaType): int { Info(t).oid }

  function Tag(t: PgAdbaType): SqlTypes.AdbaType { Info(t).tag }

  function Format(t: PgAdbaType): FormatCode { Info(t).format }

  /** Every constant reports the same vendor. */
  function Vendor(t: PgAdbaType): string { "postgresql" }

  /** The constants that transfer in binary: the seven fixed-width numbers,
      `BLOB`, `BOOLEAN`, `ROWID`, `REF_CURSOR`, `OTHER`, and twelve of the
      array kinds. */
  const BinaryTransferred: set<PgAdbaType> := {
    TINYINT, SMALLINT, INTEGER, BIGINT, FLOAT, FLOAT_ARRAY,
    DOUBLE_ARRAY, REAL, DOUBLE, OTHER, BYTEA_ARRAY, CHAR_ARRAY,
    SHORT_ARRAY, INTEGER_ARRAY, LONG_ARRAY, BOOLEAN_ARRAY, STRING_ARRAY, BLOB,
    BOOLEAN, ROWID, SQLXML_ARRAY, REF_CURSOR, JSON_ARRAY, JSONB_ARRAY
  }

  /** The table declares the binary format for exactly those constants. */
  lemma BinaryFormatExactly(t: PgAdbaType)
    ensures Format(t) == Binary <==> t in BinaryTransferred
  {
  }

  /** The table declares wire type id 0, which leaves the type for the server
      to infer, for exactly these kinds (`NULL` among them, although it is
      named `void`). */
  lemma UncataloguedKinds(t: PgAdbaType)
    ensures Oid(t) == 0 <==> t in {NULL, OTHER, JAVA_OBJECT, DISTINCT, STRUCT, REF, DATALINK, ROWID}
  {
  }

  /** The integral and boolean types travel in binary under their catalog ids. */
  lemma BinaryWireIds()
    ensures Oid(INTEGER) == 23 && Format(INTEGER) == Binary
    ensures Oid(BIGINT) == 20 && Format(BIGINT) == Binary
    ensures Oid(BOOLEAN) == 16 && Format(BOOLEAN) == Binary
  {
  }

  /** Uuid, numeric and jsonb travel as text under their catalog ids. */
  lemma TextWireIds()
    ensures Oid(UUID) == 2950 && Format(UUID) == Text
    ensures Oid(NUMERIC) == 1700 && Format(NUMERIC) == Text
    ensures Oid(JSONB) == 3802 && Format(JSONB) == Text
  {
  }

  /** Dates and timestamps travel as text under their catalog ids. */
  lemma TemporalWireIds()
    ensures Oid(DATE) == 1082 && Format(DATE) == Text
    ensures Oid(TIMESTAMP) == 1114 && Format(TIMESTAMP) == Text
  {
  }

  /** The four byte-string kinds share the `bytea` wire type; only the large
      object kind prefers the binary format. */
  lemma ByteStringsShareWireType()
    ensures forall t | t in {BINARY, VARBINARY, LONGVARBINARY, BLOB} :: Name(t) == "bytea" && Oid(t) == 17
    ensures Format(BLOB) == Binary && Format(BINARY) == Text
    ensures Format(VARBINARY) == Text && Format(LONGVARBINARY) == Text
  {
  }


  // ---------------------------------------------------------------------------
  // Explicit conversion of a type tag

  /** A type as a caller names it: one of this table's constants, a generic
      tag, or a type of some other vendor (known only by its text). */
  datatype SqlType = Pg(pg: PgAdbaType) | Generic(tag: SqlTypes.AdbaType) | Foreign(typeName: string)

  /** The invalid-argument error raised for a type the table cannot stand for. */
  datatype IllegalArgument = IllegalArgument(message: string)

  /** The first constant at or after ordinal `from` whose generic tag is `a`,
      scanning in declaration order. */
  function FirstWithTag(a: SqlTypes.AdbaType, from: int): (r: Option<PgAdbaType>)
    requires 0 <= from <= Count
    ensures r.Some? ==> from <= r.value as int && Tag(r.value) == a
    ensures forall u: PgAdbaType :: from <= u as int && (r.None? || u < r.value) ==> Tag(u) != a
    decreases Count - from
  {
    if from == Count then None
    else if Tag(from as PgAdbaType) == a then Some(from as PgAdbaType)
    else FirstWithTag(a, from + 1)
  }

  /** The table's constant for a type: a constant stands for itself; a generic
      tag picks the first constant, in declaration order, carrying that tag;
      anything else is an invalid argument. */
  function Convert(t: SqlType): (r: Result<PgAdbaType, IllegalArgument>)
    ensures t.Pg? ==> r == Ok(t.pg)
    ensures t.Generic? && r.Ok? ==>
      Tag(r.value) == t.tag && forall u: PgAdbaType :: u < r.value ==> Tag(u) != t.tag
    ensures t.Generic? && r.Err? ==>
      (forall u: PgAdbaType :: Tag(u) != t.tag) && r.error.message == "unknown type " + SqlTypes.TagName(t.tag)
    ensures t.Foreign? ==> r == Err(IllegalArgument("unknown type " + t.typeName))
  {
    match t
    case Pg(p) => Ok(p)
    case Generic(a) =>
      (match FirstWithTag(a, 0)
       case Some(p) => Ok(p)
       case None => Err(IllegalArgument("unknown type " + SqlTypes.TagName(a))))
    case Foreign(name) => Err(IllegalArgument("unknown type " + name))
  }

  /** Converting a conversion's result changes nothing. */
  lemma ConvertIdempotent(t: SqlType)
    requires Convert(t).Ok?
    ensures Convert(Pg(Convert(t).value)) == Convert(t)
  {
  }

  /** Every generic tag is carried by some constant. `AdbaType` holds exactly
      the tags the table uses, so this checks that list against the table's
      tag column: it fails if a tag is listed that no constant is declared with. */
  lemma EveryTagIsDeclared(a: SqlTypes.AdbaType)
    ensures exists t :: Tag(t) == a
  {
    if a < 22 {
      TagsDeclared0(a);
    } else if a < 30 {
      TagsDeclared1(a);
    } else if a < 36 {
      TagsDeclared2(a);
    } else {
      TagsDeclared3(a);
    }
  }

  // The case analysis behind `EveryTagIsDeclared`: each tag in a range is
  // matched with the first constant declared with it.

  lemma TagsDeclared0(a: SqlTypes.AdbaType)
    requires a < 22
    ensures exists t :: Tag(t) == a
  {
    if a == SqlTypes.BIT {
      assert Tag(BIT) == a;
    } else if a == SqlTypes.ARRAY {
      assert Tag(BIT_ARRAY) == a;
    } else if a == SqlTypes.TINYINT {
      assert Tag(TINYINT) == a;
    } else if a == SqlTypes.SMALLINT {
      assert Tag(SMALLINT) == a;
    } else if a == SqlTypes.INTEGER {
      assert Tag(INTEGER) == a;
    } else if a == SqlTypes.BIGINT {
      assert Tag(BIGINT) == a;
    } else if a == SqlTypes.FLOAT {
      assert Tag(FLOAT) == a;
    } else if a == SqlTypes.DOUBLE {
      assert Tag(DOUBLE_ARRAY) == a;
    } else if a == SqlTypes.REAL {
      assert Tag(REAL) == a;
    } else if a == SqlTypes.NUMERIC {
      assert Tag(NUMERIC) == a;
    } else if a == SqlTypes.DECIMAL {
      assert Tag(DECIMAL) == a;
    } else if a == SqlTypes.CHAR {
      assert Tag(CHAR) == a;
    } else if a == SqlTypes.VARCHAR {
      assert Tag(VARCHAR) == a;
    } else if a == SqlTypes.OTHER {
      assert Tag(UUID) == a;
    } else if a == SqlTypes.LONG_VARCHAR {
      assert Tag(LONGVARCHAR) == a;
    } else if a == SqlTypes.DATE {
      assert Tag(DATE) == a;
    } else if a == SqlTypes.TIME {
      assert Tag(TIME) == a;
    } else if a == SqlTypes.TIMESTAMP {
      assert Tag(TIMESTAMP) == a;
    } else if a == SqlTypes.BINARY {
      assert Tag(BINARY) == a;
    } else if a == SqlTypes.VARBINARY {
      assert Tag(VARBINARY) == a;
    } else if a == SqlTypes.LONG_VARBINARY {
      assert Tag(LONGVARBINARY) == a;
    } else {
      assert a == SqlTypes.NULL;
      assert Tag(NULL) == a;
    }
  }

  lemma TagsDeclared1(a: SqlTypes.AdbaType)
    requires 22 <= a < 30
    ensures exists t :: Tag(t) == a
  {
    if a == SqlTypes.JAVA_OBJECT {
      assert Tag(JAVA_OBJECT) == a;
    } else if a == SqlTypes.DISTINCT {
      assert Tag(DISTINCT) == a;
    } else if a == SqlTypes.STRUCT {
      assert Tag(STRUCT) == a;
    } else if a == SqlTypes.BLOB {
      assert Tag(BLOB) == a;
    } else if a == SqlTypes.CLOB {
      assert Tag(CLOB) == a;
    } else if a == SqlTypes.REF {
      assert Tag(REF) == a;
    } else if a == SqlTypes.DATALINK {
      assert Tag(DATALINK) == a;
    } else {
      assert a == SqlTypes.BOOLEAN;
      assert Tag(BOOLEAN) == a;
    }
  }

  lemma TagsDeclared2(a: SqlTypes.AdbaType)
    requires 30 <= a < 36
    ensures exists t :: Tag(t) == a
  {
    if a == SqlTypes.ROWID {
      assert Tag(ROWID) == a;
    } else if a == SqlTypes.NCHAR {
      assert Tag(NCHAR) == a;
    } else if a == SqlTypes.NVARCHAR {
      assert Tag(NVARCHAR) == a;
    } else if a == SqlTypes.LONG_NVARCHAR {
      assert Tag(LONGNVARCHAR) == a;
    } else if a == SqlTypes.NCLOB {
      assert Tag(NCLOB) == a;
    } else {
      assert a == SqlTypes.SQLXML;
      assert Tag(SQLXML) == a;
    }
  }

  lemma TagsDeclared3(a: SqlTypes.AdbaType)
    requires 36 <= a
    ensures exists t :: Tag(t) == a
  {
    if a == SqlTypes.REF_CURSOR {
      assert Tag(REF_CURSOR) == a;
    } else if a == SqlTypes.TIME_WITH_TIME_ZONE {
      assert Tag(TIME_WITH_TIME_ZONE) == a;
    } else {
      assert a == SqlTypes.TIMESTAMP_WITH_TIME_ZONE;
      assert Tag(TIMESTAMP_WITH_TIME_ZONE) == a;
    }
  }

  /** The tag of a declared constant always converts. */
  lemma DeclaredTagConverts(t: PgAdbaType)
    ensures Convert(Generic(Tag(t))).Ok?
  {
    var r := Convert(Generic(Tag(t)));
    assert r.Err? ==> Tag(t) != Tag(t);
  }

  /** Every generic tag has a constant, so converting a tag never fails. */
  lemma EveryTagConverts(a: SqlTypes.AdbaType)
    ensures Convert(Generic(a)).Ok?
  {
    EveryTagIsDeclared(a);
    var t :| Tag(t) == a;
    DeclaredTagConverts(t);
  }

  /** A generic tag converts to exactly the first constant declared with it. */
  lemma ConvertFirstMatch(a: SqlTypes.AdbaType, t: PgAdbaType)
    ensures Convert(Generic(a)) == Ok(t) <==>
      Tag(t) == a && forall u: PgAdbaType :: u < t ==> Tag(u) != a
  {
    if Tag(t) == a && forall u: PgAdbaType :: u < t ==> Tag(u) != a {
      FirstDeclaredIsConverted(a, t);
    }
  }

  lemma FirstDeclaredIsConverted(a: SqlTypes.AdbaType, t: PgAdbaType)
    requires Tag(t) == a
    requires forall u: PgAdbaType :: u < t ==> Tag(u) != a
    ensures Convert(Generic(a)) == Ok(t)
  {
    var r := Convert(Generic(a));
    assert r.Ok?;
    assert !(r.value < t);
    assert !(t < r.value);
  }

  /** A constant is never shadowed by a constant declared after it: converting
      its tag yields it or an earlier constant with the same tag. */
  lemma ConvertPicksNoLaterConstant(t: PgAdbaType)
    ensures Convert(Generic(Tag(t))).Ok?
    ensures Convert(Generic(Tag(t))).value <= t
  {
    var r := Convert(Generic(Tag(t)));
    assert r.Ok?;
    assert !(t < r.value);
  }

  /** Consequence of first-match order: the `_float8` array entry is declared
      before the scalar `DOUBLE` and carries the same tag. */
  lemma ConvertDoubleYieldsArray()
    ensures Convert(Generic(SqlTypes.DOUBLE)) == Ok(DOUBLE_ARRAY)
  {
    forall u: PgAdbaType | u < DOUBLE_ARRAY
      ensures Tag(u) != SqlTypes.DOUBLE
    {
      if u == BIT {
      } else if u == BIT_ARRAY {
      } else if u == TINYINT {
      } else if u == SMALLINT {
      } else if u == INTEGER {
      } else if u == BIGINT {
      } else if u == FLOAT {
      } else {
        assert u == FLOAT_ARRAY;
      }
    }
    FirstDeclaredIsConverted(SqlTypes.DOUBLE, DOUBLE_ARRAY);
  }

  /** Consequence of first-match order: the `_bit` array entry is the first
      constant tagged `ARRAY`, ahead of the generic `anyarray` entry. */
  lemma ConvertArrayYieldsBitArray()
    ensures Convert(Generic(SqlTypes.ARRAY)) == Ok(BIT_ARRAY)
  {
    assert Tag(BIT) != SqlTypes.ARRAY;
    FirstDeclaredIsConverted(SqlTypes.ARRAY, BIT_ARRAY);
  }

  /** Consequence of first-match order: `UUID` is the first constant tagged
      `OTHER`, ahead of the `OTHER` constant itself. */
  lemma ConvertOtherYieldsUuid()
    ensures Convert(Generic(SqlTypes.OTHER)) == Ok(UUID)
  {
    forall u: PgAdbaType | u < UUID
      ensures Tag(u) != SqlTypes.OTHER
    {
      if u < DOUBLE_ARRAY {
        if u == BIT {
        } else if u == BIT_ARRAY {
        } else if u == TINYINT {
        } else if u == SMALLINT {
        } else if u == INTEGER {
        } else if u == BIGINT {
        } else if u == FLOAT {
        } else {
          assert u == FLOAT_ARRAY;
        }
      } else {
        if u == DOUBLE_ARRAY {
        } else if u == REAL {
        } else if u == DOUBLE {
        } else if u == NUMERIC {
        } else if u == NUMERIC_ARRAY {
        } else if u == DECIMAL {
        } else if u == CHAR {
        } else {
          assert u == VARCHAR;
        }
      }
    }
    FirstDeclaredIsConverted(SqlTypes.OTHER, UUID);
  }

  // ---------------------------------------------------------------------------
  // Inference from a host value's class

  /** The element classes the class index names, and any other class by name. */
  datatype ElementClass =
      Byte
    | Short
    | Integer
    | Long
    | Float
    | Double
    | BigDecimal
    | Character
    | String
    | LocalDate
    | LocalTime
    | LocalDateTime
    | Void
    | PrimitiveByte
    | Boolean
    | OffsetDateTime
    | OffsetTime
    | PrimitiveChar
    | Uuid
    | Duration
    | InetAddress
    | Inet4Address
    | Inet6Address
    | Point
    | Line
    | LineSegment
    | Box
    | Path
    | Polygon
    | Circle
    | LongRange
    | IntegerRange
    | NumericRange
    | LocalDateTimeRange
    | OffsetDateTimeRange
    | LocalDateRange
    | Unlisted(name: string)

  /** A host value's runtime class: an element class and a number of array
      dimensions, so that `byte[][]` is `JavaClass(PrimitiveByte, 2)`. */
  datatype JavaClass = JavaClass(element: ElementClass, dimensions: nat)

  predicate IsArray(c: JavaClass) {
    c.dimensions > 0
  }

  /** The class index filled when the enumeration is loaded. */
  function ClassIndex(c: JavaClass): (r: Option<PgAdbaType>)
    ensures c.element.Unlisted? || c.dimensions > 2 ==> r.None?
    ensures r.Some? && c.dimensions == 2 ==> c.element == PrimitiveByte
  {
    match (c.element, c.dimensions)
    case (Byte, 0) => Some(TINYINT)
    case (Short, 0) => Some(SMALLINT)
    case (Integer, 0) => Some(INTEGER)
    case (Long, 0) => Some(BIGINT)
    case (Float, 0) => Some(FLOAT)
    case (Double, 0) => Some(DOUBLE)
    case (BigDecimal, 0) => Some(NUMERIC)
    case (Character, 0) => Some(CHAR)
    case (String, 0) => Some(VARCHAR)
    case (LocalDate, 0) => Some(DATE)
    case (LocalTime, 0) => Some(TIME)
    case (LocalDateTime, 0) => Some(TIMESTAMP)
    case (Void, 0) => Some(NULL)
    case (PrimitiveByte, 1) => Some(BLOB)
    case (PrimitiveByte, 2) => Some(BYTEA_ARRAY)
    case (Short, 1) => Some(SHORT_ARRAY)
    case (Integer, 1) => Some(INTEGER_ARRAY)
    case (Long, 1) => Some(LONG_ARRAY)
    case (Float, 1) => Some(FLOAT_ARRAY)
    case (Double, 1) => Some(DOUBLE_ARRAY)
    case (Boolean, 1) => Some(BOOLEAN_ARRAY)
    case (Character, 1) => Some(CHAR_ARRAY)
    case (String, 1) => Some(STRING_ARRAY)
    case (LocalDate, 1) => Some(DATE_ARRAY)
    case (LocalTime, 1) => Some(TIME_ARRAY)
    case (LocalDateTime, 1) => Some(TIMESTAMP_ARRAY)
    case (OffsetDateTime, 1) => Some(TIMESTAMP_WITH_TIME_ZONE_ARRAY)
    case (OffsetTime, 1) => Some(TIME_WITH_TIME_ZONE_ARRAY)
    case (BigDecimal, 1) => Some(NUMERIC_ARRAY)
    case (PrimitiveChar, 1) => Some(CLOB)
    case (Boolean, 0) => Some(BOOLEAN)
    case (Uuid, 0) => Some(UUID)
    case (Uuid, 1) => Some(UUID_ARRAY)
    case (OffsetTime, 0) => Some(TIME_WITH_TIME_ZONE)
    case (OffsetDateTime, 0) => Some(TIMESTAMP_WITH_TIME_ZONE)
    case (Duration, 0) => Some(INTERVAL)
    case (Duration, 1) => Some(INTERVAL_ARRAY)
    case (InetAddress, 0) => Some(CIDR)
    case (Inet4Address, 0) => Some(CIDR)
    case (Inet6Address, 0) => Some(CIDR)
    case (InetAddress, 1) => Some(CIDR_ARRAY)
    case (Inet4Address, 1) => Some(CIDR_ARRAY)
    case (Inet6Address, 1) => Some(CIDR_ARRAY)
    case (Point, 0) => Some(POINT)
    case (Point, 1) => Some(POINT_ARRAY)
    case (Line, 0) => Some(LINE)
    case (Line, 1) => Some(LINE_ARRAY)
    case (LineSegment, 0) => Some(LINE_SEGMENT)
    case (LineSegment, 1) => Some(LINE_SEGMENT_ARRAY)
    case (Box, 0) => Some(BOX)
    case (Box, 1) => Some(BOX_ARRAY)
    case (Path, 0) => Some(PATH)
    case (Path, 1) => Some(PATH_ARRAY)
    case (Polygon, 0) => Some(POLYGON)
    case (Polygon, 1) => Some(POLYGON_ARRAY)
    case (Circle, 0) => Some(CIRCLE)
    case (Circle, 1) => Some(CIRCLE_ARRAY)
    case (LongRange, 0) => Some(LONG_RANGE)
    case (LongRange, 1) => Some(LONG_RANGE_ARRAY)
    case (IntegerRange, 0) => Some(INTEGER_RANGE)
    case (IntegerRange, 1) => Some(INTEGER_RANGE_ARRAY)
    case (NumericRange, 0) => Some(NUMERIC_RANGE)
    case (NumericRange, 1) => Some(NUMERIC_RANGE_ARRAY)
    case (LocalDateTimeRange, 0) => Some(LOCAL_DATE_TIME_RANGE)
    case (LocalDateTimeRange, 1) => Some(LOCAL_DATE_TIME_RANGE_ARRAY)
    case (OffsetDateTimeRange, 0) => Some(OFFSET_DATE_TIME_RANGE)
    case (OffsetDateTimeRange, 1) => Some(OFFSET_DATE_TIME_RANGE_ARRAY)
    case (LocalDateRange, 0) => Some(LOCAL_DATE_RANGE)
    case (LocalDateRange, 1) => Some(LOCAL_DATE_RANGE_ARRAY)
    case _ => None
  }

  /** What inference answers for a class whatever has been cached: the index
      entry if there is one, otherwise the generic array kind for an array
      class and the opaque kind for anything else. */
  function Inferred(c: JavaClass): PgAdbaType {
    if ClassIndex(c).Some? then ClassIndex(c).value else if IsArray(c) then ARRAY else OTHER
  }

  /** The class map is the class index plus the entries cached since, kept in
      `added`; an index entry shadows nothing because nothing is ever added
      for an indexed class. */
  function Lookup(added: map<JavaClass, PgAdbaType>, c: JavaClass): Option<PgAdbaType> {
    if ClassIndex(c).Some? then ClassIndex(c) else if c in added then Some(added[c]) else None
  }

  /** Every cached entry maps an unindexed, non-array class to the opaque kind. */
  ghost predicate CacheConsistent(added: map<JavaClass, PgAdbaType>) {
    forall c :: c in added ==> ClassIndex(c).None? && !IsArray(c) && added[c] == OTHER
  }

  /** The answer of one inference and the cached entries after it. */
  datatype Guess = Guess(kind: PgAdbaType, added: map<JavaClass, PgAdbaType>)

  /** Infers the constant for a class: a class in the map gets its entry; an
      array class not in the map gets the generic array kind and is not cached;
      any other class not in the map gets the opaque kind, which is cached. */
  function GuessTypeFromClass(added: map<JavaClass, PgAdbaType>, c: JavaClass): (r: Guess)
    ensures forall k :: k in added ==> k in r.added && r.added[k] == added[k]
    ensures r.added.Keys == if Lookup(added, c).None? && !IsArray(c) then added.Keys + {c} else added.Keys
    ensures Lookup(added, c).Some? ==> r.kind == Lookup(added, c).value
    ensures Lookup(added, c).None? ==> r.kind == if IsArray(c) then ARRAY else OTHER
    ensures Lookup(r.added, c).Some? ==> Lookup(r.added, c).value == r.kind
    ensures CacheConsistent(added) ==> CacheConsistent(r.added) && r.kind == Inferred(c)
  {
    var entry := Lookup(added, c);
    if IsArray(c) && entry.None? then Guess(ARRAY, added)
    else if entry.Some? then Guess(entry.value, added)
    else Guess(OTHER, added[c := OTHER])
  }

  /** Asking again gives the same answer and leaves the map as it was. */
  lemma GuessIsStable(added: map<JavaClass, PgAdbaType>, c: JavaClass)
    ensures GuessTypeFromClass(GuessTypeFromClass(added, c).added, c) == GuessTypeFromClass(added, c)
  {
  }

  /** An indexed class always gets its index entry, whatever has been cached. */
  lemma IndexedClassAnswer(added: map<JavaClass, PgAdbaType>, c: JavaClass)
    requires ClassIndex(c).Some?
    ensures GuessTypeFromClass(added, c) == Guess(ClassIndex(c).value, added)
  {
  }

  /** Primitive byte and char arrays are indexed as large objects, and a
      two-dimensional byte array as an array of byte strings. */
  lemma PrimitiveArrayEntries()
    ensures ClassIndex(JavaClass(PrimitiveByte, 1)) == Some(BLOB)
    ensures ClassIndex(JavaClass(PrimitiveByte, 2)) == Some(BYTEA_ARRAY)
    ensures ClassIndex(JavaClass(PrimitiveChar, 1)) == Some(CLOB)
  {
  }

  /** The three internet address classes share one kind. */
  lemma InetAddressEntries()
    ensures ClassIndex(JavaClass(InetAddress, 0)) == Some(CIDR)
    ensures ClassIndex(JavaClass(Inet4Address, 0)) == Some(CIDR)
    ensures ClassIndex(JavaClass(Inet6Address, 0)) == Some(CIDR)
  {
  }

  /** The answers of successive inferences and the cached entries at the end. */
  datatype Guesses = Guesses(kinds: seq<PgAdbaType>, added: map<JavaClass, PgAdbaType>)

  function GuessAll(added: map<JavaClass, PgAdbaType>, cs: seq<JavaClass>): (r: Guesses)
    ensures |r.kinds| == |cs|
    decreases |cs|
  {
    if cs == [] then Guesses([], added)
    else
      var g := GuessTypeFromClass(added, cs[0]);
      var rest := GuessAll(g.added, cs[1..]);
      Guesses([g.kind] + rest.kinds, rest.added)
  }

  /** Caching is invisible: starting from a consistent map (the bare class
      index is one), every inference in a run answers what the uncached
      definition answers, and the map stays consistent. */
  lemma {:induction false} CachingIsTransparent(added: map<JavaClass, PgAdbaType>, cs: seq<JavaClass>)
    requires CacheConsistent(added)
    ensures CacheConsistent(GuessAll(added, cs).added)
    ensures forall i :: 0 <= i < |cs| ==> GuessAll(added, cs).kinds[i] == Inferred(cs[i])
    decreases |cs|
  {
    if cs != [] {
      var g := GuessTypeFromClass(added, cs[0]);
      CachingIsTransparent(g.added, cs[1..]);
      forall i | 0 <= i < |cs|
        ensures GuessAll(added, cs).kinds[i] == Inferred(cs[i])
      {
        if i > 0 {
          assert cs[1..][i - 1] == cs[i];
        }
      }
    }
  }
}
