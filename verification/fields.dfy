/**
 * The custom model fields of `oauth2_provider/fields.py`: which physical column
 * type each one asks for (`db_type`) and how each coerces a value read back from
 * the database (`to_python`).
 */
module Fields {
  import opened Results
  import opened PythonInt

  // ---------------------------------------------------------------------------
  // Data model
  // ---------------------------------------------------------------------------

  /**
   * The database connection as far as `db_type` looks at it: the flag
   * `connection.features.related_fields_match_type`, and the type that the
   * backend gives a plain `BigIntegerField` (`BigIntegerField().db_type(connection)`),
   * which belongs to the host framework and is taken here as given.
   */
  datatype Connection = Connection(relatedFieldsMatchType: bool, nativeBigint: string)

  /**
   * The field a relation points at (`self.rel.get_related_field()`), as far as
   * the `isinstance` tests of `BigForeignKey.db_type` tell it apart.
   * `BigInteger` is any instance of `BigIntegerField`; `override` is the type a
   * subclass declares in its own `db_type`, `None` when it keeps the framework's.
   * `Other` is any other field, with the type its own `db_type` returns.
   */
  datatype FieldKind =
    | BigAuto
    | BigUUID
    | BigInteger(override: Option<string>)
    | Other(dbType: string)

  /** A raw value handed to `to_python`. */
  datatype Value =
    | Null
    | Int(i: int)
    | Bool(b: bool)
    | Str(s: string)
    | List(items: seq<Value>)
    | Dict(entries: map<string, Value>)

  const MYSQL_AUTO := "bigint AUTO_INCREMENT"
  const ORACLE_AUTO := "NUMBER(19)"
  const POSTGRES_AUTO := "bigserial"
  const UUID_TYPE := "bigint DEFAULT id_generator()"
  const LONG_MESSAGE := "This value must be a long integer."

  /** Python's `s[:n]`: the whole string when it is shorter than `n`. */
  function PySlicePrefix(s: string, n: nat): string {
    if |s| <= n then s else s[..n]
  }

  // ---------------------------------------------------------------------------
  // db_type
  // ---------------------------------------------------------------------------

  /**
   * `BigAutoField.db_type`. It reads the global `settings.DATABASE_ENGINE`,
   * passed here as `settingsEngine`, and ignores the connection.
   */
  function BigAutoDbType(settingsEngine: string): (r: Result<string>)
    ensures r == Ok(MYSQL_AUTO) <==> settingsEngine == "mysql"
    ensures r == Ok(ORACLE_AUTO) <==> settingsEngine == "oracle"
    ensures r == Ok(POSTGRES_AUTO) <==> |settingsEngine| >= 8 && settingsEngine[..8] == "postgres"
    ensures r.Ok? ==> r.value in {MYSQL_AUTO, ORACLE_AUTO, POSTGRES_AUTO}
    ensures r.Err? ==> r.error == UnsupportedEngine
  {
    if settingsEngine == "mysql" then Ok(MYSQL_AUTO)
    else if settingsEngine == "oracle" then Ok(ORACLE_AUTO)
    else if PySlicePrefix(settingsEngine, 8) == "postgres" then Ok(POSTGRES_AUTO)
    else Err(UnsupportedEngine)
  }

  /** An engine of fewer than eight characters other than mysql and oracle fails. */
  lemma ShortEngineFails(settingsEngine: string)
    requires |settingsEngine| < 8 && settingsEngine != "mysql" && settingsEngine != "oracle"
    ensures BigAutoDbType(settingsEngine) == Err(UnsupportedEngine)
  {
  }

  /** Every engine whose name begins with `postgres` gets `bigserial`. */
  lemma PostgresFamilyNeverFails(settingsEngine: string)
    requires "postgres" <= settingsEngine
    ensures BigAutoDbType(settingsEngine) == Ok(POSTGRES_AUTO)
  {
  }

  /** `BigUUIDField.db_type`: the same literal for every connection. */
  function BigUUIDDbType(conn: Connection): (r: string)
    ensures r == UUID_TYPE
  {
    UUID_TYPE
  }

  /** `BigUUIDField.db_type` gives the same literal on any two connections. */
  lemma UUIDTypeIndependentOfConnection(c1: Connection, c2: Connection)
    ensures BigUUIDDbType(c1) == BigUUIDDbType(c2) == "bigint DEFAULT id_generator()"
  {
  }

  /** `rel_field.db_type(connection)` for each kind of target field. */
  function TargetDbType(settingsEngine: string, target: FieldKind, conn: Connection): (r: Result<string>)
    ensures target.BigAuto? ==> r == BigAutoDbType(settingsEngine)
    ensures !target.BigAuto? ==> r.Ok?
    ensures target.BigUUID? ==> r == Ok(UUID_TYPE)
    ensures target.BigInteger? && target.override.None? ==> r == Ok(conn.nativeBigint)
    ensures target.BigInteger? && target.override.Some? ==> r == Ok(target.override.value)
    ensures target.Other? ==> r == Ok(target.dbType)
  {
    match target
    case BigAuto => BigAutoDbType(settingsEngine)
    case BigUUID => Ok(BigUUIDDbType(conn))
    case BigInteger(override) => Ok(if override.Some? then override.value else conn.nativeBigint)
    case Other(t) => Ok(t)
  }

  /** The condition of `BigForeignKey.db_type` under which it uses the native bigint type. */
  predicate UsesNativeBigint(target: FieldKind, conn: Connection): (r: bool)
    ensures conn.relatedFieldsMatchType ==> (r <==> target.BigAuto? || target.BigUUID?)
    ensures !conn.relatedFieldsMatchType ==> (r <==> !target.Other?)
  {
    target.BigAuto? || target.BigUUID? || (!conn.relatedFieldsMatchType && target.BigInteger?)
  }

  /**
   * `BigForeignKey.db_type`: a reference to an identifier field, or to a
   * bigint field when the backend does not require matching types, is a plain
   * native bigint; any other reference copies its target's type.
   */
  function ForeignKeyDbType(settingsEngine: string, target: FieldKind, conn: Connection): (r: Result<string>)
    ensures r.Ok?
    ensures (target.BigAuto? || target.BigUUID?) ==> r.value == conn.nativeBigint
    ensures target.BigInteger? && !conn.relatedFieldsMatchType ==> r.value == conn.nativeBigint
    ensures (!target.BigAuto? && !target.BigUUID? && (conn.relatedFieldsMatchType || !target.BigInteger?))
              ==> r == TargetDbType(settingsEngine, target, conn)
  {
    if UsesNativeBigint(target, conn) then Ok(conn.nativeBigint)
    else TargetDbType(settingsEngine, target, conn)
  }

  /**
   * A reference to an identifier field is never resolved through the
   * identifier's own `db_type`: its type is the native bigint whatever the
   * engine setting, whatever the type-matching flag, and even where the
   * identifier's own `db_type` fails.
   */
  lemma ForeignKeyToIdentifierIsNative(settingsEngine: string, target: FieldKind, conn: Connection)
    requires target.BigAuto? || target.BigUUID?
    ensures ForeignKeyDbType(settingsEngine, target, conn) == Ok(conn.nativeBigint)
    ensures ForeignKeyDbType(settingsEngine, target, conn.(relatedFieldsMatchType := !conn.relatedFieldsMatchType))
              == Ok(conn.nativeBigint)
  {
  }

  /**
   * When the backend's native bigint is none of the identifier types, a
   * reference to an identifier field never carries the identifier's
   * auto-increment, serial or generator type, and differs from the type the
   * identifier itself resolves to.
   */
  lemma ForeignKeyAvoidsIdentifierTypes(settingsEngine: string, target: FieldKind, conn: Connection)
    requires target.BigAuto? || target.BigUUID?
    requires conn.nativeBigint !in {MYSQL_AUTO, ORACLE_AUTO, POSTGRES_AUTO, UUID_TYPE}
    ensures ForeignKeyDbType(settingsEngine, target, conn).value !in {MYSQL_AUTO, ORACLE_AUTO, POSTGRES_AUTO, UUID_TYPE}
    ensures ForeignKeyDbType(settingsEngine, target, conn) != TargetDbType(settingsEngine, target, conn)
  {
  }

  /**
   * The resolved type of a relation never depends on the engine setting, so it
   * never meets the unsupported-engine failure.
   */
  lemma ForeignKeyIgnoresEngineSetting(e1: string, e2: string, target: FieldKind, conn: Connection)
    ensures ForeignKeyDbType(e1, target, conn) == ForeignKeyDbType(e2, target, conn)
    ensures ForeignKeyDbType(e1, target, conn) != Err(UnsupportedEngine)
  {
  }

  /**
   * For a target that is a plain `BigIntegerField` the type-matching flag makes
   * no difference: both branches end in the native bigint type. Only a subclass
   * that declares its own type sees the flag.
   */
  lemma ForeignKeyToBigIntegerFlag(settingsEngine: string, override: Option<string>, conn: Connection)
    ensures override.None? ==>
      ForeignKeyDbType(settingsEngine, BigInteger(override), conn) == Ok(conn.nativeBigint)
    ensures override.Some? ==>
      ForeignKeyDbType(settingsEngine, BigInteger(override), conn)
        == Ok(if conn.relatedFieldsMatchType then override.value else conn.nativeBigint)
  {
  }

  /** `BigOneToOneField.db_type`: the same resolution as `BigForeignKey.db_type`. */
  function OneToOneDbType(settingsEngine: string, target: FieldKind, conn: Connection): (r: Result<string>)
    ensures r == ForeignKeyDbType(settingsEngine, target, conn)
    ensures r.Ok?
    ensures UsesNativeBigint(target, conn) ==> r.value == conn.nativeBigint
  {
    ForeignKeyDbType(settingsEngine, target, conn)
  }

  // ---------------------------------------------------------------------------
  // to_python
  // ---------------------------------------------------------------------------

  /** The values for which `int(value)` succeeds. */
  predicate IntConvertible(v: Value) {
    v.Int? || v.Bool? || (v.Str? && IsDecimal(v.s))
  }

  /** Python's `int(value)` on a non-`None` raw value; `None` stands for `TypeError`/`ValueError`. */
  function PyInt(v: Value): (r: Option<int>)
    ensures r.Some? <==> IntConvertible(v)
    ensures v.Int? ==> r == Some(v.i)
    ensures v.Bool? ==> r == Some(if v.b then 1 else 0)
    ensures v.Str? && IsDecimal(v.s) ==> r == Some(DecimalValue(v.s))
  {
    match v
    case Int(i) => Some(i)
    case Bool(b) => Some(if b then 1 else 0)
    case Str(s) => ParseInt(s)
    case _ => None
  }

  /** `BigAutoField.to_python`. */
  function BigAutoToPython(v: Value): (r: Result<Option<int>>)
    ensures v.Null? ==> r == Ok(None)
    ensures v.Int? ==> r == Ok(Some(v.i))
    ensures v.Bool? ==> r == Ok(Some(if v.b then 1 else 0))
    ensures v.Str? && IsDecimal(v.s) ==> r == Ok(Some(DecimalValue(v.s)))
    ensures v.Str? ==> forall n :: v.s == IntToString(n) ==> r == Ok(Some(n))
    ensures r.Err? <==> !v.Null? && !IntConvertible(v)
    ensures r.Err? ==> r.error == ValidationError("This value must be a long integer.")
  {
    if v.Null? then Ok(None)
    else
      PyIntRoundTrip(v);
      match PyInt(v)
      case Some(n) => Ok(Some(n))
      case None => Err(ValidationError(LONG_MESSAGE))
  }

  /** `BigUUIDField.to_python`, written out separately as in the source. */
  function BigUUIDToPython(v: Value): (r: Result<Option<int>>)
    ensures v.Null? ==> r == Ok(None)
    ensures v.Int? ==> r == Ok(Some(v.i))
    ensures v.Bool? ==> r == Ok(Some(if v.b then 1 else 0))
    ensures v.Str? && IsDecimal(v.s) ==> r == Ok(Some(DecimalValue(v.s)))
    ensures v.Str? ==> forall n :: v.s == IntToString(n) ==> r == Ok(Some(n))
    ensures r.Err? <==> !v.Null? && !IntConvertible(v)
    ensures r.Err? ==> r.error == ValidationError("This value must be a long integer.")
  {
    if v.Null? then Ok(None)
    else
      PyIntRoundTrip(v);
      match PyInt(v)
      case Some(n) => Ok(Some(n))
      case None => Err(ValidationError(LONG_MESSAGE))
  }

  /** `int(value)` reads the string `str(n)` back as `n`. */
  lemma PyIntRoundTrip(v: Value)
    ensures v.Str? ==> forall n :: v.s == IntToString(n) ==> PyInt(v) == Some(n)
  {
    if v.Str? {
      forall n | v.s == IntToString(n) ensures PyInt(v) == Some(n) {
        ParseIntRoundTrip(n);
      }
    }
  }

  /** The two identifier fields coerce every value identically. */
  lemma IdentifierFieldsAgree(v: Value)
    ensures BigAutoToPython(v) == BigUUIDToPython(v)
  {
  }

  /**
   * `JSONField.to_python`: a missing value becomes an empty mapping when the
   * column is not nullable but may be blank; anything else is already decoded
   * by the database driver and passes through.
   */
  function JsonToPython(v: Value, nullable: bool, blank: bool): (r: Value)
    ensures v.Null? && !nullable && blank ==> r == Dict(map[])
    ensures !(v.Null? && !nullable && blank) ==> r == v
    ensures r.Null? <==> v.Null? && (nullable || !blank)
  {
    if v.Null? && !nullable && blank then Dict(map[]) else v
  }

  /** Coercing a JSON value twice is the same as coercing it once. */
  lemma JsonToPythonIdempotent(v: Value, nullable: bool, blank: bool)
    ensures JsonToPython(JsonToPython(v, nullable, blank), nullable, blank) == JsonToPython(v, nullable, blank)
  {
  }
}
