# Custom bigint, UUID and JSON fields of django-oauth-toolkit

This project models `oauth2_provider/fields.py`, the custom Django model fields of
django-oauth-toolkit. It covers two things:

- **`db_type`**: which physical column type each field asks the schema layer for.
  - `BigAutoField` picks an engine-specific auto-increment type, or fails.
  - `BigUUIDField` always asks for a column defaulting to the database-side `id_generator()`.
  - `BigForeignKey` and `BigOneToOneField` pick either the native bigint type or the type of the field they reference.
- **`to_python`**: how a value read back from the database is coerced.
  - The two identifier fields apply `int(...)` or raise a validation error.
  - The JSON field turns a missing value into `{}` or passes the value through.

Everything in the source file is a pure decision on its inputs, so the model is
made of datatypes, functions and lemmas:

- `results.dfy`: the `Results` module. It holds `Option`, `Result` and the two failure kinds: `UnsupportedEngine` for `raise NotImplemented` and `ValidationError(message)`.
- `python_int.dfy`: the `PythonInt` module. It models Python's `int(s)` on strings as a decimal parser: an optional sign, then one or more ASCII digits. Its inverse is `str(n)`, and the module proves the round trip `int(str(n)) == n`.
- `fields.dfy`: the `Fields` module. It holds the five fields' `db_type` and `to_python`.

External inputs become explicit parameters:

- The global `settings.DATABASE_ENGINE` is the `settingsEngine` argument.
- The connection is a record of two fields:
  - the flag `features.related_fields_match_type`;
  - `nativeBigint`, the string the framework's `BigIntegerField().db_type(connection)` returns.
- The referenced field (`self.rel.get_related_field()`) is a `FieldKind`: `BigAuto`, `BigUUID`, `BigInteger(override)` or `Other(dbType)`.
  - `BigInteger` stands for any instance of `BigIntegerField`.
  - `override` is a type that a subclass declares in its own `db_type`.
- A raw value is `Null`, `Int`, `Bool`, `Str`, `List` or `Dict`.

Points where the code's behaviour is easy to misread:

- `BigAutoField.db_type` reads the engine from the settings, not from the connection it is given.
- Its postgres test is a prefix test on the first eight characters. So `postgresql_psycopg2` is accepted and `postgis` fails.
- `BigForeignKey.db_type` looks one hop, at the referenced field only.
- A relation never fails with an unsupported engine, whatever the engine setting.

## Model

| member | source | states |
|---|---|---|
| Fields.BigAutoDbType | oauth2_provider/fields.py:16-24 | `"bigint AUTO_INCREMENT"` iff the engine is exactly `mysql`; `"NUMBER(19)"` iff exactly `oracle`; `"bigserial"` iff the engine has at least 8 characters and they begin with `postgres`; any success is one of those three; every other engine fails with `UnsupportedEngine` |
| Fields.ShortEngineFails | oauth2_provider/fields.py:21-24 | an engine shorter than 8 characters other than `mysql`/`oracle` fails |
| Fields.PostgresFamilyNeverFails | oauth2_provider/fields.py:21-22 | every engine beginning with `postgres` gets `bigserial` |
| Fields.BigUUIDDbType | oauth2_provider/fields.py:58-59 | `"bigint DEFAULT id_generator()"` for any connection |
| Fields.UUIDTypeIndependentOfConnection | oauth2_provider/fields.py:58-59 | the UUID field's type is the same literal on any two connections; it takes no engine, so it holds where `BigAutoField.db_type` fails |
| Fields.TargetDbType | oauth2_provider/fields.py:53 | the referenced field's own type: the `BigAutoField` decision for an auto field, which may fail; the UUID literal for a UUID field; the native bigint for a plain `BigIntegerField`, the declared type for a subclass that overrides it; the given type for any other field |
| Fields.UsesNativeBigint | oauth2_provider/fields.py:45-48 | when the backend requires matching types, only auto and UUID targets take the native bigint; when it does not, every auto, UUID or `BigIntegerField` target does, and no other field |
| Fields.ForeignKeyDbType | oauth2_provider/fields.py:42-53 | never fails; the native bigint for an auto or UUID target, and for a bigint target when the backend does not require matching types; otherwise exactly the target's own type |
| Fields.ForeignKeyToIdentifierIsNative | oauth2_provider/fields.py:45-52 | for an auto or UUID target the result is the native bigint with either value of the type-matching flag, never resolved through the target's own `db_type` (line 53), so even an auto target whose own `db_type` fails gives the native bigint |
| Fields.ForeignKeyAvoidsIdentifierTypes | oauth2_provider/fields.py:45-52 | when the native bigint is none of `bigint AUTO_INCREMENT`, `NUMBER(19)`, `bigserial`, `bigint DEFAULT id_generator()`, a reference to an auto or UUID field gets none of those strings and differs from the target's own resolved type |
| Fields.ForeignKeyIgnoresEngineSetting | oauth2_provider/fields.py:42-53 | a relation's type does not depend on the engine setting, so it never meets the unsupported-engine failure |
| Fields.ForeignKeyToBigIntegerFlag | oauth2_provider/fields.py:47-53 | for a plain `BigIntegerField` target the result is the native bigint with the flag on or off; for a subclass declaring its own type, the flag chooses between that type (flag on) and the native bigint (flag off) |
| Fields.OneToOneDbType | oauth2_provider/fields.py:88-89 | equals `BigForeignKey.db_type` for the same target and connection; never fails; native bigint whenever the foreign-key rule says so |
| Fields.BigAutoToPython | oauth2_provider/fields.py:29-37 | `None` gives `None`; an integer gives itself; `True`/`False` give 1/0; a decimal string gives the integer it denotes, so `str(n)` gives `n`; fails iff the value is not `None` and `int()` cannot convert it, and then with `ValidationError("This value must be a long integer.")` |
| Fields.BigUUIDToPython | oauth2_provider/fields.py:64-72 | the same contract as `BigAutoToPython`, for the separately written copy in `BigUUIDField` |
| Fields.IdentifierFieldsAgree | oauth2_provider/fields.py:29-37 | `BigAutoField.to_python` (lines 29-37) and its separately written copy `BigUUIDField.to_python` (lines 64-72) coerce every value identically |
| Fields.PyInt | oauth2_provider/fields.py:33 | `int(value)` succeeds exactly on integers, booleans and decimal strings; it gives an integer itself, 1/0 for `True`/`False`, and the denoted integer for a decimal string |
| Fields.PyIntRoundTrip | oauth2_provider/fields.py:33 | `int(value)` reads the string `str(n)` back as `n` |
| PythonInt.ParseInt | oauth2_provider/fields.py:33 | `int(s)` on a string succeeds exactly when `s` is an optional sign followed by one or more digits, and then gives the signed positional value of the digits |
| PythonInt.DigitsValueSpec | oauth2_provider/fields.py:33 | the left-to-right digit reader succeeds exactly on non-empty all-digit strings, with their positional value |
| PythonInt.PositionalValueSnoc | oauth2_provider/fields.py:33 | appending a digit multiplies the positional value by ten and adds the digit |
| PythonInt.LeadingZeroIgnored | oauth2_provider/fields.py:33 | a leading zero does not change the value read from a digit string |
| PythonInt.PlusSignIgnored | oauth2_provider/fields.py:33 | a leading `+` does not change the value `int` reads |
| PythonInt.MinusSignNegates | oauth2_provider/fields.py:33 | a leading `-` negates the value read from the digits |
| PythonInt.DigitsValueOfNatToString | oauth2_provider/fields.py:33 | reading the canonical spelling of a natural number gives that number back |
| PythonInt.ParseIntRoundTrip | oauth2_provider/fields.py:33 | `int(str(n)) == n` for every integer `n` |
| PythonInt.ParseIntOfDigitsNonNegative | oauth2_provider/fields.py:33 | an unsigned digit string converts, and to a non-negative integer |
| Fields.JsonToPython | oauth2_provider/fields.py:78-82 | a `None` value on a non-nullable, blank-allowed field becomes `{}`; every other value is returned unchanged; the result is `None` iff the input is `None` and the field is nullable or blank is not allowed |
| Fields.JsonToPythonIdempotent | oauth2_provider/fields.py:78-82 | applying the JSON coercion twice equals applying it once |

## Left out

- Django's field base classes, field registration and the model metaclass are left out. So are the `get_internal_type` methods (lines 26-27 and 61-62), which only return a constant name to the framework.
- `BigIntegerField().db_type(connection)` belongs to the framework. It is the connection's `nativeBigint` string, and the model does not fix its value per engine.
- Fields.ForeignKeyAvoidsIdentifierTypes: "a reference never takes the target's own type" holds only under its requirement that the native bigint is none of the identifier types. On Oracle the framework's native bigint is `NUMBER(19)`, the same string `BigAutoField.db_type` returns there, so on Oracle the two coincide. `Fields.ForeignKeyToIdentifierIsNative` states what holds on every backend: the result is the native bigint.
- Fields.TargetDbType: an `Other` target's `db_type` is a fixed string, not a function of the connection, and it is taken never to fail. The `r.Ok?` clause of `Fields.ForeignKeyDbType` rests on that assumption.
- Fields.OneToOneDbType: the model reads line 89 with Python 3 semantics, where `BigForeignKey.db_type(self, connection)` is a plain function call on a `BigOneToOneField`. Under Python 2 the unbound-method call raises `TypeError` on every call, because `BigOneToOneField` derives from `OneToOneField` and not from `BigForeignKey`.
- PythonInt.ParseInt: Python 3.11 and later, and the 3.7.14, 3.8.14, 3.9.14 and 3.10.7 security releases, make `int()` raise `ValueError` on strings longer than 4300 digits. `PythonInt.ParseInt` accepts those strings, so `Fields.BigAutoToPython` and `Fields.BigUUIDToPython` return their integer where such an interpreter raises the validation error.
- The `connection.features` object is reduced to the one flag the code reads.
- `settings.DATABASE_ENGINE` is a parameter, not a global. The model does not capture that newer Django releases no longer define this setting.
- `raise NotImplemented` really raises a `TypeError`. It is modelled only as the `UnsupportedEngine` failure.
- Python's `int()` is narrowed to ASCII decimal strings with an optional sign, plus integers and booleans. It leaves out surrounding whitespace, underscores, non-ASCII digits, floats (truncation) and other numeric types. Lists and mappings fail, as `int()` raises `TypeError` on them.
- The `json_field.JSONField` base class of the external `postgres` package is left out. So is psycopg2's JSON decoding. The model covers only the pass-through and the `{}` normalisation.
- Logging (lines 3-4) is left out.
