/** Values shared by the whole seeder model: identifiers, the loosely typed
    values a synthetic record holds, and the failures a seeding run can end in. */
module Values {

  datatype Option<T> = None | Some(value: T)

  /** A thrown error or a trap (fatalError, try!) both end the operation; the
      model keeps the reason. */
  datatype Result<T> = Ok(value: T) | Err(error: SeedError)

  /** The result of an operation that returns no value (Future<Void>, async Void). */
  datatype Outcome = Pass | Fail(error: SeedError)

  /** Model identifiers: integer, string and UUID ids. A UUID is kept as its
      canonical string form. */
  datatype IdValue = IntId(n: int) | StringId(s: string) | UuidId(uuidString: string)

  /** What a field of a synthetic record or of a stored row holds. */
  datatype Value =
    | Null                                   // an explicit nil
    | Str(s: string)
    | Int(i: int)
    | Ref(id: IdValue)                       // a foreign key written through a key path
    | Obj(entries: map<string, Value>)       // a nested dictionary, such as ["id": value]
    | Generated(typeName: string)            // some random value of a scalar or nested type

  datatype SeedError =
    | MustSeedBefore(typeName: string)       // a parent type with no rows yet
    | Abort(status: nat)                     // an HTTP-style abort
    | UnregisteredEnum(typeName: string)     // an enum type with no registered cases
    | EmptyEnum(typeName: string)            // an enum type registered with no cases
    | DuplicateId(typeName: string, id: IdValue)
    | UseAsync(message: string)              // a synchronous helper that always traps

  const InternalServerError: nat := 500

  /** The id as the parent-reference generator hands it to a record: a UUID
      as its string form, any other id as it is. */
  function RenderId(id: IdValue): Value
  {
    match id
    case IntId(n) => Int(n)
    case StringId(s) => Str(s)
    case UuidId(u) => Str(u)
  }

  /** The nested dictionary `["id": id]` that refers to a parent row. */
  function IdEntry(id: IdValue): Value
  {
    Obj(map["id" := RenderId(id)])
  }
}
