/** Shared vocabulary of the backend: optional values, service results, the
    JSON values that responses carry, and the errors that services raise and
    the error handler turns into HTTP responses. */
module Common {

  /** Row identifiers. The database uses UUIDs (integers for roles); the model
      identifies a row by its position in its table. */
  type UserId = nat
  type CompanyId = nat
  type RoleId = nat
  type PartnerId = nat
  type DocId = nat

  datatype Option<+T> = None | Some(value: T) {
    function GetOr(default: T): T {
      match this
      case Some(v) => v
      case None => default
    }
  }

  /** A JSON value as Express serialises it. `undefined` is the absence of a key. */
  datatype Json =
    | JNull
    | JBool(b: bool)
    | JNumber(n: int)
    | JString(s: string)
    | JArray(items: seq<Json>)
    | JObject(fields: map<string, Json>)

  /** JavaScript truthiness of a JSON value: `null`, `false`, `0` and `""` are
      falsy; every array and object, even an empty one, is truthy. */
  predicate Truthy(j: Json) {
    match j
    case JNull => false
    case JBool(b) => b
    case JNumber(n) => n != 0
    case JString(s) => s != ""
    case JArray(_) => true
    case JObject(_) => true
  }

  /** `value || fallback` for an optional text (a query parameter, an
      environment variable, a request field): absent and "" fall back. */
  function OrDefault(value: Option<string>, fallback: string): string {
    if value.None? || value.value == "" then fallback else value.value
  }

  /** The `AppError` class thrown by the services. */
  datatype AppError = AppError(statusCode: nat, code: string, message: string, details: Option<Json>)

  /** One segment of a validation issue's path: an object key or an array index. */
  datatype PathKey = Key(name: string) | Index(i: nat)
  datatype Issue = Issue(path: seq<PathKey>, message: string)

  /** Everything that can reach the error handler: an `AppError`, a validation
      error with its issues, a known database error with its code and the
      fields of a violated unique constraint, or anything else. */
  datatype Error =
    | App(app: AppError)
    | Validation(issues: seq<Issue>)
    | PrismaKnown(prismaCode: string, target: Option<seq<string>>)
    | Unexpected(description: string)

  datatype Result<+T> = Ok(value: T) | Err(error: Error)

  /** An operation that returns nothing on success. */
  datatype Outcome = Pass | Fail(error: Error)

  function Raise(status: nat, code: string, message: string): Error {
    App(AppError(status, code, message, None))
  }

  /** The code of an `AppError`, or "" for any other error. */
  function CodeOf(e: Error): string {
    if e.App? then e.app.code else ""
  }
}
