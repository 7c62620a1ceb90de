/** The values the handlers throw or pass to `next(err)`, as the error middleware reads them. */
module Errors {

  /** A thrown value: its `name`, the database driver's numeric `code` (0 when absent), its own
      `statusCode` property (0 when absent, which JavaScript treats as falsy), its `message`, and
      for a Mongoose ValidationError the `message` of every entry of `errors`, in order. */
  datatype Err = Err(name: string, code: int, statusCode: int, message: string, fieldMessages: seq<string>)

  /** `new ErrorResponse(message, statusCode)`: an Error that carries its own status code. */
  function ErrorResponse(message: string, statusCode: int): Err
  {
    Err("Error", 0, statusCode, message, [])
  }

  /** A property read on null or undefined. */
  function TypeError(message: string): Err
  {
    Err("TypeError", 0, 0, message, [])
  }

  /** A reference to a name that is not in scope. */
  function ReferenceError(message: string): Err
  {
    Err("ReferenceError", 0, 0, message, [])
  }

  /** Mongoose's error for an identifier that is not a well-formed ObjectId. */
  function CastError(value: string): Err
  {
    Err("CastError", 0, 0, "Cast to ObjectId failed for value \"" + value + "\" at path \"_id\"", [])
  }

  /** The database's unique-index violation (driver code 11000). */
  function DuplicateKey(): Err
  {
    Err("MongoError", 11000, 0, "E11000 duplicate key error", [])
  }

  /** Mongoose's schema validation failure, one message per failing path. */
  function ValidationError(model: string, fieldMessages: seq<string>): Err
  {
    Err("ValidationError", 0, 0, model + " validation failed", fieldMessages)
  }

  /** bcrypt's rejection when the plaintext argument is undefined. */
  function BcryptIllegalArguments(): Err
  {
    Err("Error", 0, 0, "Illegal arguments: undefined, string", [])
  }
}
