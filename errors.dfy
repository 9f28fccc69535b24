/** The errors the models raise. `InvalidInputError` is the validation
    failure of every `fromJSON` and of the date check; `PlainError` is the
    host language's generic `Error`, thrown by `frequencyFromString`. */
module Errors {

  datatype Error =
    | InvalidInputError(message: string)
    | PlainError(message: string)
}
