/** The API layer's error type (the variants the modelled functions raise). */
module Errors {
  import Hex

  datatype ApiError =
    | NotInitialized
    | InvalidPublicKey(input: string)
    | InvalidGroupId(cause: Hex.DecodeError)
    | Whitenoise(reason: string)
}
