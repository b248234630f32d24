/** The failures a call can end in: the library's three exception classes,
    plus the Python built-in exceptions the modelled code lets escape. */
module Exceptions {
  import opened Values

  /** The messages `RechargeAPIError` is raised with. */
  datatype ApiError =
    | NoScopes                                             // "No scopes found for token."
    | MissingScopes(endpoint: string, missing: seq<string>) // "Endpoint ... missing scopes: [...]"
    | MaxRetriesReached                                    // "Max retries reached"

  /** What `_extract_error_message` recovers from an error response: the
      decoded JSON body, or the raw text when it does not decode. */
  datatype ErrorDetail = JsonDetail(json: Json) | TextDetail(text: string)

  datatype Failure =
    | RechargeHttpError(detail: ErrorDetail)  // RechargeHTTPError
    | RechargeApiError(reason: ApiError)      // RechargeAPIError
    | RechargeRequestException                // RechargeRequestException("Request failed")
    | ValueError(expected: Shape, got: Json)  // payload of the wrong container type
    | KeyError(key: string)                   // lookup of an absent dictionary key
    | AttributeError                          // attribute access on a value that lacks it

  datatype Result<+T> = Ok(value: T) | Err(error: Failure)
}
