/** The exceptions that can escape the modelled code, as values. */
module Exceptions {

  datatype Error =
    /** USOSAPISessionNotAuthorizedError */
    | SessionNotAuthorized(message: string)
    /** USOSAPIAuthorizationError */
    | AuthorizationFailed(message: string)
    /** requests.HTTPError raised by raise_for_status */
    | HttpError(status: int)
    /** KeyError on a dictionary subscript */
    | KeyError(key: string)
    /** TypeError: subscripting a value that is not a dictionary */
    | TypeError
    /** IndexError: subscripting an empty string */
    | IndexError
    /** AttributeError: an attribute read on None */
    | AttributeError(name: string)
    /** a response body that is not JSON */
    | JsonDecodeError
    /** anything else the OAuth library or the network raises */
    | ProviderFault(reason: string)
}
