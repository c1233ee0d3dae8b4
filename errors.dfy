/** The exceptions the core throws, as one datatype, with the default messages of the exception
    classes that have one. */
module Errors {
  import opened Wrappers
  import opened Php

  datatype Error =
    | InvalidArgument(message: string)                       // InvalidArgumentException
    | CodingInvalidArgument(parameter: string, value: Value) // GIS_Geocode_Exception_Coding_InvalidArgument
    | UnserializeFailed                                      // GIS_Geocode_Exception_Coding_UnserializeFailed
    | NoResults(message: string)                             // GIS_Geocode_Exception_NoResults
    | OverQueryLimit(message: string)                        // GIS_Geocode_Exception_Google_OverQueryLimit
    | GoogleError(message: string)                           // GIS_Geocode_Exception_Google
    | Runtime(message: string)                               // RuntimeException
    | Logic(message: string)                                 // LogicException
  {
    /** GIS_Geocode_Exception_Google_OverQueryLimit extends GIS_Geocode_Exception_Google. */
    predicate IsGoogleError()
    {
      GoogleError? || OverQueryLimit?
    }
  }

  /** The message GIS_Geocode_Exception_NoResults carries when constructed without one. */
  const NoResultsMessage: string := "No results"

  /** The message GIS_Geocode_Exception_Google_OverQueryLimit carries when constructed without one. */
  const OverQueryLimitMessage: string := "Too many queries today"

  /** The message every driver's `geocode` throws for an address that is not a non-empty string. */
  const BadAddressMessage: string := "Address must be a non-empty string"

  type Attempt<T> = Result<T, Error>

  type Status = Outcome<Error>

  /** The test every driver's `geocode` applies first: `is_string($address) && 0 < strlen($address)`. */
  predicate IsAddress(address: Value)
  {
    IsNonEmptyString(address)
  }
}
