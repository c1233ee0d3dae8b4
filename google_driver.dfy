/** GIS_Geocode_Driver_Google: checks the address, asks Google, classifies the status of the
    reply and hands the results to the Google iterator. The HTTP exchange is not modelled: the
    reply Google sends for the query is a parameter. */
module GoogleDriver {
  import opened Wrappers
  import opened Php
  import opened Errors
  import opened Coding
  import opened GoogleIterator

  /** The parsed reply: the texts of the `/GeocodeResponse/status` nodes and the results. */
  datatype GoogleReply = GoogleReply(statuses: seq<string>, results: seq<GoogleResult>)

  /** The check of `askGoogleService`: exactly one status node, and it must say OK; the other
      statuses become the matching exceptions. */
  function StatusRejection(statuses: seq<string>): Option<Error>
  {
    if |statuses| != 1 then Some(Runtime("Google response not understood"))
    else if statuses[0] == "OK" then None
    else if statuses[0] == "OVER_QUERY_LIMIT" then Some(OverQueryLimit(OverQueryLimitMessage))
    else if statuses[0] == "ZERO_RESULTS" then Some(NoResults(NoResultsMessage))
    else Some(GoogleError(statuses[0]))
  }

  /** What `geocode` does with the reply to a valid address: the status check first, then the
      conversion of the results. */
  function ReplyRejection(reply: GoogleReply): Option<Error>
  {
    if StatusRejection(reply.statuses).Some? then StatusRejection(reply.statuses)
    else FirstRejection(reply.results, ResultRejection)
  }

  class Driver {
    /** `$sensor`: whether the request comes from a position sensor. */
    var sensor: bool

    constructor ()
      ensures !sensor
    {
      sensor := false;
    }

    /** setSensor: a scalar is cast to bool; anything else is rejected and the flag kept. */
    method SetSensor(v: Value) returns (r: Status)
      modifies this
      ensures r == if IsScalar(v) then Pass else Fail(InvalidArgument("$sensor"))
      ensures sensor == if IsScalar(v) then Truthy(v) else old(sensor)
    {
      if IsScalar(v) {
        sensor := Truthy(v);
        r := Pass;
      } else {
        r := Fail(InvalidArgument("$sensor"));
      }
    }

    /** The query parameters of the request for an address, in order. */
    function Query(address: string): (q: seq<(string, string)>)
      reads this
      ensures |q| == 2 && q[0] == ("address", address) && q[1].0 == "sensor"
      ensures q[1].1 == "true" <==> sensor
      ensures q[1].1 == "true" || q[1].1 == "false"
    {
      [("address", address), ("sensor", if sensor then "true" else "false")]
    }

    /** geocode: an address that is not a non-empty string is rejected before any request; then
        the reply's status is checked and its results converted. */
    method Geocode(address: Value, reply: GoogleReply) returns (r: Result<seq<Coding>, Error>)
      ensures !IsAddress(address) ==> r == Err(InvalidArgument(BadAddressMessage))
      ensures IsAddress(address) ==> (r.Err? <==> ReplyRejection(reply).Some?)
      ensures IsAddress(address) && r.Err? ==> r.error == ReplyRejection(reply).value
      ensures r.Ok? ==> |r.value| == |reply.results|
      ensures r.Ok? ==> forall i, f :: 0 <= i < |r.value| ==> r.value[i].Get(f) == ResultField(reply.results[i], f)
    {
      if !IsAddress(address) {
        return Err(InvalidArgument(BadAddressMessage));
      }
      var rejection := StatusRejection(reply.statuses);
      if rejection.Some? {
        return Err(rejection.value);
      }
      r := ConvertToCodings(reply.results);
    }
  }

  // ---------------------------------------------------------------------------------------------
  // Properties of the status check

  /** Only a reply with exactly one status node, reading OK, is converted; over-quota and
      zero-results replies carry the exceptions' default messages, and any other status is passed
      on verbatim. */
  lemma StatusClassification(statuses: seq<string>)
    ensures StatusRejection(statuses).None? <==> statuses == ["OK"]
    ensures |statuses| != 1 ==> StatusRejection(statuses) == Some(Runtime("Google response not understood"))
    ensures statuses == ["OVER_QUERY_LIMIT"] ==> StatusRejection(statuses) == Some(OverQueryLimit("Too many queries today"))
    ensures statuses == ["ZERO_RESULTS"] ==> StatusRejection(statuses) == Some(NoResults("No results"))
    ensures |statuses| == 1 && statuses[0] !in ["OK", "OVER_QUERY_LIMIT", "ZERO_RESULTS"] ==>
      StatusRejection(statuses) == Some(GoogleError(statuses[0]))
  {
    if |statuses| == 1 && statuses[0] == "OK" {
      assert statuses == ["OK"];
    }
  }

  /** Every exception the status check raises for a single status node is a Google exception
      (over-quota being one), except the one for zero results. */
  lemma StatusErrorsAreGoogleErrors(status: string)
    requires status != "OK" && status != "ZERO_RESULTS"
    ensures StatusRejection([status]).Some? && StatusRejection([status]).value.IsGoogleError()
  {
  }
}
