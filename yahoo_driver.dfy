/** GIS_Geocode_Driver_Yahoo: checks the address, asks Yahoo with the application id it was built
    with, checks the error code of the reply and hands the results to the Yahoo iterator. The HTTP
    exchange is not modelled: the reply Yahoo sends for the query is a parameter. */
module YahooDriver {
  import opened Wrappers
  import opened Php
  import opened Errors
  import opened Coding
  import opened YahooIterator

  /** The parsed reply: the texts of the first `/ResultSet/Error` and `/ResultSet/ErrorMessage`
      nodes, when there are such nodes, and the results. */
  datatype YahooReply = YahooReply(error: Option<string>, errorMessage: Option<string>, results: seq<YahooResult>)

  /** `(int)$error[0]`: a missing node is null, which casts to 0. */
  function ErrorCode(reply: YahooReply): int
  {
    match reply.error
    case Some(t) => StringToInt(t)
    case None => 0
  }

  /** The check of `askYahooService`: a non-zero error code throws with Yahoo's message appended. */
  function ErrorRejection(reply: YahooReply): Option<Error>
  {
    if ErrorCode(reply) != 0 then
      Some(Runtime("Error from Yahoo:" + match reply.errorMessage case Some(m) => m case None => ""))
    else None
  }

  /** What `geocode` does with the reply to a valid address: the error check first, then the
      conversion of the results. */
  function ReplyRejection(reply: YahooReply): Option<Error>
  {
    if ErrorRejection(reply).Some? then ErrorRejection(reply)
    else FirstRejection(reply.results, ResultRejection)
  }

  class Driver {
    /** `$appid`, stored as given. */
    const appid: Value

    constructor (appid: Value)
      ensures this.appid == appid
    {
      this.appid := appid;
    }

    /** The query parameters of the request for an address, in order (`http_build_query` leaves
        out a null application id). */
    function Query(address: string): (q: seq<(string, Value)>)
      ensures |q| >= 2 && q[..2] == [("q", Str(address)), ("flags", Str("G"))]
      ensures appid != Null ==> q == [("q", Str(address)), ("flags", Str("G")), ("appid", appid)]
      ensures appid == Null ==> |q| == 2
    {
      [("q", Str(address)), ("flags", Str("G"))] + if appid == Null then [] else [("appid", appid)]
    }

    /** geocode: an address that is not a non-empty string is rejected before any request; then
        the reply's error code is checked and its results converted. */
    method Geocode(address: Value, reply: YahooReply) returns (r: Result<seq<Coding>, Error>)
      ensures !IsAddress(address) ==> r == Err(InvalidArgument(BadAddressMessage))
      ensures IsAddress(address) ==> (r.Err? <==> ReplyRejection(reply).Some?)
      ensures IsAddress(address) && r.Err? ==> r.error == ReplyRejection(reply).value
      ensures r.Ok? ==> |r.value| == |reply.results|
      ensures r.Ok? ==> forall i, f :: 0 <= i < |r.value| ==> r.value[i].Get(f) == ResultField(reply.results[i], f)
    {
      if !IsAddress(address) {
        return Err(InvalidArgument(BadAddressMessage));
      }
      var rejection := ErrorRejection(reply);
      if rejection.Some? {
        return Err(rejection.value);
      }
      r := ConvertToCodings(reply.results);
    }
  }

  /** The error check passes a reply exactly when its error code reads as 0: no Error node, text
      that does not start with a number, or a number that truncates to 0. */
  lemma ErrorCheckPassesExactly(reply: YahooReply)
    ensures ErrorRejection(reply).None? <==>
      reply.error.None? || LeadingNumber(reply.error.value).None? || Truncate(LeadingNumber(reply.error.value).value.value) == 0
    ensures ErrorRejection(reply).Some? ==>
      ErrorRejection(reply).value.Runtime? && ErrorRejection(reply).value.message[..17] == "Error from Yahoo:"
  {
  }
}
