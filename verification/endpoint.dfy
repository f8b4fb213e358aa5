/** The body the /healthcheck handler writes: the response struct encoded as
    a JSON object with its one field "monerod", followed by a newline. */
module Endpoint {
  import opened Wrappers
  import opened Status
  import opened Upstream
  import opened HealthCheck

  const BodyPrefix: string := "{\"monerod\":\""
  const BodySuffix: string := "\"}\n"

  /** The encoded response. The wire strings contain only letters, which the
      encoder copies without escaping. */
  function Encode(r: HealthCheckResponse): (b: string)
    ensures |b| == |BodyPrefix| + |Wire(r.monerod)| + |BodySuffix|
    ensures b[..|BodyPrefix|] == BodyPrefix
    ensures b[|b| - |BodySuffix|..] == BodySuffix
  {
    BodyPrefix + Wire(r.monerod) + BodySuffix
  }

  /** How a consumer reads the status back out of a body. */
  function ReadBody(b: string): (r: Option<MoneroDStatus>)
  {
    if |b| >= |BodyPrefix| + |BodySuffix|
       && b[..|BodyPrefix|] == BodyPrefix
       && b[|b| - |BodySuffix|..] == BodySuffix
    then ParseWire(b[|BodyPrefix|..|b| - |BodySuffix|])
    else None
  }

  /** Reading an encoded response gives back its status. */
  lemma ReadEncoded(r: HealthCheckResponse)
    ensures ReadBody(Encode(r)) == Some(r.monerod)
  {
  }

  /** A body that reads as a status is exactly that status's encoding. */
  lemma ReadBodySound(b: string, s: MoneroDStatus)
    requires ReadBody(b) == Some(s)
    ensures b == Encode(HealthCheckResponse(s))
  {
  }

  /** The reply to one health-check request: HTTP status and body. */
  datatype Reply = Reply(statusCode: int, body: string)

  /** Serves one request whose upstream call had outcome o. The handler never
      sets a status, so the 200 is the HTTP server's default for a handler
      that writes a body. */
  function Serve(o: Outcome): (reply: Reply)
    ensures ReadBody(reply.body) == Some(Classify(o))
  {
    Reply(StatusOK, Encode(GetMoneroDStatus(o)))
  }

  /** Every health-check reply is a 200 whose body names exactly one status,
      the one the classifier derived. */
  lemma ServeNamesExactlyOneStatus(o: Outcome, s: MoneroDStatus)
    ensures Serve(o).statusCode == 200
    ensures ReadBody(Serve(o).body) == Some(s) <==> s == Classify(o)
  {
  }
}
