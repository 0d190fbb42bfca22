/** Request and response messages. */
module Messages {
  import opened Bytes

  const FIXED_LEN: nat := 9

  datatype Request = Request(id: nat, method_: byte, payload: seq<byte>)

  datatype Response = Response(id: nat, ok: bool, payload: seq<byte>)

  function EncodeRequest(r: Request): seq<byte> {
    Le64(r.id) + [r.method_] + r.payload
  }

  function EncodeResponse(r: Response): seq<byte> {
    Le64(r.id) + [if r.ok then 1 else 0] + r.payload
  }

  function DecodeRequest(b: seq<byte>): Option<Request> {
    if |b| < FIXED_LEN then None else Some(Request(FromLe(b[..8]), b[8], b[FIXED_LEN..]))
  }

  function DecodeResponse(b: seq<byte>): Option<Response> {
    if |b| < FIXED_LEN then None else Some(Response(FromLe(b[..8]), b[8] != 0, b[FIXED_LEN..]))
  }

  lemma RequestRoundTrip(r: Request)
    requires r.id < U64_LIMIT
    ensures DecodeRequest(EncodeRequest(r)) == Some(r)
  {
    var b := EncodeRequest(r);
    assert b[..8] == Le64(r.id) && b[8] == r.method_ && b[FIXED_LEN..] == r.payload;
    Le64RoundTrip(r.id);
  }

  lemma ResponseRoundTrip(r: Response)
    requires r.id < U64_LIMIT
    ensures DecodeResponse(EncodeResponse(r)) == Some(r)
  {
    var b := EncodeResponse(r);
    assert b[..8] == Le64(r.id) && b[8] == (if r.ok then 1 else 0) && b[FIXED_LEN..] == r.payload;
    Le64RoundTrip(r.id);
  }
}
