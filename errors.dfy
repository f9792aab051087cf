/** error.go: the library's error value, its two constructors, the numeric error codes,
    and the JSON form an error takes on the wire. */
module Errors {
  import opened Wrappers

  /** An error: the HTTP status it is answered with, the error text, a human-readable
      message and a numeric code. */
  datatype Error = Error(httpCode: int, err: string, msg: string, code: int)

  /** The codes are declared as `1000 + iota`: the declaration at offset `i` has code
      `1000 + i`. */
  function IotaCode(i: nat): (c: int)
    ensures c >= 1000
  {
    1000 + i
  }

  const InternalCode: int := IotaCode(0)
  const ParseRequestCode: int := IotaCode(1)
  const FieldMissingCode: int := IotaCode(2)
  const ModReadOnlyFieldCode: int := IotaCode(3)

  /** The codes in declaration order. */
  const Codes: seq<int> := [InternalCode, ParseRequestCode, FieldMissingCode, ModReadOnlyFieldCode]

  /** The codes run from 1000 upwards without gaps, so no two are equal. */
  lemma CodesConsecutive()
    ensures Codes == [1000, 1001, 1002, 1003]
    ensures forall i :: 0 <= i < |Codes| ==> Codes[i] == 1000 + i
    ensures forall i, j :: 0 <= i < j < |Codes| ==> Codes[i] != Codes[j]
  {
  }

  /** An internal error: status 500, no message, the internal code. */
  function ErrInternal(err: string): (e: Error)
    ensures e.httpCode == 500 && e.err == err && e.msg == "" && e.code == InternalCode
  {
    Error(500, err, "", InternalCode)
  }

  /** A bad request: status 422, everything else as given. */
  function ErrBadRequest(err: string, msg: string, code: int): (e: Error)
    ensures e.httpCode == 422 && e.err == err && e.msg == msg && e.code == code
  {
    Error(422, err, msg, code)
  }

  /** A JSON value of the kinds the error's wire form uses. */
  datatype Json = JString(s: string) | JNumber(n: int)

  /** An error as it is serialised: the struct tags name the members `error`, `message`
      and `code`, in declaration order, and exclude `HttpCode`. */
  function Wire(e: Error): seq<(string, Json)>
  {
    [("error", JString(e.err)), ("message", JString(e.msg)), ("code", JNumber(e.code))]
  }

  /** Reads an error back from its wire form. `HttpCode` is not on the wire, so it is
      left at its zero value. */
  function FromWire(w: seq<(string, Json)>): (r: Option<Error>)
    ensures r.Some? ==> r.value.httpCode == 0
  {
    if |w| == 3 && w[0].0 == "error" && w[0].1.JString? && w[1].0 == "message" && w[1].1.JString?
       && w[2].0 == "code" && w[2].1.JNumber?
    then Some(Error(0, w[0].1.s, w[1].1.s, w[2].1.n))
    else None
  }

  /** Reading the wire form back recovers everything but the status. */
  lemma WireRoundTrip(e: Error)
    ensures FromWire(Wire(e)) == Some(e.(httpCode := 0))
  {
  }

  /** The status never reaches the wire: two errors serialise alike exactly when they
      agree on text, message and code. */
  lemma WireOmitsHttpCode(a: Error, b: Error)
    ensures Wire(a) == Wire(b) <==> a.err == b.err && a.msg == b.msg && a.code == b.code
  {
    if Wire(a) == Wire(b) {
      assert Wire(a)[0] == Wire(b)[0] && Wire(a)[1] == Wire(b)[1] && Wire(a)[2] == Wire(b)[2];
    }
  }
}
