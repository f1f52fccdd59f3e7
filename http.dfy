/** Server replies, passed to the handlers as inputs. */
module Http {
  import opened Wrappers
  import opened Text

  /** What a request came back with: an HTTP response whose JSON body has the
      optional `success` and `message` fields every endpoint here uses, plus the
      endpoint's own `data`; or a failure before any response (the exception's
      message). A body that is not JSON reads as having none of these fields. */
  datatype Reply<D> =
    | Response(ok: bool, status: nat, success: Option<bool>, message: string, data: D)
    | NetworkError(message: string)

  /** A response with a 2xx status: the replies axios resolves with (it
      rejects every other outcome) and the ones `fetch` flags `response.ok`. */
  predicate Resolved<D>(r: Reply<D>) {
    r.Response? && r.ok
  }

  /** The message axios gives a rejection for an HTTP status. */
  function StatusCodeMessage(status: nat): (m: string)
    ensures |m| > 32 && m[..32] == "Request failed with status code "
  {
    "Request failed with status code " + NatToString(status)
  }

  /** `e?.response?.data?.message || e?.message || fallback` for a rejected axios call. */
  function AxiosErrorMessage<D>(r: Reply<D>, fallback: string): (m: string)
    requires !Resolved(r)
    ensures r.message != "" ==> m == r.message
    ensures r.Response? && r.message == "" ==> m == StatusCodeMessage(r.status)
    ensures r.NetworkError? && r.message == "" ==> m == fallback
    ensures m == "" ==> r.NetworkError? && fallback == ""
  {
    match r
    case Response(_, status, _, message, _) => OrElse(message, StatusCodeMessage(status))
    case NetworkError(message) => OrElse(message, fallback)
  }
}
