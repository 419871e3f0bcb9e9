/**
 * One HTTP exchange, given as a value instead of performed: either `fetch`
 * itself rejected, or a response arrived whose body can be read as text
 * and as JSON, each of which may in turn reject.
 */
module Exchange {
  import opened Wrappers
  import opened Js

  /** What `res.text()` and `res.json()` would resolve to, or the message they reject with. */
  datatype Body = Body(text: Result<string, string>, json: Result<Json, string>)

  datatype Reply =
    | Threw(message: string)
    | Answer(status: nat, body: Body)

  /** `Response.ok`: the status is in the range 200-299. */
  predicate IsOk(status: nat)
  {
    200 <= status <= 299
  }

  predicate OkAnswer(r: Reply)
  {
    r.Answer? && IsOk(r.status)
  }

  predicate ErrorAnswer(r: Reply)
  {
    r.Answer? && !IsOk(r.status)
  }

  /** The requests the actions issue, in the order they issue them. */
  datatype Call =
    | Login
    | Scan(url: string, authorization: string)
    | Link
    | Create
    | Build(assetId: Prop)
    | Item(assetId: Prop)
}
