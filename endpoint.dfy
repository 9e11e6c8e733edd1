/** What the three serverless endpoints have in common: the upstream model
    gateway's answer and the shape of an HTTP reply. */
module Endpoint {
  import opened Js

  /** The model gateway's HTTP status and `choices[0].message.content`
      (`None` when any step of that path is missing). */
  datatype Upstream = Upstream(status: nat, content: Option<string>)

  /** `response.ok` */
  predicate IsOk(status: nat) {
    200 <= status <= 299
  }

  /** A JSON reply body: `{ error }` with a message the handler chose, an error
      raised by the JavaScript engine itself (a `TypeError`, whose message the
      engine chooses), or the endpoint's own success shape. */
  datatype Body<+B> = Error(error: string) | EngineError | Success(value: B)

  datatype Reply<+B> = Reply(status: nat, body: Body<B>)

  /** A reply with status 500 for an exception the handler's outer `catch` turns
      into `{ error: message }`. */
  function Thrown<B>(message: string): Reply<B>
  {
    Reply(500, Error(message))
  }
}
