/**
 * The stream-URL service every plugin's `getMediaSource` calls. The service is not
 * modelled: its answer is a parameter, and the model records the request the plugin
 * would send so that "no request is made" can be stated.
 */
module Vendor {
  import opened Wrappers
  import opened JsObject
  import opened Quality

  /** The parsed body of the service's reply. */
  datatype Reply = Reply(code: Val, url: Val, ekey: Val)

  /** The service answered, or the HTTP client threw (time-out, network or HTTP error). */
  datatype Exchange = Answered(reply: Reply) | Threw

  /** `res.code === 200 && res.url`: strict equality, so the text "200" is not a success. */
  predicate Succeeded(r: Reply) {
    r.code == Num(200) && Truthy(r.url)
  }

  /** The query `/url?source=..&songId=..&quality=..` the plugin sends. */
  datatype Request = Request(source: string, songId: Val, quality: string)

  /** The object `getMediaSource` resolves with. */
  datatype Media = Media(url: Val, ekey: Option<Val>)

  datatype Outcome = Resolved(media: Media) | NullResult | Raised

  /** A call of `getMediaSource`: the request it sent, if any, and how it settled. */
  datatype Attempt = Attempt(sent: Option<Request>, outcome: Outcome)

  /** The unsupported-quality gate: a non-empty table must list the requested tag. */
  predicate Listed(q: Qualities, tag: string) {
    |q| == 0 || Has(q, tag)
  }

  /** JavaScript's rendering of `undefined` inside a template string. */
  const UndefinedText: string := "undefined"
}
