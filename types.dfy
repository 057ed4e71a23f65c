/** Shared record types of the assistant (src/types/index.ts). */
module Types {

  datatype Option<+T> = None | Some(value: T)

  /** Who a conversation record is attributed to (the `type` field of AIResponse). */
  datatype Sender = User | Ai

  /** The optional `action` descriptor of a response: what was executed. */
  datatype ActionDescriptor = ActionDescriptor(
    actionType: string,
    target: Option<string>,
    parameters: Option<map<string, string>>)

  /** One conversation record. */
  datatype AIResponse = AIResponse(
    id: string,
    message: string,
    timestamp: int,
    kind: Sender,
    action: Option<ActionDescriptor>)

  /** A reading of the clock: `Date.now().toString()` and `Date.now()`. */
  datatype Stamp = Stamp(id: string, time: int)

  /** A real number drawn by `Math.random()`. */
  type UnitInterval = r: real | 0.0 <= r < 1.0 witness 0.0

  /** True when a JavaScript string value is truthy (present and non-empty). */
  predicate Truthy(s: Option<string>)
  {
    s.Some? && s.value != ""
  }
}
