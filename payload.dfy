/**
 * The two records the request body is decoded into, reduced to the fields the
 * handler reads, and the shape of a decode outcome.
 */
module Payload {
  import opened Wrappers

  /** Go's `int` on a 64-bit platform. */
  newtype Int64 = x: int | -0x8000_0000_0000_0000 <= x < 0x8000_0000_0000_0000

  /** The IEEE-754 bit pattern of a Go `float32`. */
  type Float32 = bv32

  /** The dynamic value of the `interface{}` field `tool_choice`. */
  datatype ToolSelection =
    | Absent             // field missing or JSON null: a nil interface
    | Text(s: string)    // a JSON string
    | Structured         // any other JSON value (an object, in practice)

  /** `chatCompletionRequest`, restricted to the fields the handler reads.
      Every pointer field is an `Option`: `None` is a nil pointer. */
  datatype ChatCompletionRequest = ChatCompletionRequest(
    model: string,
    frequencyPenalty: Option<Float32>,
    maxCompletionTokens: Option<Float32>,
    presencePenalty: Option<Float32>,
    stream: Option<bool>,
    temperature: Option<Float32>,
    topP: Option<Float32>,
    user: string,
    logprobs: Option<Int64>,
    topLogprobs: Option<Int64>,
    toolChoice: ToolSelection)

  /** The zero value Go starts decoding from. */
  const EmptyRequest := ChatCompletionRequest("", None, None, None, None, None, None, "", None, None, Absent)

  /** `chatCompletionModelOnlyRequest`. */
  datatype ModelOnlyRequest = ModelOnlyRequest(model: string)

  /** What `json.Unmarshal` leaves behind: the (possibly partially filled) record and
      the error it returned, if any. */
  datatype Decoded<T> = Decoded(value: T, err: Option<string>)
}
