/** Values shared by every part of the model: an optional value, decoded JSON
    with Python's truthiness, and the outcome of one chat-completion call. */
module Values {

  datatype Option<+T> = None | Some(value: T)

  /** A value produced by `json.loads`. Objects are dictionaries, so a key
      occurs at most once (the decoder keeps the last duplicate). */
  datatype Json =
    | JNull
    | JBool(b: bool)
    | JNum(n: real)
    | JStr(s: string)
    | JArr(items: seq<Json>)
    | JObj(fields: map<string, Json>)

  /** Python's truth value of a decoded JSON value (`if x:`). */
  predicate Truthy(j: Json) {
    match j
    case JNull => false
    case JBool(b) => b
    case JNum(n) => n != 0.0
    case JStr(s) => s != ""
    case JArr(items) => items != []
    case JObj(fields) => fields != map[]
  }

  /** `d.get(key, default)` on a decoded object. */
  function Get(fields: map<string, Json>, key: string, default: Json): Json {
    if key in fields then fields[key] else default
  }

  /** What one call to the chat-completion backend gives back: the message
      content, or the text of the exception it raised. */
  datatype ChatOutcome = ChatFailed(message: string) | Replied(content: string)
}
