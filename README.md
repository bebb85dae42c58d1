# Chat relay core, modelled in Dafny

This project models the in-memory chat relay of `src/chat.js`. The relay has
three parts:

- a bounded message log (at most 10,000 records of `{name, hash, message, time}`,
  oldest evicted first);
- a set of live WebSocket connections;
- the three handlers the WebSocket server calls for each connection: `connection`
  replays the last 48 hours of history, `message` validates a frame and posts it or
  replies with `{error}`, and `close` deregisters the connection.

The handlers run one at a time, as on the single-threaded event loop. Each one is a
method call on one object.

Files:

- `wrappers.dfy` (module `Wrappers`): the `Option` type.
- `js_values.dfy` (module `JsValues`): the JSON values a frame can carry, JavaScript
  truthiness, and JavaScript string coercion (`salt + code` and template literals).
  Coercion is partial: a parsed object with its own `toString` key cannot be turned
  into a primitive.
- `protocol.dfy` (module `Protocol`): the pure logic. It holds the constants
  (`HISTORY_LENGTH`, the 48-hour window, the salt), `softError` and the
  `replace(/^soft\:/, "")` reply mapping, the `name` → `code` → `message` truthiness
  chain, and `Decide`, which says what the `message` handler does with a frame. It also
  holds `findIndex` with the `-1 → Infinity` mapping and the `slice` replay, the
  push-then-shift rule as a function, and the per-connection delivery of a broadcast.
- `relay.dfy` (module `Relay`): the class `ChatRelay`. It holds the log, the
  connection set, every connection's outbox of sent frames, the error log, and a count
  of saves started. Its methods `AddMessage` (with its `Broadcast`), `Connect`, `Close` and `Receive` update
  these in place, with loops over the connection set and over the replay. Each method is
  proved against the pure functions.

The SHA-256 digest is the class constant `digest`, a function given to the
constructor and never interpreted. The stored hash is `digest(Salt + text)`, where
`text` is the coerced code. The clock is the `now` parameter of each handler.

Behaviour of the code that the model keeps as written:

- The fields are checked for truthiness only, never for type. A post whose code is
  truthy and neither a string nor an array has the code coerced, salted, digested,
  stored and broadcast. A number, `true`, or an object without its own `toString` key
  behaves this way. Then the log line after the post reads `code.slice` and throws
  `code.slice is not a function`. The sender receives that error after the broadcast
  of its own post, and the error is logged (`Action.Post.afterPost`, lemmas
  `PostLogFailure` and `NumericCodePostedThenRejected`).
- An array code whose elements all coerce is stored and broadcast. Its log line throws
  only if the name or the message cannot be coerced, which is also true of a string code.
- An object code with its own `toString` key makes `salt + code` throw "Cannot convert
  object to primitive value" before anything is stored or sent. So does an array code
  with such an object among its elements.
- A JSON parse error does not start with `soft:`, so it is not a soft error. It is
  logged, and its message is sent back unchanged.
- The reply for a soft error keeps the space after `soft:` (`" enter a name"`),
  because only the prefix `soft:` is stripped.

## Model

| member | source | states |
|---|---|---|
| `JsValues.Truthy` | src/chat.js:87-95 | A value is falsy exactly when it is `undefined`, `null`, `false`, `0` or `""`. |
| `JsValues.NatDigits` | src/chat.js:32 | The digits of a natural number are decimal digits and read back as that number. They have no leading zero, except for the numeral `"0"` itself. |
| `JsValues.Decimal` | src/chat.js:32 | `String(n)` of an integer is a decimal numeral that reads back as `n`. It starts with a minus sign iff `n` is negative, and its digits have no leading zero unless they are just `"0"`. |
| `JsValues.DecimalInjective` | src/chat.js:32 | Distinct numeric codes give distinct digest inputs. |
| `JsValues.JoinItems` | src/chat.js:32 | Joining an array gives `""` for an empty array. It succeeds iff every element is `null`, `undefined` or coercible. |
| `JsValues.ToText` | src/chat.js:32 | A string coerces to itself. An object fails to coerce exactly when it has an own `toString` key. Every primitive coerces. |
| `Protocol.SoftError` | src/chat.js:56-58 | A soft error's message starts with `soft:`, and what follows the prefix is a space and then the reason. |
| `Protocol.IsSoft` | src/chat.js:100 | An error is soft iff its message starts with the five characters `soft:`. |
| `Protocol.ErrorReply` | src/chat.js:105 | The reply text is the thrown message with exactly one leading `soft:` removed when present, and nothing else changed. |
| `Protocol.HardErrorReply` | src/chat.js:100-107 | A message not starting with `soft:` is replied word for word. |
| `Protocol.SoftErrorReply` | src/chat.js:105 | `softError(reason)` reaches the client as `" " + reason`. |
| `Protocol.SoftPrefixStrippedOnce` | src/chat.js:105 | The prefix is removed once only: for a reason that itself begins with `soft:`, the reply is a space and that reason, so `soft:` is still there after the space. |
| `Protocol.Logged` | src/chat.js:100-102 | The error log gets one line, the thrown message, exactly when the error is not soft. Soft errors add nothing. |
| `Protocol.Validate` | src/chat.js:87-95 | No reason is returned iff all three fields are truthy. "enter a name" iff the name is falsy. "enter a secret code" iff the name is truthy and the code falsy. "enter a message" iff the first two are truthy and the message falsy. |
| `Protocol.PreviewCoercible` | src/chat.js:140 | Once the code coerced for its digest, coercing `code.slice(0, 6)` cannot throw. |
| `Protocol.Decide` | src/chat.js:80-108 | A frame is ignored iff it is the heartbeat. A parse failure throws its own message. A parsed frame fails softly iff a field is falsy. A post happens iff all fields are truthy and the code coerces; it keeps name and message as sent, and the code's coerced text is the digest input. An error after the post is never soft. |
| `Protocol.ValidationReply` | src/chat.js:87-105 | Only the first missing field is reported: the replies are `" enter a name"`, `" enter a secret code"` and `" enter a message"`, in that order of checks. |
| `Protocol.StringCodePost` | src/chat.js:96-98 | A post with a non-empty string code is digested from that string. Its log line throws iff the name or the message cannot be coerced. |
| `Protocol.PostLogFailure` | src/chat.js:96-98 | After any post, the log line throws `code.slice is not a function` iff the code is neither a string nor an array. It throws the conversion error iff the code is one of those and the name or the message cannot be coerced. Otherwise it throws nothing. |
| `Protocol.NumericCodePostedThenRejected` | src/chat.js:96-98 | With a truthy name and message, every non-zero numeric code is posted, with its decimal text as digest input. Then the log line throws the non-soft `code.slice is not a function`. |
| `Protocol.PrintFailure` | src/chat.js:97-98 | The log lines throw `code.slice is not a function` iff the code has no `slice` (it is neither a string nor an array). They throw the conversion error iff it has one and the preview, the name or the message cannot be coerced. They throw nothing else. |
| `Protocol.CodePreview` | src/chat.js:140 | `code.slice(0, 6)` is the first six characters (or elements) of the code, or all of them if there are fewer. |
| `Protocol.SameCodeSameDigestInput` | src/chat.js:28-33 | Two posts with the same code have the same digest input, whatever their names and messages. |
| `Protocol.Pushed` | src/chat.js:37-40 | Below capacity, the new record is appended. At capacity, exactly the oldest entry is dropped, and the rest keep their order and are followed by the new record. |
| `Protocol.FifoHistory` | src/chat.js:37-40 | Over any series of adds from a log within bounds, the log stays at most 10,000 long and is exactly the newest entries of everything added, in order. |
| `Protocol.PushedKeepsChronological` | src/chat.js:35-37 | Adding a record stamped no earlier than the log keeps the log's times non-decreasing. |
| `Protocol.Recent` | src/chat.js:71 | A message is within the window iff `now` is less than its time plus 172,800,000 ms (48 hours). |
| `Protocol.FindRecent` | src/chat.js:70-72 | `findIndex` returns -1 iff no message is within 48 hours. Otherwise it returns a message within 48 hours, and no earlier message is within 48 hours. |
| `Protocol.ReplayStart` | src/chat.js:73-75 | The replay start is a valid slice index. It is the index `findIndex` found, or the end of the log when that is -1 (the source's `Infinity`). |
| `Protocol.Replay` | src/chat.js:76-77 | The replay is a suffix of the log, and it is empty when `findIndex` finds nothing. |
| `Protocol.ReplayShape` | src/chat.js:70-78 | The replay is a suffix of the log. It is empty iff no message is within 48 hours. Otherwise it starts with one that is. It leaves out no message within 48 hours. |
| `Protocol.Window` | src/chat.js:60-71 | The window holds exactly the log's messages that are within 48 hours. |
| `Protocol.ReplayIsWindow` | src/chat.js:70-78 | When times are non-decreasing, the replay equals the window. |
| `Protocol.MessageFrames` | src/chat.js:76-78 | One frame per replayed message, in log order. |
| `Protocol.Replied` | src/chat.js:103-107 | Sending the reply for a thrown error appends exactly one `{error: ErrorReply(thrown)}` frame to the sender's outbox. No error means no frame. Every other outbox is unchanged. |
| `Protocol.Delivered` | src/chat.js:42 | Every targeted outbox gets the frame exactly once. Every other outbox is unchanged, and no outbox is created or removed. |
| `Relay.ChatRelay.constructor` | src/chat.js:15-50 | Startup state: empty log, no connections, no outboxes, no errors, no saves. |
| `Relay.ChatRelay.Send` | src/chat.js:78 | `ws.send` appends one frame to that connection's outbox and to no other. |
| `Relay.ChatRelay.Broadcast` | src/chat.js:42 | Every registered connection's outbox gets the frame appended exactly once. Outboxes of connections that are not registered are unchanged. |
| `Relay.ChatRelay.AddMessage` | src/chat.js:27-45 | If the code cannot be coerced, nothing changes and the conversion error is thrown. Otherwise the log becomes `Pushed(old log, {name, digest(salt + code), message, now})`, stays within 10,000, every registered connection's outbox gets that record once and no other outbox changes, and one save is started. |
| `Relay.ChatRelay.Connect` | src/chat.js:68-78 | The connection joins the set, and its outbox is exactly the replay of the log at `now`, in log order. Nothing else changes. |
| `Relay.ChatRelay.Close` | src/chat.js:79 | Only that connection leaves the set. The log and every outbox are unchanged. |
| `Relay.ChatRelay.Receive` | src/chat.js:80-109 | A heartbeat changes nothing. On a failure, the log and saves are unchanged, the sender alone gets exactly one `{error: ErrorReply(thrown)}` frame, and the error log grows by one line iff the error is not soft. On a post, the log is pushed with the record, every connection gets it, and the sender then also gets the post-logging error if one is thrown. |

## Left out

- `src/index.js` is not part of this model: it is an HTTP listener that returns a placeholder body.
- The WebSocket server setup and event wiring (src/chat.js:67-68) are not modelled. The handlers are sequential method calls, and a connection is a number.
- JSON parsing and serialisation are not modelled. A frame arrives decoded, and a parse failure (or the document `null`) carries the engine's error message.
- SHA-256 and the UTF-8 `Buffer` are not modelled: the digest is an uninterpreted function supplied at construction.
- `saveMessages` and `loadMessages` do asynchronous file I/O. The model only counts the saves that `addMessage` starts. The startup load, which can replace the log with any stored content, is not modelled: the model starts from the empty log.
- Console output other than the error log is not modelled. `printMessage` and the duplicate line at src/chat.js:98 appear only through whether they throw; both lines evaluate the same expressions, so they throw alike.
- The clock is the `now` parameter. The source reads `Date.now()` once per element inside `findIndex`; the model uses a single instant for the whole search.
- Numbers are integers. Fractional numbers are not modelled in coercion, and neither is the exponent notation JavaScript uses to print integers of 10^21 or more.
- JsValues.Decimal: is exact only for integers up to 2^53. Above that, `JSON.parse` rounds the number to a double, and `String()` prints the shortest digits that round-trip: `12345678901234567890` becomes `"12345678901234567000"`. For such numeric codes the model's digest input differs from the source's.
- Strings are sequences of Dafny characters. A JSON string with a lone surrogate (`"\ud800"`) is not modelled. JavaScript accepts it, and `Buffer.from(…, "utf-8")` encodes it as a replacement character before digesting.
- `ws.send` cannot fail in the model. Sending on a socket that is not open is not modelled.
- Relay.ChatRelay.Receive: requires the sender to be registered, because a closed socket delivers no further `message` events. Frames that arrive after `close` are not modelled.
