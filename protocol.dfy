/** The pure part of the chat relay: the stored message record, the frames that
    travel in each direction, the soft-error convention and its reply mapping,
    the validation chain of the frame handler, the 48-hour replay window and
    the push-then-shift rule of the bounded history. */
module Protocol {
  import opened Wrappers
  import opened JsValues

  /** Most messages the history keeps. */
  const HistoryLength: nat := 10_000

  /** Width of the replay window: 48 hours in milliseconds. */
  const AllowedTimeInMs: int := 48 * 60 * 60 * 1000

  /** Prepended to a secret code before it is digested; clients use the same. */
  const Salt: string := "!volvox!"

  /** Marker that distinguishes a user-caused error from an unexpected one. */
  const SoftPrefix: string := "soft:"

  const NameMissing: string := "enter a name"
  const CodeMissing: string := "enter a secret code"
  const MessageMissing: string := "enter a message"

  /** What the JavaScript engine throws when `code.slice` is read off a value
      that has no such method (a number, `true`, an object). */
  const SliceError: string := "code.slice is not a function"

  /** What the JavaScript engine throws when a parsed object cannot be coerced
      to a string (see `JsValues.ToText`). */
  const ConversionError: string := "Cannot convert object to primitive value"

  /** Identifies one WebSocket connection. */
  type ConnId = nat

  /** A stored chat message. `name` and `message` are kept exactly as the
      frame carried them; `hash` is the digest of the salted secret code;
      `time` is milliseconds since the epoch. */
  datatype Message = Message(name: Value, hash: string, message: Value, time: int)

  /** A frame the server sends: a chat message, or `{error: text}`. */
  datatype OutFrame = MessageFrame(msg: Message) | ErrorFrame(error: string)

  /** A frame the server receives, already decoded. `Heartbeat` is the literal
      text `heartbeat`. `Malformed` is text on which `JSON.parse` or the
      destructuring of its result throws (invalid JSON, or the document `null`);
      it carries the engine's error message. `Fields` is any other parsed
      document, reduced to its `name`, `code` and `message` properties. */
  datatype Frame =
    | Heartbeat
    | Malformed(error: string)
    | Fields(name: Value, code: Value, message: Value)

  predicate StartsWith(s: string, prefix: string) {
    |prefix| <= |s| && s[..|prefix|] == prefix
  }

  /** The thrown error is a soft one: its message begins with `soft:`. */
  predicate IsSoft(thrown: string)
    ensures IsSoft(thrown) <==>
      |thrown| >= 5 && thrown[0] == 's' && thrown[1] == 'o' && thrown[2] == 'f'
      && thrown[3] == 't' && thrown[4] == ':'
  {
    StartsWith(thrown, SoftPrefix)
  }

  /** The message of the error `softError(reason)` creates. */
  function SoftError(reason: string): (thrown: string)
    ensures IsSoft(thrown)
    ensures thrown[|SoftPrefix|..] == " " + reason
  {
    SoftPrefix + " " + reason
  }

  /** The text of the `{error: ...}` reply for a thrown error: its message with
      one leading `soft:` removed, if there is one. */
  function ErrorReply(thrown: string): (reply: string)
    ensures thrown == (if IsSoft(thrown) then SoftPrefix else "") + reply
  {
    if IsSoft(thrown) then thrown[|SoftPrefix|..] else thrown
  }

  /** Unexpected errors are passed through to the client word for word. */
  lemma HardErrorReply(thrown: string)
    requires !IsSoft(thrown)
    ensures ErrorReply(thrown) == thrown
  {
  }

  /** A soft error reaches the client as its reason behind one space. */
  lemma SoftErrorReply(reason: string)
    ensures ErrorReply(SoftError(reason)) == " " + reason
  {
  }

  /** The prefix is stripped once only: a reason that itself begins with
      `soft:` keeps it in the reply, after the space. */
  lemma SoftPrefixStrippedOnce(reason: string)
    requires IsSoft(reason)
    ensures ErrorReply(SoftError(reason)) == " " + reason
    ensures IsSoft(ErrorReply(SoftError(reason))[1..])
  {
  }

  /** What the error log receives for a thrown error: nothing for a soft one,
      its message otherwise. */
  function Logged(thrown: string): (lines: seq<string>)
    ensures |lines| <= 1
    ensures lines == [] <==> IsSoft(thrown)
    ensures lines != [] ==> lines[0] == thrown
  {
    if IsSoft(thrown) then [] else [thrown]
  }

  /** The falsy-field checks of a post, in the order the handler makes them:
      the reason of the first failing check, or `None` if all three pass. */
  function Validate(name: Value, code: Value, message: Value): (r: Option<string>)
    ensures r.None? <==> Truthy(name) && Truthy(code) && Truthy(message)
    ensures r == Some(NameMissing) <==> !Truthy(name)
    ensures r == Some(CodeMissing) <==> Truthy(name) && !Truthy(code)
    ensures r == Some(MessageMissing) <==> Truthy(name) && Truthy(code) && !Truthy(message)
  {
    if !Truthy(name) then Some(NameMissing)
    else if !Truthy(code) then Some(CodeMissing)
    else if !Truthy(message) then Some(MessageMissing)
    else None
  }

  /** `code.slice(0, 6)`, the identity preview that the post log line shows;
      only strings and arrays have a `slice` method. */
  function CodePreview(code: Value): (preview: Value)
    requires code.Str? || code.Arr?
    ensures code.Str? ==>
      preview.Str? && |preview.s| == (if |code.s| < 6 then |code.s| else 6)
      && preview.s == code.s[..|preview.s|]
    ensures code.Arr? ==>
      preview.Arr? && |preview.items| == (if |code.items| < 6 then |code.items| else 6)
      && preview.items == code.items[..|preview.items|]
  {
    match code
    case Str(s) => Str(if |s| <= 6 then s else s[..6])
    case Arr(items) => Arr(if |items| <= 6 then items else items[..6])
  }

  /** The error the two log lines after a post throw, if any. They read
      `code.slice`, then coerce the preview, the name and the message. */
  function PrintFailure(name: Value, code: Value, message: Value): (r: Option<string>)
    ensures r == Some(SliceError) <==> !code.Str? && !code.Arr?
    ensures r == Some(ConversionError) <==>
      (code.Str? || code.Arr?)
      && (ToText(CodePreview(code)).None? || ToText(name).None? || ToText(message).None?)
    ensures r.None? || r == Some(SliceError) || r == Some(ConversionError)
  {
    if !(code.Str? || code.Arr?) then Some(SliceError)
    else if ToText(CodePreview(code)).None? || ToText(name).None? || ToText(message).None? then
      Some(ConversionError)
    else None
  }

  /** Once the code has been coerced for its digest, coercing its preview
      cannot fail: only the name or the message can still make a line throw. */
  lemma PreviewCoercible(code: Value)
    requires code.Str? || code.Arr?
    requires ToText(code).Some?
    ensures ToText(CodePreview(code)).Some?
  {
  }

  /** The engine's own error messages are not soft ones. */
  lemma EngineErrorsAreHard()
    ensures !IsSoft(SliceError) && !IsSoft(ConversionError)
  {
  }

  /** What the frame handler does with one frame. `Fail` carries the message
      of the error it throws; `Post` carries the record's name and message,
      the coerced code that is salted and digested, and the error that the
      logging after the post may still throw. */
  datatype Action =
    | Ignore
    | Fail(thrown: string)
    | Post(name: Value, codeText: string, message: Value, afterPost: Option<string>)

  predicate AllTruthy(f: Frame)
    requires f.Fields?
  {
    Truthy(f.name) && Truthy(f.code) && Truthy(f.message)
  }

  /** The decision of the `message` handler for one frame. */
  function Decide(f: Frame): (a: Action)
    ensures a.Ignore? <==> f.Heartbeat?
    ensures f.Malformed? ==> a == Fail(f.error)
    ensures f.Fields? ==> (a.Fail? && IsSoft(a.thrown) <==> !AllTruthy(f))
    ensures a.Post? <==> f.Fields? && AllTruthy(f) && ToText(f.code).Some?
    ensures a.Post? ==>
      a.name == f.name && a.message == f.message && Some(a.codeText) == ToText(f.code)
    ensures a.Post? && a.afterPost.Some? ==> !IsSoft(a.afterPost.value)
  {
    match f
    case Heartbeat => Ignore
    case Malformed(e) => Fail(e)
    case Fields(name, code, message) =>
      match Validate(name, code, message)
      case Some(reason) => Fail(SoftError(reason))
      case None =>
        EngineErrorsAreHard();
        match ToText(code)
        case None => Fail(ConversionError)
        case Some(text) => Post(name, text, message, PrintFailure(name, code, message))
  }

  /** The reply a frame with a falsy field gets: only the first missing field
      is reported, with the leading `soft:` stripped. */
  lemma ValidationReply(name: Value, code: Value, message: Value)
    ensures var a := Decide(Fields(name, code, message));
      && (!Truthy(name) ==> a.Fail? && ErrorReply(a.thrown) == " " + NameMissing)
      && (Truthy(name) && !Truthy(code) ==>
            a.Fail? && ErrorReply(a.thrown) == " " + CodeMissing)
      && (Truthy(name) && Truthy(code) && !Truthy(message) ==>
            a.Fail? && ErrorReply(a.thrown) == " " + MessageMissing)
  {
  }

  /** A post whose code is a string is digested from that string, and only
      the name or the message can make its log line throw afterwards. */
  lemma StringCodePost(name: Value, code: string, message: Value)
    requires Truthy(name) && code != "" && Truthy(message)
    ensures var a := Decide(Fields(name, Str(code), message));
      && a.Post? && a.codeText == code
      && (a.afterPost.None? <==> ToText(name).Some? && ToText(message).Some?)
  {
  }

  /** The message a post stores depends on the secret code only through its
      digest input, never on the name: two posts with the same code carry
      the same `codeText`, whatever their names and messages. */
  lemma SameCodeSameDigestInput(f: Frame, g: Frame)
    requires f.Fields? && g.Fields? && f.code == g.code
    requires Decide(f).Post? && Decide(g).Post?
    ensures Decide(f).codeText == Decide(g).codeText
  {
  }

  /** After any post, the log line throws `code.slice is not a function`
      exactly when the code is neither a string nor an array, and the
      conversion error exactly when it is one of those and the name or the
      message cannot be coerced; otherwise it throws nothing. */
  lemma PostLogFailure(f: Frame)
    requires Decide(f).Post?
    ensures var a := Decide(f);
      && (a.afterPost == Some(SliceError) <==> !f.code.Str? && !f.code.Arr?)
      && (a.afterPost == Some(ConversionError) <==>
            (f.code.Str? || f.code.Arr?) && (ToText(f.name).None? || ToText(f.message).None?))
      && (a.afterPost.None? <==>
            (f.code.Str? || f.code.Arr?) && ToText(f.name).Some? && ToText(f.message).Some?)
  {
  }

  /** A truthy numeric code is stored with its decimal text as digest input,
      and only then does the log line throw, as an unexpected error: the
      sender sees its post and an error reply. */
  lemma NumericCodePostedThenRejected(name: Value, n: int, message: Value)
    requires Truthy(name) && n != 0 && Truthy(message)
    ensures Decide(Fields(name, Num(n), message)) == Post(name, Decimal(n), message, Some(SliceError))
    ensures !IsSoft(SliceError)
  {
  }

  // ----- history -----

  /** `push` followed by `shift` when the length goes past the bound. */
  function Pushed(log: seq<Message>, m: Message): (r: seq<Message>)
    ensures |log| < HistoryLength ==> r == log + [m]
    ensures |log| >= HistoryLength ==> r == log[1..] + [m]
  {
    var pushed := log + [m];
    if |pushed| > HistoryLength then pushed[1..] else pushed
  }

  /** The log after a series of adds, in order. */
  function PushedAll(log: seq<Message>, ms: seq<Message>): seq<Message>
    decreases |ms|
  {
    if ms == [] then log else PushedAll(Pushed(log, ms[0]), ms[1..])
  }

  /** How many of the oldest entries of `log + ms` have been evicted. */
  function Evicted(log: seq<Message>, ms: seq<Message>): nat {
    if |log| + |ms| <= HistoryLength then 0 else |log| + |ms| - HistoryLength
  }

  /** Over any series of adds to a log within bounds, the log stays within
      bounds and is exactly the newest entries of everything added: the
      oldest entries are the ones evicted, and the order is kept. */
  lemma {:induction false} FifoHistory(log: seq<Message>, ms: seq<Message>)
    requires |log| <= HistoryLength
    ensures Evicted(log, ms) <= |log| + |ms|
    ensures PushedAll(log, ms) == (log + ms)[Evicted(log, ms)..]
    ensures |PushedAll(log, ms)| <= HistoryLength
    decreases |ms|
  {
    if ms != [] {
      var next := Pushed(log, ms[0]);
      FifoHistory(next, ms[1..]);
      assert log + ms == (log + [ms[0]]) + ms[1..];
      if |log| < HistoryLength {
        assert next + ms[1..] == log + ms;
      } else {
        assert next + ms[1..] == (log + ms)[1..];
      }
    }
  }

  // ----- replay window -----

  /** A message is within the replay window at time `now`. */
  predicate Recent(m: Message, now: int)
    ensures Recent(m, now) <==> now < m.time + 172_800_000
  {
    now - m.time < AllowedTimeInMs
  }

  /** `findIndex` of the first recent message: -1 when there is none. */
  function FindRecent(log: seq<Message>, now: int): (i: int)
    ensures -1 <= i < |log|
    ensures i == -1 <==> forall k :: 0 <= k < |log| ==> !Recent(log[k], now)
    ensures i >= 0 ==> Recent(log[i], now)
    ensures forall k :: 0 <= k < |log| && (i == -1 || k < i) ==> !Recent(log[k], now)
    decreases |log|
  {
    if log == [] then -1
    else if Recent(log[0], now) then 0
    else
      var j := FindRecent(log[1..], now);
      if j == -1 then -1 else j + 1
  }

  /** Where the replay starts: the index found, with "not found" mapped to
      past the end (the source maps it to `Infinity`, so `slice` is empty). */
  function ReplayStart(log: seq<Message>, now: int): (start: nat)
    ensures start <= |log|
    ensures FindRecent(log, now) == -1 ==> start == |log|
    ensures FindRecent(log, now) >= 0 ==> start == FindRecent(log, now)
  {
    var i := FindRecent(log, now);
    if i == -1 then |log| else i
  }

  /** The messages a new connection is sent: `slice` from the replay start. */
  function Replay(log: seq<Message>, now: int): (r: seq<Message>)
    ensures |r| <= |log| && r == log[|log| - |r|..]
    ensures FindRecent(log, now) == -1 ==> r == []
  {
    log[ReplayStart(log, now)..]
  }

  /** The replay is a suffix of the log that is empty exactly when nothing is
      recent, begins with a recent message otherwise, and leaves out no
      recent message. */
  lemma ReplayShape(log: seq<Message>, now: int)
    ensures var r := Replay(log, now);
      && r == log[|log| - |r|..]
      && (r == [] <==> forall k :: 0 <= k < |log| ==> !Recent(log[k], now))
      && (r != [] ==> Recent(r[0], now))
      && (forall k :: 0 <= k < |log| - |r| ==> !Recent(log[k], now))
  {
  }

  /** The messages of the log that are within the window, in log order. */
  function Window(log: seq<Message>, now: int): (w: seq<Message>)
    ensures forall m :: m in w <==> m in log && Recent(m, now)
    decreases |log|
  {
    if log == [] then []
    else
      var rest := Window(log[1..], now);
      assert forall m :: m in log <==> m == log[0] || m in log[1..];
      if Recent(log[0], now) then [log[0]] + rest else rest
  }

  /** Timestamps never decrease along the log. */
  predicate Chronological(log: seq<Message>) {
    forall i, j :: 0 <= i < j < |log| ==> log[i].time <= log[j].time
  }

  /** Adding a message stamped no earlier than every message in the log keeps
      the log chronological, so with a clock that does not go back the replay
      is exactly the window (see `ReplayIsWindow`). */
  lemma PushedKeepsChronological(log: seq<Message>, m: Message)
    requires Chronological(log)
    requires forall k :: 0 <= k < |log| ==> log[k].time <= m.time
    ensures Chronological(Pushed(log, m))
  {
  }

  /** A window of a log all of whose messages are recent is the whole log. */
  lemma {:induction false} WindowOfRecent(log: seq<Message>, now: int)
    requires forall k :: 0 <= k < |log| ==> Recent(log[k], now)
    ensures Window(log, now) == log
    decreases |log|
  {
    if log != [] {
      WindowOfRecent(log[1..], now);
    }
  }

  /** When timestamps never decrease, the replay is exactly the messages
      within the window. */
  lemma {:induction false} ReplayIsWindow(log: seq<Message>, now: int)
    requires Chronological(log)
    ensures Replay(log, now) == Window(log, now)
    decreases |log|
  {
    if log == [] {
    } else if Recent(log[0], now) {
      assert forall k :: 0 <= k < |log| ==> log[0].time <= log[k].time;
      WindowOfRecent(log, now);
    } else {
      ReplayIsWindow(log[1..], now);
      var j := FindRecent(log[1..], now);
      if j != -1 {
        assert log[j + 1..] == log[1..][j..];
      }
    }
  }

  /** The frames that send the messages of `ms`, one by one, in order. */
  function MessageFrames(ms: seq<Message>): (frames: seq<OutFrame>)
    ensures |frames| == |ms|
    ensures forall i :: 0 <= i < |ms| ==> frames[i] == MessageFrame(ms[i])
  {
    seq(|ms|, i requires 0 <= i < |ms| => MessageFrame(ms[i]))
  }

  // ----- delivery -----

  /** Every outbox in `targets` receives `frame` once; the others are left as
      they were. */
  function Delivered(outbox: map<ConnId, seq<OutFrame>>, targets: set<ConnId>, frame: OutFrame)
    : (r: map<ConnId, seq<OutFrame>>)
    ensures r.Keys == outbox.Keys
    ensures forall c :: c in outbox && c in targets ==> r[c] == outbox[c] + [frame]
    ensures forall c :: c in outbox && c !in targets ==> r[c] == outbox[c]
  {
    map c | c in outbox :: if c in targets then outbox[c] + [frame] else outbox[c]
  }

  /** The outboxes after the sender is sent the reply for `thrown`, if any. */
  function Replied(outbox: map<ConnId, seq<OutFrame>>, to: ConnId, thrown: Option<string>)
    : (r: map<ConnId, seq<OutFrame>>)
    requires to in outbox
    ensures r.Keys == outbox.Keys
    ensures forall c :: c in outbox && c != to ==> r[c] == outbox[c]
    ensures thrown.None? ==> r[to] == outbox[to]
    ensures thrown.Some? ==> r[to] == outbox[to] + [ErrorFrame(ErrorReply(thrown.value))]
  {
    match thrown
    case None => outbox
    case Some(t) => outbox[to := outbox[to] + [ErrorFrame(ErrorReply(t))]]
  }
}
