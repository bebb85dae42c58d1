/** The stateful part of the chat relay: the module-level message log and
    connection set, and the handlers that the WebSocket server calls one at a
    time (`connection`, `message`, `close`). */
module Relay {
  import opened Wrappers
  import opened JsValues
  import opened Protocol

  class ChatRelay {
    /** The SHA-256 hex digest of a UTF-8 string, left uninterpreted. */
    const digest: string -> string

    /** The history, oldest first. */
    var messages: seq<Message>
    /** The connections currently registered. */
    var connections: set<ConnId>
    /** Every frame sent so far on each connection ever opened, in order. */
    var outbox: map<ConnId, seq<OutFrame>>
    /** The messages of the errors written to the server's error log. */
    var errorLog: seq<string>
    /** How many times a write of the whole history to disk was started. */
    var saves: nat

    /** The history is within bounds and every registered connection has an
        outbox. */
    ghost predicate Valid()
      reads this
    {
      |messages| <= HistoryLength && connections <= outbox.Keys
    }

    /** The state at startup: no history, no connections. */
    constructor (digest: string -> string)
      ensures Valid()
      ensures this.digest == digest
      ensures messages == [] && connections == {} && outbox == map[]
      ensures errorLog == [] && saves == 0
    {
      this.digest := digest;
      messages := [];
      connections := {};
      outbox := map[];
      errorLog := [];
      saves := 0;
    }

    /** `ws.send(frame)`: the frame is appended to that connection's outbox. */
    method Send(c: ConnId, frame: OutFrame)
      requires c in outbox
      modifies this`outbox
      ensures outbox == old(outbox)[c := old(outbox)[c] + [frame]]
    {
      outbox := outbox[c := outbox[c] + [frame]];
    }

    /** `connections.forEach((c) => c.send(frame))`: every registered
        connection is sent the frame once; no other outbox changes. */
    method Broadcast(frame: OutFrame)
      requires Valid()
      modifies this`outbox
      ensures Valid()
      ensures outbox == Delivered(old(outbox), connections, frame)
    {
      var pending := connections;
      var sent: set<ConnId> := {};
      while pending != {}
        invariant pending + sent == connections && pending !! sent
        invariant outbox == Delivered(old(outbox), sent, frame)
        modifies this`outbox
        decreases pending
      {
        var c :| c in pending;
        Send(c, frame);
        pending := pending - {c};
        sent := sent + {c};
      }
    }

    /** `addMessage(name, code, message)` at time `now`. Coercing the code for
        its digest may throw, in which case nothing changes. Otherwise the new
        record is pushed (evicting the oldest when the log is full), sent to
        every registered connection, and a save is started. */
    method AddMessage(name: Value, code: Value, message: Value, now: int)
      returns (thrown: Option<string>)
      requires Valid()
      modifies this`messages, this`outbox, this`saves
      ensures Valid()
      ensures thrown.None? <==> ToText(code).Some?
      ensures thrown.Some? ==>
        thrown == Some(ConversionError) && messages == old(messages)
        && outbox == old(outbox) && saves == old(saves)
      ensures thrown.None? ==>
        var m := Message(name, digest(Salt + ToText(code).value), message, now);
        && messages == Pushed(old(messages), m)
        && outbox == Delivered(old(outbox), connections, MessageFrame(m))
        && saves == old(saves) + 1
    {
      var text := ToText(code);
      if text.None? {
        return Some(ConversionError);
      }
      var m := Message(name, digest(Salt + text.value), message, now);
      messages := messages + [m];
      if |messages| > HistoryLength {
        messages := messages[1..];
      }
      Broadcast(MessageFrame(m));
      saves := saves + 1;
      thrown := None;
    }

    /** The `connection` handler: register the new connection `c`, then send
        it the history from the first message within 48 hours of `now`, one
        message per frame, in log order. */
    method Connect(c: ConnId, now: int)
      requires Valid()
      requires c !in outbox
      modifies this`connections, this`outbox
      ensures Valid()
      ensures connections == old(connections) + {c}
      ensures outbox == old(outbox)[c := MessageFrames(Replay(messages, now))]
    {
      connections := connections + {c};
      outbox := outbox[c := []];
      var index := FindRecent(messages, now);
      var start := if index == -1 then |messages| else index;
      var replay := messages[start..];
      var k := 0;
      while k < |replay|
        invariant 0 <= k <= |replay|
        invariant outbox == old(outbox)[c := MessageFrames(replay[..k])]
        modifies this`outbox
      {
        Send(c, MessageFrame(replay[k]));
        assert MessageFrames(replay[..k + 1]) == MessageFrames(replay[..k]) + [MessageFrame(replay[k])];
        k := k + 1;
      }
      assert replay[..k] == replay;
    }

    /** The `close` handler: `c` leaves the connection set; nothing else
        changes. */
    method Close(c: ConnId)
      requires Valid()
      modifies this`connections
      ensures Valid()
      ensures connections == old(connections) - {c}
    {
      connections := connections - {c};
    }

    /** The `message` handler for a frame from connection `from`, at time
        `now`. A heartbeat changes nothing. A failure changes nothing but one
        error reply to the sender (and the error log when the failure is not a
        soft one). A post is stored and sent to every connection; if logging
        it then throws, the sender also gets that error. */
    method Receive(from: ConnId, f: Frame, now: int)
      requires Valid()
      requires from in connections
      modifies this`messages, this`outbox, this`saves, this`errorLog
      ensures Valid()
      ensures match Decide(f)
        case Ignore =>
          && messages == old(messages) && outbox == old(outbox)
          && errorLog == old(errorLog) && saves == old(saves)
        case Fail(thrown) =>
          && messages == old(messages) && saves == old(saves)
          && outbox == old(outbox)[from := old(outbox)[from] + [ErrorFrame(ErrorReply(thrown))]]
          && errorLog == old(errorLog) + Logged(thrown)
        case Post(name, codeText, message, afterPost) =>
          var m := Message(name, digest(Salt + codeText), message, now);
          && messages == Pushed(old(messages), m)
          && saves == old(saves) + 1
          && outbox == Replied(Delivered(old(outbox), connections, MessageFrame(m)), from, afterPost)
          && errorLog == old(errorLog) + (if afterPost.Some? then Logged(afterPost.value) else [])
    {
      if f.Heartbeat? {
        return;
      }
      var thrown: Option<string>;
      if f.Malformed? {
        thrown := Some(f.error);
      } else {
        var missing := Validate(f.name, f.code, f.message);
        if missing.Some? {
          thrown := Some(SoftError(missing.value));
        } else {
          thrown := AddMessage(f.name, f.code, f.message, now);
          if thrown.None? {
            thrown := PrintFailure(f.name, f.code, f.message);
          }
        }
      }
      if thrown.Some? {
        if !IsSoft(thrown.value) {
          errorLog := errorLog + [thrown.value];
        }
        Send(from, ErrorFrame(ErrorReply(thrown.value)));
      }
    }
  }
}
