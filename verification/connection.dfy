/**
 * The connection handler of vsg-core (`handle_connection`) and the listener thread that runs it
 * for one accepted connection after another. A connection carries length-prefixed Protocol
 * Buffers messages; every message with a command becomes one `Command` in the bucket and is
 * acknowledged with `{"type": "success"}`.
 */
module Connection {
  import opened Common
  import opened Messages
  import opened Wire
  import opened Mailbox

  /** Why the handler panicked while holding the bucket's lock. */
  datatype Panic =
    /** `shape.shape.unwrap()` on a `Shape` message whose oneof is unset. */
    | MissingShape
    /** `color.color[i]` for `i` in `0..4` on a `BgColor` with only `length` floats. */
    | ShortColor(length: nat)

  /** The error `handle_connection` returns through `?`. */
  datatype Failure =
    /** `read_exact` of the 4-byte length hit the end of the stream. */
    | ShortHeader
    /** `read_exact` of the payload hit the end of the stream. */
    | ShortPayload
    /** The payload is not a valid `RootMessage`. */
    | Malformed

  /** How a connection ends. */
  datatype Outcome =
    /** A message without a command: the loop breaks and `Ok(())` is returned. */
    | Finished
    /** An error is returned; the listener logs it and accepts the next connection. */
    | Failed(failure: Failure)
    /** The listener thread panics and the bucket is poisoned. */
    | Panicked(panic: Panic)

  /**
   * The command pushed for a decoded message's command, or the panic raised instead. A shape
   * message must carry a shape and a colour message at least four floats, of which the first
   * four are used in order; texture messages always succeed.
   */
  function CommandOf(c: WireCommand): (r: Result<Command, Panic>)
    ensures r.Err? <==> (c.SetShape? && c.shape.shape.None?) || (c.SetBgColor? && |c.bgColor.color| < 4)
    ensures r.Ok? ==> (r.value.Draw? <==> c.SetShape?) && (r.value.Clear? <==> c.SetBgColor?)
    ensures r.Ok? ==> WireOf(r.value) == if c.SetBgColor? then SetBgColor(BgColorMsg(c.bgColor.color[..4])) else c
  {
    match c
    case SetShape(ShapeMsg(shape)) =>
      if shape.None? then Err(MissingShape) else Ok(Draw(shape.value))
    case SetBgColor(BgColorMsg(color)) =>
      if |color| < 4 then Err(ShortColor(|color|))
      else
        assert color[..4] == [color[0], color[1], color[2], color[3]];
        Ok(Clear(Rgba(color[0], color[1], color[2], color[3])))
    case SetTexture(TextureMsg(index, data)) =>
      Ok(Texture(index, data))
  }

  /** The message a client sends to have `cmd` pushed. */
  function WireOf(cmd: Command): WireCommand
  {
    match cmd
    case Draw(shape) => SetShape(ShapeMsg(Some(shape)))
    case Clear(color) => SetBgColor(BgColorMsg([color.r, color.g, color.b, color.a]))
    case Texture(index, data) => SetTexture(TextureMsg(index, data))
  }

  /** Every command can be sent: the message for it is turned back into exactly that command. */
  lemma CommandOfWireOf(cmd: Command)
    ensures CommandOf(WireOf(cmd)) == Ok(cmd)
  {
  }

  /** What one connection leads to: the commands pushed, the bytes written back, how it ends. */
  datatype Session = Session(pushed: seq<Command>, reply: seq<byte>, outcome: Outcome)

  /** `s` preceded by the commands `pushed` and the reply bytes `reply`. */
  function Then(pushed: seq<Command>, reply: seq<byte>, s: Session): Session
  {
    Session(pushed + s.pushed, reply + s.reply, s.outcome)
  }

  /** A frame on the wire: the payload's length as a big-endian `u32`, then the payload. */
  function Frame(payload: seq<byte>): (f: seq<byte>)
    requires |payload| < U32_LIMIT
    ensures |f| == 4 + |payload|
  {
    ToBeBytes(|payload|) + payload
  }

  /** The first frame of a byte stream, or the error of the `read_exact` that runs out of bytes. */
  datatype Read = Short(failure: Failure) | Framed(payload: seq<byte>, rest: seq<byte>)

  /**
   * The two `read_exact` calls of one turn of the loop: the 4-byte length, then that many bytes.
   * When both succeed, the input is exactly that frame followed by the bytes left unread.
   */
  function ReadFrame(input: seq<byte>): (r: Read)
    ensures r.Short? <==> |input| < 4 || |input| - 4 < BeU32(input[..4])
    ensures r.Short? ==> (r.failure == ShortHeader <==> |input| < 4) && !r.failure.Malformed?
    ensures r.Framed? ==> |r.payload| < U32_LIMIT && input == Frame(r.payload) + r.rest
  {
    if |input| < 4 then Short(ShortHeader)
    else
      var len := BeU32(input[..4]);
      if |input| - 4 < len then Short(ShortPayload)
      else
        EncodeDecode(input[..4]);
        assert input == input[..4] + input[4..4 + len] + input[4 + len..];
        Framed(input[4..4 + len], input[4 + len..])
  }

  /** Reading a frame back gives exactly the payload it was made from, and the bytes after it. */
  lemma ReadFrameOfFrame(payload: seq<byte>, rest: seq<byte>)
    requires |payload| < U32_LIMIT
    ensures ReadFrame(Frame(payload) + rest) == Framed(payload, rest)
  {
    var input := Frame(payload) + rest;
    assert input[..4] == ToBeBytes(|payload|);
    DecodeEncode(|payload|);
    assert input[4..4 + |payload|] == payload && input[4 + |payload|..] == rest;
  }

  /**
   * The handler's behaviour on the bytes `input` the peer sends: frames are handled in order,
   * each one pushing its command and earning an acknowledgement, until a frame is incomplete,
   * does not decode, has no command, or makes the handler panic.
   */
  function Serve(decode: seq<byte> -> Option<RootMessage>, input: seq<byte>): Session
    decreases |input|
  {
    match ReadFrame(input)
    case Short(failure) => Session([], [], Failed(failure))
    case Framed(payload, rest) =>
      match decode(payload)
      case None => Session([], [], Failed(Malformed))
      case Some(msg) =>
        match msg.command
        case None => Session([], [], Finished)
        case Some(wc) =>
          match CommandOf(wc)
          case Err(p) => Session([], [], Panicked(p))
          case Ok(cmd) => Then([cmd], Reply(), Serve(decode, rest))
  }

  /** `n` acknowledgements back to back. */
  function Replies(n: nat): (r: seq<byte>)
    ensures |r| == 23 * n
  {
    ReplyLayout();
    if n == 0 then [] else Reply() + Replies(n - 1)
  }

  /** Exactly one acknowledgement is written per pushed command, and nothing else. */
  lemma {:induction false} ServeRepliesOncePerCommand(decode: seq<byte> -> Option<RootMessage>, input: seq<byte>)
    ensures Serve(decode, input).reply == Replies(|Serve(decode, input).pushed|)
    decreases |input|
  {
    var read := ReadFrame(input);
    if read.Framed? && decode(read.payload).Some? {
      var msg := decode(read.payload).value;
      if msg.command.Some? && CommandOf(msg.command.value).Ok? {
        ServeRepliesOncePerCommand(decode, read.rest);
      }
    }
  }

  /** Concatenated frames. */
  function Frames(payloads: seq<seq<byte>>): seq<byte>
    requires forall i | 0 <= i < |payloads| :: |payloads[i]| < U32_LIMIT
  {
    if payloads == [] then [] else Frame(payloads[0]) + Frames(payloads[1..])
  }

  /**
   * A client that sends one frame per command and then closes gets every command pushed, in
   * order, one acknowledgement per command, and the connection ends with the short-header error
   * of `read_exact` meeting the end of the stream (there is no clean close).
   */
  lemma {:induction false} ServeFrames(decode: seq<byte> -> Option<RootMessage>, payloads: seq<seq<byte>>, commands: seq<Command>)
    requires |payloads| == |commands|
    requires forall i | 0 <= i < |payloads| :: |payloads[i]| < U32_LIMIT
    requires forall i | 0 <= i < |payloads| :: decode(payloads[i]) == Some(RootMessage(Some(WireOf(commands[i]))))
    ensures Serve(decode, Frames(payloads)) == Session(commands, Replies(|commands|), Failed(ShortHeader))
    decreases |payloads|
  {
    if payloads != [] {
      var rest := Frames(payloads[1..]);
      ReadFrameOfFrame(payloads[0], rest);
      CommandOfWireOf(commands[0]);
      ServeFrames(decode, payloads[1..], commands[1..]);
      assert [commands[0]] + commands[1..] == commands;
    }
  }

  /** A frame whose message has no command ends the connection cleanly: nothing pushed, nothing written, the rest unread. */
  lemma NoCommandFinishes(decode: seq<byte> -> Option<RootMessage>, payload: seq<byte>, rest: seq<byte>)
    requires |payload| < U32_LIMIT && decode(payload) == Some(RootMessage(None))
    ensures Serve(decode, Frame(payload) + rest) == Session([], [], Finished)
  {
    ReadFrameOfFrame(payload, rest);
  }

  /** A frame that does not decode ends the connection with an error: nothing pushed, nothing written. */
  lemma MalformedFails(decode: seq<byte> -> Option<RootMessage>, payload: seq<byte>, rest: seq<byte>)
    requires |payload| < U32_LIMIT && decode(payload) == None
    ensures Serve(decode, Frame(payload) + rest) == Session([], [], Failed(Malformed))
  {
    ReadFrameOfFrame(payload, rest);
  }

  /**
   * A frame whose command makes the handler panic pushes nothing and writes nothing; the
   * panic is the connection's outcome.
   */
  lemma PanicStops(decode: seq<byte> -> Option<RootMessage>, payload: seq<byte>, rest: seq<byte>, c: WireCommand)
    requires |payload| < U32_LIMIT && decode(payload) == Some(RootMessage(Some(c))) && CommandOf(c).Err?
    ensures Serve(decode, Frame(payload) + rest) == Session([], [], Panicked(CommandOf(c).error))
  {
    ReadFrameOfFrame(payload, rest);
  }

  /**
   * The reads of one turn of `handle_connection`: the 4-byte length, the buffer grown to that
   * length when it is shorter (it never shrinks), and the payload read into the buffer's front.
   */
  method ReceiveFrame(stream: Stream, buffer: seq<byte>) returns (failure: Option<Failure>, len: nat, grown: seq<byte>)
    requires stream.Valid()
    modifies stream
    ensures stream.Valid() && stream.output == old(stream.output)
    ensures failure == Some(ShortHeader) ==> grown == buffer
    ensures failure != Some(ShortHeader) ==> |grown| == if len > |buffer| then len else |buffer|
    ensures failure.None? && len <= |buffer| ==> grown[len..] == buffer[len..]
    ensures failure.Some? ==> ReadFrame(old(stream.Unread())) == Short(failure.value)
    ensures failure.None? ==> len <= |grown| && ReadFrame(old(stream.Unread())) == Framed(grown[..len], stream.Unread())
  {
    ghost var unread := stream.Unread();
    grown := buffer;
    var header := stream.ReadExact(4);
    if header.None? {
      return Some(ShortHeader), 0, grown;
    }
    assert header.value == unread[..4];
    len := BeU32(header.value);
    if len > |grown| {
      grown := grown + seq(len - |grown|, _ => 0);
    }
    var payload := stream.ReadExact(len);
    if payload.None? {
      return Some(ShortPayload), len, grown;
    }
    assert payload.value == unread[4..4 + len];
    assert stream.Unread() == unread[4 + len..];
    grown := payload.value + grown[len..];
    assert grown[..len] == payload.value;
    failure := None;
  }

  /**
   * One turn of `handle_connection`'s loop: read a frame, decode it, push its command and
   * acknowledge it. `Ok` carries the pushed command and the loop goes on; `Err` carries how
   * the connection ends, with nothing pushed or written on the way.
   */
  method Turn(stream: Stream, bucket: Bucket, decode: seq<byte> -> Option<RootMessage>, buffer: seq<byte>)
    returns (step: Result<Command, Outcome>, grown: seq<byte>)
    requires stream.Valid() && !bucket.poisoned
    modifies stream, bucket
    ensures stream.Valid() && |grown| >= |buffer|
    ensures step.Err? ==> && Serve(decode, old(stream.Unread())) == Session([], [], step.error)
                          && bucket.commands == old(bucket.commands) && stream.output == old(stream.output)
                          && (bucket.poisoned <==> step.error.Panicked?)
    ensures step.Ok? ==> && Serve(decode, old(stream.Unread())) == Then([step.value], Reply(), Serve(decode, stream.Unread()))
                         && bucket.commands == old(bucket.commands) + [step.value]
                         && stream.output == old(stream.output) + Reply()
                         && !bucket.poisoned && |stream.Unread()| < |old(stream.Unread())|
  {
    var failure, len;
    failure, len, grown := ReceiveFrame(stream, buffer);
    if failure.Some? {
      return Err(Failed(failure.value)), grown;
    }
    var msg := decode(grown[..len]);
    if msg.None? {
      return Err(Failed(Malformed)), grown;
    }
    if msg.value.command.None? {
      return Err(Finished), grown;
    }
    var pushed := Push(msg.value.command.value, bucket);
    if pushed.Err? {
      return Err(Panicked(pushed.error)), grown;
    }
    stream.Write(ToBeBytes(|SUCCESS|));
    stream.Write(SUCCESS);
    step := Ok(pushed.value);
  }

  /**
   * `handle_connection`: the loop of the source over a real stream and the shared bucket. It
   * pushes and writes what `Serve` says for the bytes still unread, and poisons the bucket
   * exactly when it panics. The payload buffer starts at 1024 bytes and never shrinks.
   */
  method HandleConnection(stream: Stream, bucket: Bucket, decode: seq<byte> -> Option<RootMessage>)
    returns (outcome: Outcome)
    requires stream.Valid() && !bucket.poisoned
    modifies stream, bucket
    ensures stream.Valid()
    ensures var s := Serve(decode, old(stream.Unread()));
            && outcome == s.outcome
            && bucket.commands == old(bucket.commands) + s.pushed
            && stream.output == old(stream.output) + s.reply
    ensures bucket.poisoned <==> outcome.Panicked?
  {
    ghost var start := stream.Unread();
    ghost var pushed: seq<Command> := [];
    ghost var replied: seq<byte> := [];
    var buffer: seq<byte> := seq(1024, _ => 0);
    while true
      invariant stream.Valid() && !bucket.poisoned
      invariant |buffer| >= 1024
      invariant bucket.commands == old(bucket.commands) + pushed
      invariant stream.output == old(stream.output) + replied
      invariant Serve(decode, start) == Then(pushed, replied, Serve(decode, stream.Unread()))
      decreases |stream.Unread()|
    {
      var step;
      step, buffer := Turn(stream, bucket, decode, buffer);
      if step.Err? {
        ThenEmpty(pushed, replied, step.error);
        return step.error;
      }
      ThenThen(pushed, replied, [step.value], Reply(), Serve(decode, stream.Unread()));
      AppendAssociative(old(bucket.commands), pushed, [step.value]);
      AppendAssociative(old(stream.output), replied, Reply());
      pushed, replied := pushed + [step.value], replied + Reply();
    }
  }

  /**
   * The `match msg.command` arms that push: each locks the bucket and pushes the command for
   * the message, or panics while holding the lock, which poisons it.
   */
  method Push(c: WireCommand, bucket: Bucket) returns (r: Result<Command, Panic>)
    requires !bucket.poisoned
    modifies bucket
    ensures r == CommandOf(c)
    ensures r.Ok? ==> bucket.commands == old(bucket.commands) + [r.value] && !bucket.poisoned
    ensures r.Err? ==> bucket.commands == old(bucket.commands) && bucket.poisoned
  {
    match c {
      case SetShape(shape) =>
        if shape.shape.None? {
          bucket.Poison();
          return Err(MissingShape);
        }
        bucket.Push(Draw(shape.shape.value));
        r := Ok(Draw(shape.shape.value));
      case SetBgColor(color) =>
        if |color.color| < 4 {
          bucket.Poison();
          return Err(ShortColor(|color.color|));
        }
        var rgba := Rgba(color.color[0], color.color[1], color.color[2], color.color[3]);
        bucket.Push(Clear(rgba));
        r := Ok(Clear(rgba));
      case SetTexture(texture) =>
        bucket.Push(Texture(texture.index, texture.data));
        r := Ok(Texture(texture.index, texture.data));
    }
  }

  /** A session that ends at once, after what was already done. */
  lemma ThenEmpty(pushed: seq<Command>, replied: seq<byte>, outcome: Outcome)
    ensures Then(pushed, replied, Session([], [], outcome)) == Session(pushed, replied, outcome)
  {
    assert pushed + [] == pushed && replied + [] == replied;
  }

  /** Prefixing twice is prefixing once with both. */
  lemma ThenThen(p1: seq<Command>, r1: seq<byte>, p2: seq<Command>, r2: seq<byte>, s: Session)
    ensures Then(p1, r1, Then(p2, r2, s)) == Then(p1 + p2, r1 + r2, s)
  {
    assert p1 + (p2 + s.pushed) == (p1 + p2) + s.pushed;
    assert r1 + (r2 + s.reply) == (r1 + r2) + s.reply;
  }

  /**
   * The listener thread: accepted connections are handled one at a time, in order. An error
   * ends only its own connection; a panic ends the thread, so later connections are not served.
   */
  function ServeAll(decode: seq<byte> -> Option<RootMessage>, connections: seq<seq<byte>>): seq<Session>
  {
    if connections == [] then []
    else
      var s := Serve(decode, connections[0]);
      if s.outcome.Panicked? then [s] else [s] + ServeAll(decode, connections[1..])
  }

  /** Every command the sessions pushed, in order. */
  function AllPushed(sessions: seq<Session>): seq<Command>
  {
    if sessions == [] then [] else AllPushed(sessions[..|sessions| - 1]) + sessions[|sessions| - 1].pushed
  }

  /**
   * The `i`-th session is the handling of the `i`-th connection; the listener stops early
   * only right after a connection whose handler panicked, and otherwise serves them all.
   */
  lemma {:induction false} ServeAllInOrder(decode: seq<byte> -> Option<RootMessage>, connections: seq<seq<byte>>)
    ensures var all := ServeAll(decode, connections);
            && |all| <= |connections|
            && (forall i {:trigger Serve(decode, connections[i])} | 0 <= i < |all| :: all[i] == Serve(decode, connections[i]))
            && (forall i | 0 <= i < |all| - 1 :: !all[i].outcome.Panicked?)
            && (|all| < |connections| ==> |all| > 0 && all[|all| - 1].outcome.Panicked?)
            && (connections != [] ==> |all| > 0)
  {
    if connections != [] && !Serve(decode, connections[0]).outcome.Panicked? {
      var rest := ServeAll(decode, connections[1..]);
      ServeAllInOrder(decode, connections[1..]);
      var all := ServeAll(decode, connections);
      assert all == [Serve(decode, connections[0])] + rest;
      forall i | 1 <= i < |all|
        ensures all[i] == Serve(decode, connections[i])
      {
        assert all[i] == rest[i - 1];
        assert connections[1..][i - 1] == connections[i];
      }
    }
  }

  /** The listener from the `i`-th connection on: that connection, then the rest unless it panicked. */
  lemma ServeAllFrom(decode: seq<byte> -> Option<RootMessage>, connections: seq<seq<byte>>, i: nat)
    requires i < |connections|
    ensures var s := Serve(decode, connections[i]);
            ServeAll(decode, connections[i..]) == if s.outcome.Panicked? then [s] else [s] + ServeAll(decode, connections[i + 1..])
  {
    assert connections[i..][0] == connections[i] && connections[i..][1..] == connections[i + 1..];
  }

  lemma AllPushedAppend(done: seq<Session>, s: Session)
    ensures AllPushed(done + [s]) == AllPushed(done) + s.pushed
  {
    assert (done + [s])[..|done|] == done;
  }

  /**
   * One accepted connection: a fresh stream over the bytes the peer sends, handled to its end.
   * The result records what the handler pushed, what it wrote back, and how it ended.
   */
  method Accept(input: seq<byte>, bucket: Bucket, decode: seq<byte> -> Option<RootMessage>)
    returns (session: Session)
    requires !bucket.poisoned
    modifies bucket
    ensures session == Serve(decode, input)
    ensures bucket.commands == old(bucket.commands) + session.pushed
    ensures bucket.poisoned <==> session.outcome.Panicked?
  {
    var before := bucket.commands;
    var stream := new Stream(input);
    assert stream.Unread() == input;
    var outcome := HandleConnection(stream, bucket, decode);
    session := Session(bucket.commands[|before|..], stream.output, outcome);
    assert bucket.commands[|before|..] == Serve(decode, input).pushed;
  }

  /**
   * The listener loop of vsg-core's `main` over the connections it accepts: each is handled
   * with a fresh stream and recorded, and the loop ends when a handler panics.
   */
  method Listen(connections: seq<seq<byte>>, bucket: Bucket, decode: seq<byte> -> Option<RootMessage>)
    returns (served: seq<Session>)
    requires !bucket.poisoned
    modifies bucket
    ensures served == ServeAll(decode, connections)
    ensures bucket.commands == old(bucket.commands) + AllPushed(served)
    ensures bucket.poisoned <==> served != [] && served[|served| - 1].outcome.Panicked?
  {
    ghost var all := ServeAll(decode, connections);
    served := [];
    var i := 0;
    while i < |connections|
      invariant i <= |connections| && !bucket.poisoned
      invariant served + ServeAll(decode, connections[i..]) == all
      invariant served != [] ==> !served[|served| - 1].outcome.Panicked?
      invariant bucket.commands == old(bucket.commands) + AllPushed(served)
    {
      ServeAllFrom(decode, connections, i);
      var session := Accept(connections[i], bucket, decode);
      AllPushedAppend(served, session);
      AppendAssociative(old(bucket.commands), AllPushed(served), session.pushed);
      served := served + [session];
      if session.outcome.Panicked? {
        return;
      }
      AppendAssociative(served[..|served| - 1], [session], ServeAll(decode, connections[i + 1..]));
      i := i + 1;
    }
    assert served + [] == served;
  }
}
