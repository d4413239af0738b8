/**
 * The client's control flow: the receive loop feeding the message channel, the
 * pairing handshake, the service-menu request and the main loop. The socket is a
 * log of frames sent, the channel a FIFO of messages, `client-key.txt` an abstract
 * store, and `json.Marshal`/`json.Unmarshal` are function parameters.
 */
module Program {
  import opened Wrappers
  import opened Text
  import opened Messages
  import opened Commands

  /** The marker in the register template that the stored key replaces. */
  const Placeholder := "CLIENTKEYGOESHERE"

  /** `websocket.CloseNormalClosure`. */
  const CloseNormalClosure := 1000

  /** The one command the client sends after pairing: the service-menu request with discriminator 0. */
  const ServiceMenuRequest := NewServiceMenuCommand(0)

  /** A frame written to the socket. */
  datatype Frame = TextFrame(data: string) | CloseFrame(code: int, reason: string)

  /** One result of `connection.ReadMessage`; `closed` tells a closed socket from other errors. */
  datatype ReadResult = FrameRead(data: string) | ReadError(closed: bool)

  /** The case the main loop's `select` takes. */
  datatype Event = MessageReady | Interrupt

  /** State of the client in `client-key.txt`. */
  datatype KeyFile = Absent | Unreadable | Stored(contents: string)

  /**
   * Where the process stands. `Stalled`: blocked forever on an empty channel;
   * `Exited(code)`: `os.Exit(code)`.
   */
  datatype Phase = Dialed | Registered | Running | Terminated | Stalled | Exited(code: int)

  /** What the receive loop enqueues for a frame: the decoded message, or an empty one. */
  function BestEffort(decode: string -> Option<ReceivedMessage>, frame: string): ReceivedMessage {
    match decode(frame)
    case Some(m) => m
    case None => EmptyMessage
  }

  /** The messages the receive loop enqueues for a sequence of read results. */
  function Received(results: seq<ReadResult>, decode: string -> Option<ReceivedMessage>): seq<ReceivedMessage>
    decreases |results|
  {
    if results == [] || results[0].ReadError? then []
    else [BestEffort(decode, results[0].data)] + Received(results[1..], decode)
  }

  /**
   * Exactly one message per frame read before the first error, in arrival order,
   * each the frame's best-effort decoding; nothing after the first error.
   */
  lemma {:induction false} ReceivedOnePerFrame(results: seq<ReadResult>, decode: string -> Option<ReceivedMessage>)
    ensures var r := Received(results, decode);
      |r| <= |results| &&
      (forall i :: 0 <= i < |r| ==> results[i].FrameRead? && r[i] == BestEffort(decode, results[i].data)) &&
      (|r| < |results| ==> results[|r|].ReadError?)
    decreases |results|
  {
    if results != [] && results[0].FrameRead? {
      ReceivedOnePerFrame(results[1..], decode);
      var r := Received(results, decode);
      forall i | 1 <= i < |r| ensures results[i].FrameRead? && r[i] == BestEffort(decode, results[i].data) {
        assert r[i] == Received(results[1..], decode)[i - 1];
        assert results[1..][i - 1] == results[i];
      }
    }
  }

  /** The events the main loop handles before the first interrupt. */
  function UntilInterrupt(events: seq<Event>): (r: seq<Event>)
    ensures r <= events
    ensures Interrupt !in r
    ensures |r| < |events| ==> events[|r|] == Interrupt
    decreases |events|
  {
    if events == [] || events[0] == Interrupt then []
    else [events[0]] + UntilInterrupt(events[1..])
  }

  /** The queue after `n` receives, each of which takes the head if there is one. */
  function Drop<T>(q: seq<T>, n: nat): seq<T> {
    if n >= |q| then [] else q[n..]
  }

  /** The key file after `saved` were written in turn: the last one if writes succeed. */
  function KeyFileAfter(f: KeyFile, writable: bool, saved: seq<string>): KeyFile {
    if saved != [] && writable then Stored(saved[|saved| - 1]) else f
  }

  /** The key `readClientKey` returns: a failed read means no key. */
  function StoredKey(f: KeyFile): Option<string> {
    match f
    case Stored(k) => Some(k)
    case _ => None
  }

  /** The register frame: the template with the stored key spliced in, if there is one. */
  function RegisterPayload(template: string, key: Option<string>): string {
    match key
    case Some(k) => ReplaceFirst(template, Placeholder, k)
    case None => template
  }

  /** The process's view of the socket, the message channel and the key file. */
  class Client {
    /** The `messages` channel, oldest first. */
    var queue: seq<ReceivedMessage>
    /** Every frame written to the socket, in order. */
    var sent: seq<Frame>
    var keyFile: KeyFile
    /** Whether `os.WriteFile` on the key file succeeds. */
    var keyWritable: bool
    /** The argument of every `saveClientKey` call, in order. */
    var saves: seq<string>
    var phase: Phase

    /** A freshly dialed connection with nothing sent or received. */
    constructor (keyFile: KeyFile, keyWritable: bool)
      ensures this.keyFile == keyFile && this.keyWritable == keyWritable
      ensures queue == [] && sent == [] && saves == [] && phase == Dialed
    {
      this.keyFile := keyFile;
      this.keyWritable := keyWritable;
      queue, sent, saves := [], [], [];
      phase := Dialed;
    }

    /** `readClientKey`: the stored key, or none when the file is missing or unreadable. */
    method ReadClientKey() returns (key: Option<string>)
      ensures key.Some? <==> keyFile.Stored?
      ensures key.Some? ==> key.value == keyFile.contents
    {
      key := StoredKey(keyFile);
    }

    /** `saveClientKey`: a failed write is only logged; the run goes on. */
    method SaveClientKey(key: string)
      modifies this`keyFile, this`saves
      ensures saves == old(saves) + [key]
      ensures keyFile == if keyWritable then Stored(key) else old(keyFile)
    {
      saves := saves + [key];
      if keyWritable {
        keyFile := Stored(key);
      }
    }

    /** `sendTextMessage`: write errors are ignored, so the frame is always logged. */
    method SendTextMessage(msg: string)
      modifies this`sent
      ensures sent == old(sent) + [TextFrame(msg)]
    {
      sent := sent + [TextFrame(msg)];
    }

    /** `messages <- m`. */
    method Put(m: ReceivedMessage)
      modifies this`queue
      ensures queue == old(queue) + [m]
    {
      queue := queue + [m];
    }

    /** `<-messages`: the oldest message, or none when a receive would block forever. */
    method Take() returns (m: Option<ReceivedMessage>)
      modifies this`queue
      ensures old(queue) == [] ==> m.None? && queue == []
      ensures old(queue) != [] ==> m == Some(old(queue)[0]) && queue == old(queue)[1..]
    {
      if queue == [] {
        m := None;
      } else {
        m := Some(queue[0]);
        queue := queue[1..];
      }
    }

    /**
     * `messageReceivedHandler`: one message per frame read, in order, whether or not
     * it decodes; the first read error ends the loop.
     */
    method MessageReceivedHandler(results: seq<ReadResult>, decode: string -> Option<ReceivedMessage>)
      modifies this`queue
      ensures queue == old(queue) + Received(results, decode)
    {
      var i := 0;
      while i < |results|
        invariant 0 <= i <= |results|
        invariant queue + Received(results[i..], decode) == old(queue) + Received(results, decode)
      {
        match results[i]
        case ReadError(closed) =>
          return;
        case FrameRead(msg) =>
          assert results[i..][1..] == results[i + 1..];
          var rm := BestEffort(decode, msg);
          Put(rm);
          i := i + 1;
      }
    }

    /**
     * The pairing handshake. With a stored key: send the template with the key in
     * place of the first placeholder and discard one reply. Without: send the
     * template as it is, discard one reply, decode the next reply's payload and
     * save its client key, or exit with status 1 when it does not decode.
     */
    method Handshake(template: string, decodeKey: string -> Option<PayloadRegisterKey>)
      requires phase == Dialed
      modifies this`queue, this`sent, this`keyFile, this`saves, this`phase
      ensures sent == old(sent) + [TextFrame(RegisterPayload(template, StoredKey(old(keyFile))))]
      ensures queue == Drop(old(queue), RepliesAwaited(StoredKey(old(keyFile))))
      ensures saves == old(saves) + KeySaved(StoredKey(old(keyFile)), old(queue), decodeKey)
      ensures keyFile == KeyFileAfter(old(keyFile), keyWritable, KeySaved(StoredKey(old(keyFile)), old(queue), decodeKey))
      ensures phase == HandshakePhase(StoredKey(old(keyFile)), old(queue), decodeKey)
    {
      var clientKey := ReadClientKey();
      if clientKey.Some? {
        var registerJson := ReplaceFirst(template, Placeholder, clientKey.value);
        SendTextMessage(registerJson);
        // The acknowledgement is not inspected.
        var ack := Take();
        phase := if ack.Some? then Registered else Stalled;
      } else {
        SendTextMessage(template);
        var first := Take();
        if first.None? {
          phase := Stalled;
          return;
        }
        var response := Take();
        if response.None? {
          phase := Stalled;
          return;
        }
        match decodeKey(response.value.payload)
        case None =>
          phase := Exited(1);
        case Some(payload) =>
          SaveClientKey(payload.clientKey);
          phase := Registered;
      }
    }

    /** Sends the service-menu request with discriminator 0, or exits if it cannot be encoded. */
    method RequestServiceMenu(encode: ServiceMenuCommand -> Option<string>)
      requires phase == Registered
      modifies this`sent, this`phase
      ensures encode(ServiceMenuRequest).None? ==> sent == old(sent) && phase == Exited(1)
      ensures encode(ServiceMenuRequest).Some? ==>
        sent == old(sent) + [TextFrame(encode(ServiceMenuRequest).value)] && phase == Running
    {
      var cmd := encode(ServiceMenuRequest);
      if cmd.None? {
        phase := Exited(1);
        return;
      }
      SendTextMessage(cmd.value);
      phase := Running;
    }

    /**
     * The main loop: received messages are taken and ignored; the first interrupt
     * sends one normal-closure frame and ends the loop.
     */
    method MainLoop(events: seq<Event>)
      requires phase == Running
      modifies this`queue, this`sent, this`phase
      ensures queue == Drop(old(queue), |UntilInterrupt(events)|)
      ensures Interrupt in events ==>
        sent == old(sent) + [CloseFrame(CloseNormalClosure, "")] && phase == Terminated
      ensures Interrupt !in events ==> sent == old(sent) && phase == Running
    {
      var i := 0;
      while i < |events|
        invariant 0 <= i <= |events|
        invariant forall k :: 0 <= k < i ==> events[k] == MessageReady
        invariant queue == Drop(old(queue), i)
        invariant sent == old(sent) && phase == Running
      {
        if events[i] == Interrupt {
          UntilInterruptAt(events, i);
          sent := sent + [CloseFrame(CloseNormalClosure, "")];
          phase := Terminated;
          return;
        }
        var ignored := Take();
        i := i + 1;
      }
      UntilInterruptAt(events, i);
    }

    /**
     * `main` from the point the socket is dialed: the receive loop delivers `results`,
     * then the handshake, the service-menu request and the main loop run in turn.
     */
    method Run(template: string, results: seq<ReadResult>, events: seq<Event>,
               decode: string -> Option<ReceivedMessage>,
               decodeKey: string -> Option<PayloadRegisterKey>,
               encode: ServiceMenuCommand -> Option<string>)
      requires phase == Dialed && queue == [] && sent == [] && saves == []
      modifies this`queue, this`sent, this`keyFile, this`saves, this`phase
      ensures sent == RunFrames(template, StoredKey(old(keyFile)), Received(results, decode), decodeKey, encode, events)
      ensures phase == RunPhase(StoredKey(old(keyFile)), Received(results, decode), decodeKey, encode, events)
      ensures queue == RunQueue(StoredKey(old(keyFile)), Received(results, decode), decodeKey, encode, events)
      ensures saves == KeySaved(StoredKey(old(keyFile)), Received(results, decode), decodeKey)
      ensures keyFile == KeyFileAfter(old(keyFile), keyWritable, saves)
    {
      MessageReceivedHandler(results, decode);
      ghost var key, inbound := StoredKey(keyFile), queue;
      assert inbound == Received(results, decode);
      Handshake(template, decodeKey);
      ghost var afterHandshake := queue;
      assert afterHandshake == Drop(inbound, RepliesAwaited(key));
      if phase == Registered {
        Serve(encode, events);
        assert queue == ServeQueue(afterHandshake, encode, events);
      }
    }

    /** From a completed handshake: the service-menu request, then the main loop. */
    method Serve(encode: ServiceMenuCommand -> Option<string>, events: seq<Event>)
      requires phase == Registered
      modifies this`queue, this`sent, this`phase
      ensures sent == old(sent) + ServeFrames(encode, events)
      ensures phase == ServePhase(encode, events)
      ensures queue == ServeQueue(old(queue), encode, events)
    {
      RequestServiceMenu(encode);
      if phase == Running {
        MainLoop(events);
      }
    }
  }

  /** The handshake completes: with a key one reply arrives, without a key two do and the second decodes. */
  predicate Handshaken(key: Option<string>, inbound: seq<ReceivedMessage>,
                       decodeKey: string -> Option<PayloadRegisterKey>) {
    if key.Some? then |inbound| >= 1
    else |inbound| >= 2 && decodeKey(inbound[1].payload).Some?
  }

  /**
   * The frames sent after a completed handshake: the service-menu request (none if it
   * cannot be encoded), then one normal-closure frame if an interrupt comes.
   */
  function ServeFrames(encode: ServiceMenuCommand -> Option<string>, events: seq<Event>): seq<Frame> {
    match encode(ServiceMenuRequest)
    case None => []
    case Some(cmd) => [TextFrame(cmd)] + if Interrupt in events then [CloseFrame(CloseNormalClosure, "")] else []
  }

  /** Where the process stands after a completed handshake. */
  function ServePhase(encode: ServiceMenuCommand -> Option<string>, events: seq<Event>): Phase {
    match encode(ServiceMenuRequest)
    case None => Exited(1)
    case Some(_) => if Interrupt in events then Terminated else Running
  }

  /** The queue after a completed handshake: the main loop takes one message per event before the first interrupt. */
  function ServeQueue(q: seq<ReceivedMessage>, encode: ServiceMenuCommand -> Option<string>, events: seq<Event>): seq<ReceivedMessage> {
    if encode(ServiceMenuRequest).Some? then Drop(q, |UntilInterrupt(events)|) else q
  }

  /** The messages a run leaves in the queue: those the handshake and the main loop did not take. */
  function RunQueue(key: Option<string>, inbound: seq<ReceivedMessage>,
                    decodeKey: string -> Option<PayloadRegisterKey>,
                    encode: ServiceMenuCommand -> Option<string>, events: seq<Event>): seq<ReceivedMessage> {
    var afterHandshake := Drop(inbound, RepliesAwaited(key));
    if Handshaken(key, inbound, decodeKey) then ServeQueue(afterHandshake, encode, events) else afterHandshake
  }

  /** Every frame a run sends: the register frame, then what follows a completed handshake. */
  function RunFrames(template: string, key: Option<string>, inbound: seq<ReceivedMessage>,
                     decodeKey: string -> Option<PayloadRegisterKey>,
                     encode: ServiceMenuCommand -> Option<string>, events: seq<Event>): seq<Frame> {
    [TextFrame(RegisterPayload(template, key))] +
    if Handshaken(key, inbound, decodeKey) then ServeFrames(encode, events) else []
  }

  /** Where a run ends. */
  function RunPhase(key: Option<string>, inbound: seq<ReceivedMessage>,
                    decodeKey: string -> Option<PayloadRegisterKey>,
                    encode: ServiceMenuCommand -> Option<string>, events: seq<Event>): Phase {
    if Handshaken(key, inbound, decodeKey) then ServePhase(encode, events)
    else HandshakePhase(key, inbound, decodeKey)
  }

  /** The request sent after pairing carries the id "show_service_menu_0". */
  lemma ServiceMenuRequestId()
    ensures ServiceMenuRequest.command.id == "show_service_menu_0"
    ensures ServiceMenuRequest.command.cmdType == "request"
  {
    assert Itoa(0) == "0";
  }

  /**
   * A run sends the register frame first and never again: every later frame is the
   * service-menu request or the close frame, and a close frame can only come last,
   * after an interrupt.
   */
  lemma RegisterSentOnce(template: string, key: Option<string>, inbound: seq<ReceivedMessage>,
                         decodeKey: string -> Option<PayloadRegisterKey>,
                         encode: ServiceMenuCommand -> Option<string>, events: seq<Event>)
    ensures var f := RunFrames(template, key, inbound, decodeKey, encode, events);
      1 <= |f| <= 3 && f[0] == TextFrame(RegisterPayload(template, key)) &&
      (forall i :: 1 <= i < |f| ==>
         (encode(ServiceMenuRequest).Some? && f[i] == TextFrame(encode(ServiceMenuRequest).value)) ||
         f[i] == CloseFrame(CloseNormalClosure, "")) &&
      (forall i :: 0 <= i < |f| && f[i].CloseFrame? ==> i == |f| - 1 && Interrupt in events)
  {
  }

  /** A handshake that does not complete sends nothing after the register frame, and saves nothing on exit. */
  lemma FailedHandshakeSendsOnlyRegister(template: string, key: Option<string>, inbound: seq<ReceivedMessage>,
                                         decodeKey: string -> Option<PayloadRegisterKey>,
                                         encode: ServiceMenuCommand -> Option<string>, events: seq<Event>)
    requires !Handshaken(key, inbound, decodeKey)
    ensures RunFrames(template, key, inbound, decodeKey, encode, events) == [TextFrame(RegisterPayload(template, key))]
    ensures RunPhase(key, inbound, decodeKey, encode, events) in {Stalled, Exited(1)}
    ensures KeySaved(key, inbound, decodeKey) == []
  {
  }

  /**
   * After a completed handshake the frames are exactly the register frame and the
   * service-menu request, plus one close frame exactly when an interrupt comes.
   */
  lemma CompletedRunFrames(template: string, key: Option<string>, inbound: seq<ReceivedMessage>,
                           decodeKey: string -> Option<PayloadRegisterKey>,
                           encode: ServiceMenuCommand -> Option<string>, events: seq<Event>)
    requires Handshaken(key, inbound, decodeKey) && encode(ServiceMenuRequest).Some?
    ensures var f := RunFrames(template, key, inbound, decodeKey, encode, events);
      |f| >= 2 &&
      f[..2] == [TextFrame(RegisterPayload(template, key)), TextFrame(encode(ServiceMenuRequest).value)] &&
      (Interrupt in events <==> |f| == 3) &&
      (Interrupt in events ==> f[2] == CloseFrame(CloseNormalClosure, ""))
    ensures RunPhase(key, inbound, decodeKey, encode, events) == if Interrupt in events then Terminated else Running
  {
  }

  /**
   * At most one key is saved: exactly the client key of the second reply, and only
   * when no key was stored and that reply decodes.
   */
  lemma SavedKeyIsSecondReply(key: Option<string>, inbound: seq<ReceivedMessage>,
                              decodeKey: string -> Option<PayloadRegisterKey>)
    ensures |KeySaved(key, inbound, decodeKey)| <= 1
    ensures KeySaved(key, inbound, decodeKey) != [] <==>
      key.None? && |inbound| >= 2 && decodeKey(inbound[1].payload).Some?
    ensures KeySaved(key, inbound, decodeKey) != [] ==>
      KeySaved(key, inbound, decodeKey)[0] == decodeKey(inbound[1].payload).value.clientKey
  {
  }

  /** How many replies the handshake receives: one with a stored key, two without. */
  function RepliesAwaited(key: Option<string>): nat {
    if key.Some? then 1 else 2
  }

  /**
   * Where the handshake ends: registered when it completes; exit status 1 when the
   * key reply does not decode; stalled when fewer replies arrive than it awaits.
   */
  function HandshakePhase(key: Option<string>, inbound: seq<ReceivedMessage>,
                          decodeKey: string -> Option<PayloadRegisterKey>): (p: Phase)
    ensures p == Registered <==> Handshaken(key, inbound, decodeKey)
    ensures p == Stalled <==> |inbound| < RepliesAwaited(key)
    ensures p == Exited(1) <==> key.None? && |inbound| >= 2 && decodeKey(inbound[1].payload).None?
  {
    if |inbound| < RepliesAwaited(key) then Stalled
    else if key.Some? then Registered
    else if decodeKey(inbound[1].payload).Some? then Registered
    else Exited(1)
  }

  /** The keys the run saves: only the client key of the second reply, and only without a stored key. */
  function KeySaved(key: Option<string>, inbound: seq<ReceivedMessage>,
                    decodeKey: string -> Option<PayloadRegisterKey>): seq<string> {
    if key.None? && |inbound| >= 2 && decodeKey(inbound[1].payload).Some?
    then [decodeKey(inbound[1].payload).value.clientKey]
    else []
  }

  /** The prefix before the first interrupt has length `i` when `events[..i]` holds none and `i` is an interrupt or the end. */
  lemma {:induction false} UntilInterruptAt(events: seq<Event>, i: nat)
    requires i <= |events|
    requires forall k :: 0 <= k < i ==> events[k] == MessageReady
    requires i < |events| ==> events[i] == Interrupt
    ensures |UntilInterrupt(events)| == i
    ensures Interrupt in events <==> i < |events|
  {
  }

  /** The reply a stored-key handshake discards (or the first no-key reply) is never inspected. */
  lemma FirstReplyNotInspected(key: Option<string>, a: seq<ReceivedMessage>, b: seq<ReceivedMessage>,
                               decodeKey: string -> Option<PayloadRegisterKey>)
    requires |a| == |b| && (|a| > 0 ==> a[1..] == b[1..])
    ensures Handshaken(key, a, decodeKey) == Handshaken(key, b, decodeKey)
    ensures KeySaved(key, a, decodeKey) == KeySaved(key, b, decodeKey)
  {
    if |a| >= 2 {
      assert a[1] == a[1..][0] == b[1..][0] == b[1];
    }
  }

  /** First pairing: no key on disk; the television acknowledges, then grants "abc123". */
  method ScenarioFirstPairing() returns (saves: seq<string>, keyFile: KeyFile, frames: nat, phase: Phase)
    ensures saves == ["abc123"] && keyFile == Stored("abc123")
    ensures frames == 3 && phase == Terminated
  {
    var c := new Client(Absent, true);
    var grant := "{\"client-key\":\"abc123\"}";
    var results := [FrameRead("{}"), FrameRead(grant)];
    var decode := (f: string) => Some(ReceivedMessage("response", "register_0", f));
    var decodeKey := (p: string) => if p == grant then Some(PayloadRegisterKey("abc123")) else None;
    assert Received(results, decode) == [decode("{}").value, decode(grant).value] by {
      assert results[1..] == [FrameRead(grant)];
      assert results[1..][1..] == [];
      assert Received(results[1..][1..], decode) == [];
      assert Received(results[1..], decode) == [BestEffort(decode, grant)];
    }
    var encode := (cmd: ServiceMenuCommand) => Some("menu");
    assert encode(ServiceMenuRequest) == Some("menu");
    assert decodeKey(grant) == Some(PayloadRegisterKey("abc123"));
    c.Run(Placeholder, results, [MessageReady, Interrupt], decode, decodeKey, encode);
    return c.saves, c.keyFile, |c.sent|, c.phase;
  }

  /** Stored key: one acknowledgement completes the handshake, the key is spliced in, nothing is saved. */
  method ScenarioStoredKey() returns (saves: seq<string>, first: Frame, phase: Phase)
    ensures saves == [] && phase == Running
    ensures first == TextFrame("[abc123]")
  {
    var c := new Client(Stored("abc123"), true);
    var template := "[" + Placeholder + "]";
    var results := [FrameRead("{}")];
    var decode := (f: string) => None;
    var decodeKey := (p: string) => None;
    var encode := (cmd: ServiceMenuCommand) => Some("menu");
    assert Received(results, decode) == [EmptyMessage] by {
      assert results[1..] == [];
    }
    assert encode(ServiceMenuRequest) == Some("menu");
    assert Handshaken(Some("abc123"), [EmptyMessage], decodeKey);
    assert RegisterPayload(template, Some("abc123")) == "[abc123]" by {
      ReplaceFirstAfterFreePrefix("[", Placeholder, "]", "abc123");
    }
    assert RunPhase(Some("abc123"), [EmptyMessage], decodeKey, encode, []) == Running;
    assert RunFrames(template, Some("abc123"), [EmptyMessage], decodeKey, encode, [])[0] == TextFrame("[abc123]");
    assert KeySaved(Some("abc123"), [EmptyMessage], decodeKey) == [];
    c.Run(template, results, [], decode, decodeKey, encode);
    return c.saves, c.sent[0], c.phase;
  }

  /** A read error before any reply: the handshake waits forever and no command is sent. */
  method ScenarioReadFailure() returns (frames: nat, phase: Phase)
    ensures frames == 1 && phase == Stalled
  {
    var c := new Client(Absent, true);
    var decode := (f: string) => None;
    var decodeKey := (p: string) => None;
    var encode := (cmd: ServiceMenuCommand) => Some("menu");
    c.Run(Placeholder, [ReadError(false)], [Interrupt], decode, decodeKey, encode);
    return |c.sent|, c.phase;
  }
}
