/** The pairing exchange in bytes: what the handler answers over a pipe, and why an answer can be relied on. */
module Wire {
  import opened Wrappers
  import opened Base32
  import opened Identity
  import opened Records
  import opened StoreOps
  import opened Messages
  import opened Protocol
  import opened ProtocolInvariant
  import opened ProtocolRuns
  import opened Framing
  import opened ProtocolUndisturbed
  import opened Stores
  import opened Pairing
  import opened PairingTheorems

  /** JSON text of one kind of message. */
  datatype Codec<!T> = Codec(encode: T -> seq<Byte>, decode: seq<Byte> -> Option<T>)

  /** The request that the bytes sent to the master make up, if they do. */
  function RequestRead(inbound: seq<Byte>, requests: Codec<PairRequest>): Result<PairRequest, FrameError> {
    Framing.Decoded(ReadFrame(inbound).0, requests.decode)
  }

  /** Any part of the frame that carries the master's answer to `request`. */
  predicate PartOfAnswer(outbound: seq<Byte>, master: PublicPeer, request: PairRequest,
                         responses: Codec<PairResponse>) {
    var payload := responses.encode(AcceptedResponse(master, request));
    |payload| <= MAX_FRAME_SIZE && outbound <= Frame(payload)
  }

  lemma HandleReads(inbound: seq<Byte>, requests: Codec<PairRequest>)
    ensures RequestRead(inbound, requests) == Framing.Decoded(ReadFrame(inbound).0, requests.decode)
  {
  }

  lemma PartialAnswer(master: PublicPeer, request: PairRequest, responses: Codec<PairResponse>)
    ensures forall sent {:trigger PartOfAnswer(sent, master, request, responses)} ::
              PartOfAnswer(sent, master, request, responses)
              <==> var payload := responses.encode(AcceptedResponse(master, request));
                   |payload| <= MAX_FRAME_SIZE && sent <= Frame(payload)
  {
  }

  /**
   * handle, after the handshake: one request, one attempt to accept it, one answer. Not a byte is sent
   * unless a whole request was read and accepted; what is sent is part of the answer to that request.
   */
  method Handle(root: Root, p: Primitives, master: PublicPeer, reader: ChunkReader, writer: ChunkWriter,
                requests: Codec<PairRequest>, responses: Codec<PairResponse>, admittedAt: Time, at: Time)
    returns (r: Result<(), Error>)
    requires writer.accepted == []
    modifies root, reader, writer
    ensures writer.accepted != [] || r.Ok? ==>
              exists request :: RequestRead(old(reader.Unread()), requests) == Ok(request)
                && PartOfAnswer(writer.accepted, master, request, responses)
                && CheckAdmission(p, master, request).None?
                && Consume(p, old(root.codes), ConsumeRequestOf(master, request), at) == Ok(root.codes)
                && EnsurePeer(p, old(root.peers), request.peer, admittedAt) == Ok(root.peers)
                && (r.Ok? ==> writer.accepted == Frame(responses.encode(AcceptedResponse(master, request))))
    ensures RequestRead(old(reader.Unread()), requests).Err? ==>
              r.Err? && root.codes == old(root.codes) && root.peers == old(root.peers)
    ensures root.faults >= old(root.faults) && writer.cuts >= old(writer.cuts)
    ensures
      && root.faults == old(root.faults) && writer.cuts == old(writer.cuts)
      && AllValidCodes(old(root.codes)) && AllValidPeers(old(root.peers)) && AllValidRevs(root.revs) ==>
        match RequestRead(old(reader.Unread()), requests)
        case Err(_) => r == Err(InvalidMessage)
        case Ok(request) =>
          match Refusal(p, Disk(old(root.codes), old(root.peers), root.revs), old(root.locks), master, request,
                        admittedAt, at)
          case Some(e) => r == Err(e) && writer.accepted == []
          case None => r.Ok? <==> |responses.encode(AcceptedResponse(master, request))| <= MAX_FRAME_SIZE
  {
    hide Refusal, ReadFrame, Frame, CheckAdmission, WellMadeRequest, Consume, EnsurePeer, IsRevokedIn, AllValidCodes,
      AllValidPeers, AllValidRevs, RequestRead, PartOfAnswer;
    HandleReads(old(reader.Unread()), requests);
    var request := ReadMessage(reader, requests.decode);
    if request.Err? {
      return Err(InvalidMessage);
    }
    var answer := root.Accept(p, master, request.value, admittedAt, at);
    if answer.Err? {
      return Err(answer.error);
    }
    var payload := responses.encode(answer.value);
    PartialAnswer(master, request.value, responses);
    var sent := WriteMessageInTwo(writer, payload);
    if sent.Err? {
      return Err(IoError);
    }
    r := Ok(());
  }

  /**
   * What a handler's connection and its attempt have to do with each other: `inbound` has come from the
   * other side, `outbound` has been sent to it.
   */
  ghost predicate HandledBy(t: Thread, inbound: seq<Byte>, outbound: seq<Byte>,
                            requests: Codec<PairRequest>, responses: Codec<PairResponse>)
  {
    && t.op.Pair?
    && (outbound != [] ==>
          && RequestRead(inbound, requests) == Ok(t.op.request)
          && t.Succeeded()
          && PartOfAnswer(outbound, t.op.master, t.op.request, responses))
  }

  /** The joining side of a connection on which `sent` was sent and `outbound` came back. */
  function OverWire(sent: PairRequest, outbound: seq<Byte>, responses: Codec<PairResponse>): Exchange {
    (r: PairRequest) =>
      if r != sent then Err(IoError)
      else match Framing.Decoded(ReadFrame(outbound).0, responses.decode)
        case Ok(response) => Ok(response)
        case Err(_) => Err(InvalidMessage)
  }

  lemma PrefixReads(stream: seq<Byte>, payload: seq<Byte>)
    requires Sendable(payload) && stream <= Frame(payload)
    ensures stream == Frame(payload) ==> ReadFrame(stream) == (Ok(payload), [])
    ensures stream != Frame(payload) ==> ReadFrame(stream).0.Err?
  {
    hide ReadFrame;
    if stream == Frame(payload) {
      assert stream == Frame(payload) + [];
      ReadsFrame(stream, payload, []);
    } else {
      assert stream == Frame(payload)[..|stream|];
      ProperPrefixIsTruncated(payload, |stream|);
    }
  }

  /**
   * A pipe that delivers what was sent, in order and unaltered but perhaps not all of it, is all that an
   * answer needs to mean what it says: if anything comes back that the joining node can read, the
   * attempt has read this request, has succeeded, and this is its answer.
   */
  lemma IntactPipeAnswers(t: Thread, sent: PairRequest, inbound: seq<Byte>, outbound: seq<Byte>,
                          requests: Codec<PairRequest>, responses: Codec<PairResponse>)
    requires Sendable(requests.encode(sent)) && requests.decode(requests.encode(sent)) == Some(sent)
    requires inbound <= Frame(requests.encode(sent))
    requires HandledBy(t, inbound, outbound, requests, responses)
    requires var answer := AcceptedResponse(t.op.master, sent);
             responses.encode(answer) != [] && responses.decode(responses.encode(answer)) == Some(answer)
    ensures AnsweredBy(t, OverWire(sent, outbound, responses))
  {
    hide ReadFrame, Frame;
    forall r, response | OverWire(sent, outbound, responses)(r) == Ok(response)
      ensures t.Succeeded() && t.op.request == r && response == AcceptedResponse(t.op.master, r)
    {
      assert outbound != [] by {
        NothingToRead();
      }
      PrefixReads(inbound, requests.encode(sent));
      assert t.op.request == sent;
      PrefixReads(outbound, responses.encode(AcceptedResponse(t.op.master, sent)));
    }
  }

  lemma NothingToRead()
    ensures ReadFrame([]).0.Err?
  {
  }

  /** And if both frames got through whole, a successful attempt's answer is what the joining node reads. */
  lemma WholeAnswerArrives(t: Thread, outbound: seq<Byte>, responses: Codec<PairResponse>)
    requires t.op.Pair?
    requires var answer := AcceptedResponse(t.op.master, t.op.request);
             && Sendable(responses.encode(answer)) && responses.decode(responses.encode(answer)) == Some(answer)
             && outbound == Frame(responses.encode(answer))
    ensures OverWire(t.op.request, outbound, responses)(t.op.request) == Ok(AcceptedResponse(t.op.master, t.op.request))
  {
    hide ReadFrame, Frame;
    PrefixReads(outbound, responses.encode(AcceptedResponse(t.op.master, t.op.request)));
  }

  // ---------- connections in a run ----------

  /** A listener: its identity and its text encodings. */
  datatype Listener = Listener(master: PublicPeer, requests: Codec<PairRequest>, responses: Codec<PairResponse>)

  /** A state of the protocol, and by attempt what its connection has delivered and what was sent back on it. */
  datatype Connections = Connections(state: State, inbound: map<nat, seq<Byte>>, outbound: map<nat, seq<Byte>>)

  /**
   * What can happen: a handler has read what a connection delivered, anything in the protocol takes its
   * course, or the handler of a successful attempt gets up to `n` more bytes of its answer out.
   */
  datatype Event = Receive(id: nat, bytes: seq<Byte>) | Work(action: Action) | Send(id: nat, n: nat)

  /** The answer's bytes, of which none are sent when there are too many of them. */
  function AnswerBytes(l: Listener, request: PairRequest): seq<Byte> {
    var payload := l.responses.encode(AcceptedResponse(l.master, request));
    if |payload| > MAX_FRAME_SIZE then [] else Frame(payload)
  }

  function Occur(p: Primitives, l: Listener, c: Connections, e: Event): Connections {
    match e
    case Receive(id, bytes) =>
      if id in c.state.threads then c
      else (match RequestRead(bytes, l.requests)
            case Err(_) => c
            case Ok(request) =>
              Connections(Step(p, c.state, Spawn(id, Pair(l.master, request))),
                          c.inbound[id := bytes], c.outbound[id := []]))
    case Work(action) => c.(state := Step(p, c.state, action))
    case Send(id, n) =>
      if id in c.outbound && id in c.state.threads && c.state.threads[id].op.Pair? && c.state.threads[id].Succeeded()
      then
        var answer, sent := AnswerBytes(l, c.state.threads[id].op.request), |c.outbound[id]| + n;
        c.(outbound := c.outbound[id := if sent <= |answer| then answer[..sent] else answer])
      else c
  }

  function After(p: Primitives, l: Listener, c: Connections, events: seq<Event>): Connections
    decreases |events|
  {
    if events == [] then c
    else Occur(p, l, After(p, l, c, events[..|events| - 1]), events[|events| - 1])
  }

  ghost predicate Served(l: Listener, c: Connections) {
    && c.inbound.Keys == c.outbound.Keys
    && forall id :: id in c.inbound ==>
         && id in c.state.threads && c.state.threads[id].op.Pair? && c.state.threads[id].op.master == l.master
         && RequestRead(c.inbound[id], l.requests) == Ok(c.state.threads[id].op.request)
         && HandledBy(c.state.threads[id], c.inbound[id], c.outbound[id], l.requests, l.responses)
  }

  /** What a connection relies on survives whatever the protocol does next. */
  lemma StepKeepsAttempt(p: Primitives, d0: Disk, s: State, a: Action, id: nat)
    requires Inv(p, d0, s) && id in s.threads
    ensures id in Step(p, s, a).threads && Step(p, s, a).threads[id].op == s.threads[id].op
    ensures s.threads[id].Succeeded() ==> Step(p, s, a).threads[id] == s.threads[id]
  {
    hide Inv, Advance, WellFormed;
    OpStays(p, d0, s, a, id);
  }

  lemma SentIsPartOfAnswer(l: Listener, request: PairRequest, sent: nat)
    requires sent <= |AnswerBytes(l, request)|
    ensures AnswerBytes(l, request)[..sent] != [] ==>
              PartOfAnswer(AnswerBytes(l, request)[..sent], l.master, request, l.responses)
  {
  }

  lemma WorkKeepsServed(p: Primitives, d0: Disk, l: Listener, c: Connections, action: Action)
    requires Inv(p, d0, c.state) && Served(l, c)
    ensures Served(l, c.(state := Step(p, c.state, action)))
  {
    hide Inv, RequestRead, PartOfAnswer, Step;
    forall id | id in c.inbound
      ensures id in Step(p, c.state, action).threads
      ensures Step(p, c.state, action).threads[id].op == c.state.threads[id].op
      ensures c.state.threads[id].Succeeded() ==> Step(p, c.state, action).threads[id] == c.state.threads[id]
    {
      StepKeepsAttempt(p, d0, c.state, action, id);
    }
  }

  lemma SendKeepsServed(p: Primitives, l: Listener, c: Connections, id: nat, n: nat)
    requires Served(l, c)
    ensures Served(l, Occur(p, l, c, Send(id, n)))
  {
    hide RequestRead, PartOfAnswer, AnswerBytes;
    if id in c.outbound {
      var request := c.state.threads[id].op.request;
      var answer := AnswerBytes(l, request);
      var sent := |c.outbound[id]| + n;
      SentIsPartOfAnswer(l, request, if sent <= |answer| then sent else |answer|);
      assert answer[..|answer|] == answer;
    }
  }

  lemma OccurKeepsServed(p: Primitives, d0: Disk, l: Listener, c: Connections, e: Event)
    requires Inv(p, d0, c.state) && Served(l, c)
    ensures Inv(p, d0, Occur(p, l, c, e).state) && Served(l, Occur(p, l, c, e))
  {
    hide Inv, RequestRead, PartOfAnswer, AnswerBytes;
    match e {
      case Receive(id, bytes) =>
        if id !in c.state.threads && RequestRead(bytes, l.requests).Ok? {
          StepOk(p, d0, c.state, Spawn(id, Pair(l.master, RequestRead(bytes, l.requests).value)));
        }
      case Work(action) =>
        hide Step;
        StepOk(p, d0, c.state, action);
        WorkKeepsServed(p, d0, l, c, action);
      case Send(id, n) =>
        SendKeepsServed(p, l, c, id, n);
    }
  }

  /** Whatever happens on the connections, the protocol's part of it is a run. */
  lemma {:induction false} ConnectionsRun(p: Primitives, s0: State, l: Listener, events: seq<Event>)
      returns (actions: seq<Action>)
    requires Initial(s0)
    ensures var c := After(p, l, Connections(s0, map[], map[]), events);
            c.state == Run(p, s0, actions) && Served(l, c)
    decreases |events|
  {
    hide Inv, Run, Occur, Served, Initial;
    InitialInv(p, s0);
    var start := Connections(s0, map[], map[]);
    if events == [] {
      actions := [];
      RunNothing(p, s0);
      NothingServed(l, s0);
    } else {
      var front, last := events[..|events| - 1], events[|events| - 1];
      var before := ConnectionsRun(p, s0, l, front);
      var c := After(p, l, start, front);
      RunOk(p, s0.disk, s0, before);
      OccurKeepsServed(p, s0.disk, l, c, last);
      var step := StepsOf(p, l, c, last);
      actions := before + step;
      if step == [] {
        assert before + [] == before;
      } else {
        RunSnoc(p, s0, before, step[0]);
      }
    }
  }

  lemma NothingServed(l: Listener, s0: State)
    ensures Served(l, Connections(s0, map[], map[]))
  {
  }

  lemma StepsOf(p: Primitives, l: Listener, c: Connections, e: Event) returns (step: seq<Action>)
    ensures step == [] ==> Occur(p, l, c, e).state == c.state
    ensures step != [] ==> |step| == 1 && Occur(p, l, c, e).state == Step(p, c.state, step[0])
    ensures step != [] ==> step == [step[0]]
  {
    hide Step, RequestRead, AnswerBytes;
    match e {
      case Receive(id, bytes) =>
        if id !in c.state.threads && RequestRead(bytes, l.requests).Ok? {
          step := [Spawn(id, Pair(l.master, RequestRead(bytes, l.requests).value))];
        } else {
          step := [];
        }
      case Work(action) => step := [action];
      case Send(_, _) => step := [];
    }
  }

  /**
   * In any run with any traffic: if all a connection has delivered is a first part of the request `sent`,
   * and the joining node has got a first part of what was sent back, then whatever answer it reads was
   * made by a successful attempt for `sent`. The attempt is one of a run of the protocol, to which all
   * that is proved about runs applies.
   */
  lemma AnswersAreReal(p: Primitives, s0: State, l: Listener, events: seq<Event>, id: nat, sent: PairRequest,
                       received: seq<Byte>) returns (actions: seq<Action>)
    requires Initial(s0)
    requires id in After(p, l, Connections(s0, map[], map[]), events).inbound
    requires id in After(p, l, Connections(s0, map[], map[]), events).outbound
    requires Sendable(l.requests.encode(sent)) && l.requests.decode(l.requests.encode(sent)) == Some(sent)
    requires var answer := AcceptedResponse(l.master, sent);
             l.responses.encode(answer) != [] && l.responses.decode(l.responses.encode(answer)) == Some(answer)
    requires var c := After(p, l, Connections(s0, map[], map[]), events);
             c.inbound[id] <= Frame(l.requests.encode(sent)) && received <= c.outbound[id]
    ensures After(p, l, Connections(s0, map[], map[]), events).state == Run(p, s0, actions)
    ensures id in Run(p, s0, actions).threads
    ensures AnsweredBy(Run(p, s0, actions).threads[id], OverWire(sent, received, l.responses))
  {
    hide Run, After, Initial, Frame, RequestRead, AnsweredBy;
    actions := ConnectionsRun(p, s0, l, events);
    var c := After(p, l, Connections(s0, map[], map[]), events);
    IntactPipeAnswers(c.state.threads[id], sent, c.inbound[id], received, l.requests, l.responses);
  }

  /**
   * From the bytes to the disks: a join that succeeds with what it has got over such a connection leaves
   * both disks in agreement, the master's then and in every continuation.
   */
  lemma JoinOverWireAgrees(p: Primitives, s0: State, l: Listener, events: seq<Event>, id: nat, sent: PairRequest,
                           received: seq<Byte>, w: WorkerDisk, i: JoinInput) returns (actions: seq<Action>)
    requires Initial(s0)
    requires id in After(p, l, Connections(s0, map[], map[]), events).inbound
    requires id in After(p, l, Connections(s0, map[], map[]), events).outbound
    requires Sendable(l.requests.encode(sent)) && l.requests.decode(l.requests.encode(sent)) == Some(sent)
    requires var answer := AcceptedResponse(l.master, sent);
             l.responses.encode(answer) != [] && l.responses.decode(l.responses.encode(answer)) == Some(answer)
    requires var c := After(p, l, Connections(s0, map[], map[]), events);
             c.inbound[id] <= Frame(l.requests.encode(sent)) && received <= c.outbound[id]
    requires Join(p, w, i, OverWire(sent, received, l.responses)).Ok?
    ensures After(p, l, Connections(s0, map[], map[]), events).state == Run(p, s0, actions)
    ensures var (result, saved) := Join(p, w, i, OverWire(sent, received, l.responses)).value;
            && result.masterNodeId == i.expectedMaster == l.master.nodeId
            && saved.identity.Some? && saved.identity.value.nodeId == result.localNodeId
            && HasPeer(saved.peers, l.master)
            && forall b :: var later := Run(p, s0, actions + b).disk;
                 && HasPeer(later.peers, PublicPeerFromIdentity(saved.identity.value))
                 && exists c :: 0 <= c < |later.codes| && later.codes[c].status.Consumed?
                                && later.codes[c].consumedBy == result.localNodeId
  {
    hide Run, After, Initial, Frame, AnsweredBy, Join, HasPeer;
    actions := AnswersAreReal(p, s0, l, events, id, sent, received);
    var exchange := OverWire(sent, received, l.responses);
    MasterOfAttempt(p, s0, l, events, id, actions);
    TwoDisksAgree(p, s0, actions, [], id, w, i, exchange);
    forall b: seq<Action>
      ensures var later := Run(p, s0, actions + b).disk;
              var (result, saved) := Join(p, w, i, exchange).value;
              && HasPeer(later.peers, PublicPeerFromIdentity(saved.identity.value))
              && exists c :: 0 <= c < |later.codes| && later.codes[c].status.Consumed?
                             && later.codes[c].consumedBy == result.localNodeId
    {
      TwoDisksAgree(p, s0, actions, b, id, w, i, exchange);
    }
  }

  lemma MasterOfAttempt(p: Primitives, s0: State, l: Listener, events: seq<Event>, id: nat, actions: seq<Action>)
    requires Initial(s0) && id in After(p, l, Connections(s0, map[], map[]), events).inbound
    requires After(p, l, Connections(s0, map[], map[]), events).state == Run(p, s0, actions)
    ensures id in Run(p, s0, actions).threads && Run(p, s0, actions).threads[id].op.Pair?
    ensures Run(p, s0, actions).threads[id].op.master == l.master
  {
    hide Run, After, Initial, RequestRead, HandledBy;
    var same := ConnectionsRun(p, s0, l, events);
  }
}
