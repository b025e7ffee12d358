/** Reactors/net/connection.cc: the send path of a TCP connection. Bytes go straight to
    the socket while nothing is queued, otherwise behind what is queued; the channel's
    write event drains the queue. Results of write are inputs. */
module Connection {
  import opened Buffer

  datatype ConnState = CLOSED | ESTABLISHED

  datatype Conn = Conn(
    state: ConnState, writeable: bool, readable: bool,
    reading: bool, writing: bool,
    send: Indexed,
    // What the socket has taken, and the concatenation of the accepted sends.
    wire: Bytes, accepted: Bytes)

  /** `result` is what write returns: negative for an error, otherwise how many bytes it took. */
  datatype Event =
    | Establish
    | Send(data: Bytes, result: int)
    | WriteReady(result: int)
    | Close
    | Shutdown

  function Initial(): Conn {
    Conn(CLOSED, false, false, false, false, Empty(INITIAL_SIZE), [], [])
  }

  ghost predicate Usable(c: Conn) {
    c.send.Valid()
  }

  function Queued(c: Conn): Bytes
    requires Usable(c)
  {
    c.send.Readable()
  }

  /** write never takes more than it was given. */
  ghost predicate Possible(c: Conn, e: Event)
    requires Usable(c)
  {
    match e
    case Send(data, result) => result <= |data|
    case WriteReady(result) => result <= |Queued(c)|
    case _ => true
  }

  /** A send counts when the connection is open and it was queued or its direct write did not fail. */
  predicate Accepts(c: Conn, data: Bytes, result: int)
    requires Usable(c)
  {
    c.state == ESTABLISHED && (Queued(c) != [] || result >= 0)
  }

  // ---------- The handlers ----------

  function SendStep(c: Conn, data: Bytes, result: int): Conn
    requires Usable(c) && result <= |data|
  {
    if c.state != ESTABLISHED then c
    else if |Queued(c)| > 0 then c.(send := Append(c.send, data), accepted := c.accepted + data)
    else if result < 0 then c
    else
      var d := c.(wire := c.wire + data[..result], accepted := c.accepted + data);
      if result < |data| then d.(send := Append(c.send, data[result..]), writing := true) else d
  }

  function WriteReadyStep(c: Conn, result: int): Conn
    requires Usable(c) && result <= |Queued(c)|
  {
    if !c.writeable || result < 0 then c
    else
      RetrieveDropsPrefix(c.send, result);
      var d := c.(wire := c.wire + Queued(c)[..result], send := Retrieve(c.send, result));
      if Queued(d) == [] then d.(writing := false) else d
  }

  function Step(c: Conn, e: Event): Conn
    requires Usable(c) && Possible(c, e)
  {
    match e
    case Establish => c.(reading := true, state := ESTABLISHED, readable := true, writeable := true)
    case Send(data, result) => SendStep(c, data, result)
    case WriteReady(result) => WriteReadyStep(c, result)
    case Close => c.(state := CLOSED, reading := false, writing := false)
    case Shutdown => c.(writeable := false)
  }

  // ---------- Runs ----------

  ghost predicate Behaviour(cs: seq<Conn>, es: seq<Event>) {
    && |cs| == |es| + 1
    && forall i :: 0 <= i < |es| ==>
         Usable(cs[i]) && Possible(cs[i], es[i]) && cs[i + 1] == Step(cs[i], es[i])
  }

  /** The bytes of the accepted sends among the first n events, in order. */
  ghost function AcceptedSends(cs: seq<Conn>, es: seq<Event>, n: nat): Bytes
    requires Behaviour(cs, es) && n <= |es|
  {
    if n == 0 then []
    else
      AcceptedSends(cs, es, n - 1) +
      if es[n - 1].Send? && Accepts(cs[n - 1], es[n - 1].data, es[n - 1].result) then es[n - 1].data else []
  }

  /** Nothing accepted is lost, repeated or reordered. */
  ghost predicate Conserved(c: Conn) {
    Usable(c) && c.wire + Queued(c) == c.accepted
  }

  /** While the connection is open, queued bytes are watched by the poller. */
  ghost predicate Draining(c: Conn) {
    Usable(c) && (c.state == ESTABLISHED && Queued(c) != [] ==> c.writing)
  }

  lemma SendConserves(c: Conn, data: Bytes, result: int)
    requires Conserved(c) && result <= |data|
    ensures var d := SendStep(c, data, result);
            Conserved(d) && d.accepted == c.accepted + if Accepts(c, data, result) then data else []
  {
    hide Append;
    AppendExtends(c.send, data);
    if result >= 0 {
      AppendExtends(c.send, data[result..]);
      assert data[..result] + data[result..] == data;
    }
  }

  lemma SendDrains(c: Conn, data: Bytes, result: int)
    requires Draining(c) && result <= |data|
    ensures Draining(SendStep(c, data, result))
  {
    hide Append;
    AppendExtends(c.send, data);
    if result >= 0 { AppendExtends(c.send, data[result..]); }
  }

  lemma WriteReadyConserves(c: Conn, result: int)
    requires Conserved(c) && result <= |Queued(c)|
    ensures var d := WriteReadyStep(c, result);
            Conserved(d) && d.accepted == c.accepted
  {
    hide Retrieve;
    if c.writeable && result >= 0 {
      RetrieveDropsPrefix(c.send, result);
      var q := Queued(c);
      assert q[..result] + (if result < |q| then q[result..] else []) == q;
    }
  }

  lemma WriteReadyDrains(c: Conn, result: int)
    requires Draining(c) && result <= |Queued(c)|
    ensures Draining(WriteReadyStep(c, result))
  {
    hide Retrieve;
    if result >= 0 { RetrieveDropsPrefix(c.send, result); }
  }

  lemma StepConserves(c: Conn, e: Event)
    requires Conserved(c) && Possible(c, e)
    ensures Conserved(Step(c, e))
    ensures Step(c, e).accepted == c.accepted + if e.Send? && Accepts(c, e.data, e.result) then e.data else []
  {
    hide SendStep, WriteReadyStep;
    match e
    case Establish =>
    case Send(data, result) => SendConserves(c, data, result);
    case WriteReady(result) => WriteReadyConserves(c, result);
    case Close =>
    case Shutdown =>
  }

  /** Only ConnectionEstablished can leave queued bytes unwatched, and it does exactly when it finds some. */
  lemma StepDrainsIff(c: Conn, e: Event)
    requires Conserved(c) && Draining(c) && Possible(c, e)
    ensures Draining(Step(c, e)) <==> (e.Establish? ==> Queued(c) == [] || c.writing)
  {
    hide SendStep, WriteReadyStep;
    match e
    case Establish =>
    case Send(data, result) => SendDrains(c, data, result);
    case WriteReady(result) => WriteReadyDrains(c, result);
    case Close =>
    case Shutdown =>
  }

  lemma InitialKeeps()
    ensures Conserved(Initial()) && Draining(Initial()) && Initial().accepted == []
  {
  }

  // ---------- Main results ----------

  lemma {:induction false} RunConserves(cs: seq<Conn>, es: seq<Event>, n: nat)
    requires Behaviour(cs, es) && cs[0] == Initial() && n <= |es|
    ensures Conserved(cs[n]) && cs[n].accepted == AcceptedSends(cs, es, n)
  {
    hide Step, Conserved, Accepts;
    if n == 0 {
      InitialKeeps();
    } else {
      RunConserves(cs, es, n - 1);
      assert cs[n - 1 + 1] == Step(cs[n - 1], es[n - 1]);
      StepConserves(cs[n - 1], es[n - 1]);
    }
  }

  /** Over every run of sends, full, partial and failed writes, shutdown and close: what is on
      the wire followed by what is queued is exactly the accepted sends, in order. */
  lemma WireThenQueueIsAccepted(cs: seq<Conn>, es: seq<Event>)
    requires Behaviour(cs, es) && cs[0] == Initial()
    ensures var c := cs[|es|];
            Usable(c) && c.wire + Queued(c) == AcceptedSends(cs, es, |es|)
  {
    RunConserves(cs, es, |es|);
  }

  /** What a send brings is all kept, on the wire or in the queue behind what was there, if and only
      if it is empty or the connection is open and either something is queued or the direct write
      does not fail; otherwise all of it is dropped. */
  lemma SendKeptIff(c: Conn, data: Bytes, result: int)
    requires Conserved(c) && result <= |data|
    ensures var d := SendStep(c, data, result);
            && Usable(d)
            && (d.wire + Queued(d) == c.wire + Queued(c) + data <==>
                  data == [] || (c.state == ESTABLISHED && (Queued(c) != [] || result >= 0)))
            && (d.wire + Queued(d) == c.wire + Queued(c) + data || d == c)
  {
    hide SendStep;
    SendConserves(c, data, result);
    if !Accepts(c, data, result) { DroppedSend(c, data, result); }
    assert c.accepted + [] == c.accepted;
  }

  lemma DroppedSend(c: Conn, data: Bytes, result: int)
    requires Usable(c) && result <= |data| && !Accepts(c, data, result)
    ensures SendStep(c, data, result) == c
  {
  }

  /** A direct write that fails on an open connection loses the message. */
  lemma FailedWriteDropsMessage(x: char)
    ensures var c := Step(Initial(), Establish);
            && c.state == ESTABLISHED
            && Step(c, Send([x], -1)) == c && c.wire + Queued(c) == []
  {
    hide WriteReadyStep, Append, Retrieve;
    assert Queued(Step(Initial(), Establish)) == [];
  }

  /** The bytes that the calls of write made by the first n events took. */
  ghost function Taken(cs: seq<Conn>, es: seq<Event>, n: nat): nat
    requires Behaviour(cs, es) && n <= |es|
  {
    if n == 0 then 0
    else
      var c := cs[n - 1];
      Taken(cs, es, n - 1) +
      match es[n - 1]
      case Send(_, result) => if c.state == ESTABLISHED && Queued(c) == [] && result >= 0 then result else 0
      case WriteReady(result) => if c.writeable && result >= 0 then result else 0
      case _ => 0
  }

  lemma StepTakes(c: Conn, e: Event)
    requires Usable(c) && Possible(c, e)
    ensures |Step(c, e).wire| == |c.wire| +
              match e
              case Send(_, result) => if c.state == ESTABLISHED && Queued(c) == [] && result >= 0 then result else 0
              case WriteReady(result) => if c.writeable && result >= 0 then result else 0
              case _ => 0
  {
    hide Append, Retrieve;
  }

  lemma {:induction false} WireLength(cs: seq<Conn>, es: seq<Event>, n: nat)
    requires Behaviour(cs, es) && cs[0] == Initial() && n <= |es|
    ensures |cs[n].wire| == Taken(cs, es, n)
  {
    hide Step;
    if n > 0 {
      WireLength(cs, es, n - 1);
      assert cs[n - 1 + 1] == Step(cs[n - 1], es[n - 1]);
      StepTakes(cs[n - 1], es[n - 1]);
    }
  }

  /** Over every run the wire is exactly as much of the accepted sends as the calls of write took, so
      nothing the socket took is offered again, and the queue is exactly the rest. */
  lemma WireIsWhatWritesTook(cs: seq<Conn>, es: seq<Event>)
    requires Behaviour(cs, es) && cs[0] == Initial()
    ensures var c, sends, n := cs[|es|], AcceptedSends(cs, es, |es|), Taken(cs, es, |es|);
            Usable(c) && n <= |sends| && c.wire == sends[..n] && Queued(c) == sends[n..]
  {
    hide Taken, AcceptedSends;
    WireThenQueueIsAccepted(cs, es);
    WireLength(cs, es, |es|);
  }

  /** Among the first n events the last ConnectionEstablished or close is the former. */
  predicate Opened(es: seq<Event>, n: nat)
    requires n <= |es|
  {
    n > 0 && (es[n - 1].Establish? || (!es[n - 1].Close? && Opened(es, n - 1)))
  }

  /** The last ConnectionEstablished or shutdown is the former. */
  predicate NotShutDown(es: seq<Event>, n: nat)
    requires n <= |es|
  {
    n > 0 && (es[n - 1].Establish? || (!es[n - 1].Shutdown? && NotShutDown(es, n - 1)))
  }

  /** Some ConnectionEstablished has taken place; readable_ is never cleared. */
  predicate EverOpened(es: seq<Event>, n: nat)
    requires n <= |es|
  {
    exists i :: 0 <= i < n && es[i].Establish?
  }

  lemma StepFlags(c: Conn, e: Event)
    requires Usable(c) && Possible(c, e) && (c.writing ==> Queued(c) != [])
    ensures var d := Step(c, e);
            && (d.state == ESTABLISHED <==> e.Establish? || (!e.Close? && c.state == ESTABLISHED))
            && (d.writeable <==> e.Establish? || (!e.Shutdown? && c.writeable))
            && (d.readable <==> e.Establish? || c.readable)
            && Usable(d) && (d.writing ==> Queued(d) != [])
  {
    hide Append, Retrieve;
    match e
    case Establish =>
    case Send(data, result) =>
      AppendExtends(c.send, data);
      if result >= 0 { AppendExtends(c.send, data[result..]); }
    case WriteReady(result) => if result >= 0 { RetrieveDropsPrefix(c.send, result); }
    case Close =>
    case Shutdown =>
  }

  /** In every state of a run the flags are those of the events, and the socket is watched for writing
      only while bytes are queued: a poller that finds it writable is not kept busy for nothing. */
  lemma {:induction false} FlagsFollowEvents(cs: seq<Conn>, es: seq<Event>, n: nat)
    requires Behaviour(cs, es) && cs[0] == Initial() && n <= |es|
    ensures cs[n].state == ESTABLISHED <==> Opened(es, n)
    ensures cs[n].writeable <==> NotShutDown(es, n)
    ensures cs[n].readable <==> EverOpened(es, n)
    ensures Usable(cs[n]) && (cs[n].writing ==> Queued(cs[n]) != [])
  {
    hide Step;
    if n > 0 {
      FlagsFollowEvents(cs, es, n - 1);
      assert cs[n - 1 + 1] == Step(cs[n - 1], es[n - 1]);
      StepFlags(cs[n - 1], es[n - 1]);
    }
  }

  /** Each ConnectionEstablished of the run finds nothing queued unwatched. A server calls it
      once per socket, before any send. */
  ghost predicate EstablishedClean(cs: seq<Conn>, es: seq<Event>, n: nat)
    requires Behaviour(cs, es) && n <= |es|
  {
    forall i :: 0 <= i < n && es[i].Establish? ==> Queued(cs[i]) == [] || cs[i].writing
  }

  /** In every state of a run, while the connection is open, queued bytes are watched for
      writing: if and only if no ConnectionEstablished found some queued unwatched. */
  lemma {:induction false} OpenQueuesWatchedIff(cs: seq<Conn>, es: seq<Event>, n: nat)
    requires Behaviour(cs, es) && cs[0] == Initial() && n <= |es|
    ensures (forall i :: 0 <= i <= n ==> Draining(cs[i])) <==> EstablishedClean(cs, es, n)
  {
    hide Step, Conserved, Draining;
    InitialKeeps();
    if n > 0 {
      OpenQueuesWatchedIff(cs, es, n - 1);
      RunConserves(cs, es, n - 1);
      assert cs[n - 1 + 1] == Step(cs[n - 1], es[n - 1]);
      if forall i :: 0 <= i <= n - 1 ==> Draining(cs[i]) {
        StepDrainsIff(cs[n - 1], es[n - 1]);
      }
    }
  }

  /** In every state of a run the socket is watched for reading exactly while the connection is
      open, and a closed connection is not watched at all. */
  lemma {:induction false} WatchedWhileOpen(cs: seq<Conn>, es: seq<Event>, n: nat)
    requires Behaviour(cs, es) && cs[0] == Initial() && n <= |es|
    ensures cs[n].reading <==> cs[n].state == ESTABLISHED
    ensures cs[n].state == CLOSED ==> !cs[n].writing
  {
    hide Append, Retrieve;
    if n > 0 {
      WatchedWhileOpen(cs, es, n - 1);
      assert cs[n - 1 + 1] == Step(cs[n - 1], es[n - 1]);
    }
  }

  /** A connection re-established after a close with bytes still queued leaves them unwatched. */
  lemma ReestablishedStalls(x: char, y: char)
    ensures var c := Step(Step(Step(Initial(), Establish), Send([x, y], 1)), Close);
            !Draining(Step(c, Establish)) && Queued(Step(c, Establish)) == [y]
  {
    hide Append;
    var c0 := Step(Initial(), Establish);
    assert Queued(c0) == [];
    AppendExtends(c0.send, [x, y][1..]);
  }

  /** Bytes queued when shutdown runs are not sent unless the connection is established again: the
      write handler returns at once and later sends queue behind them. */
  lemma {:induction false} ShutdownStrandsQueue(cs: seq<Conn>, es: seq<Event>, n: nat)
    requires Behaviour(cs, es) && n <= |es|
    requires Usable(cs[0]) && !cs[0].writeable && Queued(cs[0]) != []
    requires forall i :: 0 <= i < |es| ==> !es[i].Establish?
    ensures Usable(cs[n]) && !cs[n].writeable
    ensures cs[n].wire == cs[0].wire && Queued(cs[0]) <= Queued(cs[n])
  {
    hide Step;
    if n > 0 {
      ShutdownStrandsQueue(cs, es, n - 1);
      var c, e := cs[n - 1], es[n - 1];
      assert cs[n - 1 + 1] == Step(c, e);
      assert Queued(c) != [];
      ShutStep(c, e);
    }
  }

  lemma ShutStep(c: Conn, e: Event)
    requires Usable(c) && Possible(c, e) && !c.writeable && Queued(c) != [] && !e.Establish?
    ensures var d := Step(c, e);
            Usable(d) && !d.writeable && d.wire == c.wire && Queued(c) <= Queued(d)
  {
    hide Append;
    if e.Send? { AppendExtends(c.send, e.data); }
  }

  // ---------- When queued bytes can still go out ----------

  /** A run from c without another ConnectionEstablished that puts more bytes on the wire. */
  ghost predicate SendsMore(c: Conn, cs: seq<Conn>, es: seq<Event>) {
    && Behaviour(cs, es) && cs[0] == c
    && (forall i :: 0 <= i < |es| ==> !es[i].Establish?)
    && |cs[|es|].wire| > |c.wire|
  }

  /** The poller reports a socket writable only while it watches it for that. */
  ghost predicate Polled(cs: seq<Conn>, es: seq<Event>) {
    |cs| == |es| + 1 && forall i :: 0 <= i < |es| && es[i].WriteReady? ==> cs[i].writing
  }

  lemma OneByteGoesOut(c: Conn)
    requires Usable(c) && Queued(c) != [] && c.writeable
    ensures SendsMore(c, [c, Step(c, WriteReady(1))], [WriteReady(1)])
  {
    hide Retrieve;
    RetrieveDropsPrefix(c.send, 1);
  }

  /** Queued bytes can still go out, with no further ConnectionEstablished, if and only if
      writeable_ is set. */
  lemma QueueSendableIff(c: Conn)
    requires Usable(c) && Queued(c) != []
    ensures (exists cs, es :: SendsMore(c, cs, es)) <==> c.writeable
  {
    if c.writeable {
      OneByteGoesOut(c);
    } else {
      forall cs, es ensures !SendsMore(c, cs, es) {
        if SendsMore(c, cs, es) { ShutdownStrandsQueue(cs, es, |es|); }
      }
    }
  }

  lemma UnwatchedStep(c: Conn, e: Event)
    requires Usable(c) && Possible(c, e) && !c.writing && Queued(c) != [] && !e.WriteReady?
    ensures var d := Step(c, e);
            Usable(d) && !d.writing && d.wire == c.wire && Queued(c) <= Queued(d)
  {
    hide Append;
    if e.Send? { AppendExtends(c.send, e.data); }
  }

  /** Bytes queued behind an unwatched socket stay there, whatever happens to the connection: only
      a partial direct write turns the watch on, and none is made while bytes are queued. */
  lemma {:induction false} UnwatchedQueueStays(cs: seq<Conn>, es: seq<Event>, n: nat)
    requires Behaviour(cs, es) && Polled(cs, es) && n <= |es|
    requires Usable(cs[0]) && !cs[0].writing && Queued(cs[0]) != []
    ensures Usable(cs[n]) && !cs[n].writing
    ensures cs[n].wire == cs[0].wire && Queued(cs[0]) <= Queued(cs[n])
  {
    hide Step;
    if n > 0 {
      UnwatchedQueueStays(cs, es, n - 1);
      var c, e := cs[n - 1], es[n - 1];
      assert cs[n - 1 + 1] == Step(c, e);
      assert Queued(c) != [];
      UnwatchedStep(c, e);
    }
  }

  /** With write events coming only from the poller the socket must be watched as well. */
  lemma PolledQueueSendableIff(c: Conn)
    requires Usable(c) && Queued(c) != []
    ensures (exists cs, es :: SendsMore(c, cs, es) && Polled(cs, es)) <==> c.writeable && c.writing
  {
    if c.writeable && c.writing {
      OneByteGoesOut(c);
      assert Polled([c, Step(c, WriteReady(1))], [WriteReady(1)]);
    } else {
      forall cs, es ensures !(SendsMore(c, cs, es) && Polled(cs, es)) {
        if SendsMore(c, cs, es) && Polled(cs, es) {
          if c.writeable {
            UnwatchedQueueStays(cs, es, |es|);
          } else {
            ShutdownStrandsQueue(cs, es, |es|);
          }
        }
      }
    }
  }

  /** Half a message taken by the socket, then shutdown: the other half stays queued in every run
      that does not establish the connection again. */
  lemma ShutdownKeepsHalf(x: char, y: char, cs: seq<Conn>, es: seq<Event>)
    requires Behaviour(cs, es) && cs[0] == Step(Step(Step(Initial(), Establish), Send([x, y], 1)), Shutdown)
    requires forall i :: 0 <= i < |es| ==> !es[i].Establish?
    ensures cs[0].state == ESTABLISHED && Queued(cs[0]) == [y] && cs[0].accepted == [x, y]
    ensures cs[|es|].wire == [x]
  {
    hide Append;
    var c0 := Step(Initial(), Establish);
    assert Queued(c0) == [];
    AppendExtends(c0.send, [x, y][1..]);
    assert [x, y][..1] == [x] && [] + [x] == [x] && [] + [x, y] == [x, y];
    ShutdownStrandsQueue(cs, es, |es|);
  }

  // ---------- The object ----------

  class TcpConnection {
    var state: ConnState
    var writeable: bool
    var readable: bool
    // The channel's event mask.
    var reading: bool
    var writing: bool
    const sendBuffer: ByteBuffer
    ghost var wire: Bytes
    ghost var accepted: Bytes

    ghost function Model(): Conn
      reads this, sendBuffer
    {
      Conn(state, writeable, readable, reading, writing, sendBuffer.Model(), wire, accepted)
    }

    constructor ()
      ensures Conserved(Model()) && Model() == Initial() && fresh(sendBuffer)
    {
      state, writeable, readable, reading, writing := CLOSED, false, false, false, false;
      sendBuffer := new ByteBuffer(INITIAL_SIZE);
      wire, accepted := [], [];
    }

    method ConnectionEstablished()
      requires Conserved(Model())
      modifies this
      ensures Conserved(Model()) && Model() == Step(old(Model()), Establish)
    {
      StepConserves(Model(), Establish);
      reading := true;
      state := ESTABLISHED;
      readable := true;
      writeable := true;
    }

    method SendInLoop(data: Bytes, writeCnt: int)
      requires Conserved(Model()) && writeCnt <= |data|
      modifies this, sendBuffer
      ensures Conserved(Model()) && Model() == Step(old(Model()), Send(data, writeCnt))
    {
      hide Append;
      StepConserves(Model(), Send(data, writeCnt));
      if state != ESTABLISHED { return; }
      if sendBuffer.ReadableBytes() > 0 {
        accepted := accepted + data;
        sendBuffer.AppendBytes(data);
      } else if writeCnt >= 0 {
        wire, accepted := wire + data[..writeCnt], accepted + data;
        if writeCnt < |data| {
          sendBuffer.AppendBytes(data[writeCnt..]);
          writing := true;
        }
      }
    }

    method HandleWrite(cnt: int)
      requires Conserved(Model()) && cnt <= sendBuffer.ReadableBytes()
      modifies this, sendBuffer
      ensures Conserved(Model()) && Model() == Step(old(Model()), WriteReady(cnt))
    {
      hide Retrieve;
      StepConserves(Model(), WriteReady(cnt));
      if !writeable { return; }
      if cnt >= 0 {
        wire := wire + sendBuffer.Peek()[..cnt];
        sendBuffer.RetrieveBytes(cnt);
        if sendBuffer.ReadableBytes() == 0 {
          writing := false;
        }
      }
    }

    method HandleClose()
      requires Conserved(Model())
      modifies this
      ensures Conserved(Model()) && Model() == Step(old(Model()), Close)
    {
      StepConserves(Model(), Close);
      state := CLOSED;
      reading, writing := false, false;
    }

    method ShutdownInLoop()
      requires Conserved(Model())
      modifies this
      ensures Conserved(Model()) && Model() == Step(old(Model()), Shutdown)
    {
      StepConserves(Model(), Shutdown);
      if writeable {
        writeable := false;
      }
    }
  }
}
