/** Reactors/net/eventloopthread.cc and actor.cc: handing functors to the loop thread of
    another thread. A producer pushes under the queue's lock and then, as a second step,
    adds one to an eventfd; the loop polls, reads the eventfd, sets pending_, swaps the
    queue out and runs what it got. */
module EventLoop {

  type Tid = nat

  /** Where the loop is: about to poll, handling what poll reported, at the test of pending_,
      or running a swapped-out batch. */
  datatype Pc = Polling | Handling(notified: bool) | Testing | Running

  datatype State<F> = State(
    queue: seq<F>, eventfd: nat, pushing: set<Tid>,
    pc: Pc, pending: bool, batch: seq<F>,
    pushed: seq<F>, executed: seq<F>)

  datatype Event<F> = Push(tid: Tid, f: F) | Notify(tid: Tid) | Loop

  /** The largest value an eventfd holds; a write that would pass it fails and changes nothing. */
  const EVENTFD_MAX: nat := 0xFFFF_FFFF_FFFF_FFFE

  /** pending_ starts with whatever value it has: the constructor does not set it. */
  function Initial<F>(pending: bool): State<F> {
    State([], 0, {}, Polling, pending, [], [], [])
  }

  // ---------- The steps ----------

  function LoopStep<F>(s: State<F>): State<F> {
    match s.pc
    case Polling => s.(pc := Handling(s.eventfd > 0))
    case Handling(notified) =>
      if notified && s.eventfd > 0 then s.(pc := Testing, eventfd := 0, pending := true)
      else s.(pc := Testing)
    case Testing =>
      if s.pending then s.(pc := Running, batch := s.queue, queue := []) else s.(pc := Polling)
    case Running =>
      if s.batch == [] then s.(pc := Polling, pending := false)
      else s.(batch := s.batch[1..], executed := s.executed + [s.batch[0]])
  }

  /** A producer that is between its push and its notify does neither again; others do what they like. */
  function Step<F>(s: State<F>, e: Event<F>): State<F> {
    match e
    case Push(t, f) =>
      if t in s.pushing then s
      else s.(queue := s.queue + [f], pushed := s.pushed + [f], pushing := s.pushing + {t})
    case Notify(t) =>
      if t !in s.pushing then s
      else s.(pushing := s.pushing - {t}, eventfd := if s.eventfd < EVENTFD_MAX then s.eventfd + 1 else s.eventfd)
    case Loop => LoopStep(s)
  }

  function Run<F>(s: State<F>, es: seq<Event<F>>): State<F> {
    if es == [] then s else Step(Run(s, es[..|es| - 1]), es[|es| - 1])
  }

  function LoopRun<F>(s: State<F>, n: nat): State<F>
    decreases n
  {
    if n == 0 then s else LoopRun(LoopStep(s), n - 1)
  }

  // ---------- Invariants ----------

  /** The loop will come to swap the queue without anybody's help: the eventfd is up, or pending_
      is set and not about to be cleared at the end of a batch. */
  predicate Awake<F>(s: State<F>) {
    s.eventfd > 0 || (s.pending && !s.pc.Running?)
  }

  /** A queued functor has a wake-up on the way. */
  ghost predicate NoLostWakeup<F>(s: State<F>) {
    s.queue != [] ==> Awake(s) || s.pushing != {}
  }

  /** Each functor is run once, in push order. */
  ghost predicate ExactlyOnce<F>(s: State<F>) {
    s.executed + s.batch + s.queue == s.pushed && (!s.pc.Running? ==> s.batch == [])
  }

  ghost predicate Inv<F>(s: State<F>) {
    NoLostWakeup(s) && ExactlyOnce(s)
  }

  lemma LoopStepOnce<F>(s: State<F>)
    requires ExactlyOnce(s)
    ensures ExactlyOnce(LoopStep(s))
  {
    if s.pc.Running? && s.batch != [] {
      assert [s.batch[0]] + s.batch[1..] == s.batch;
      assert s.executed + [s.batch[0]] + s.batch[1..] == s.executed + s.batch;
    }
    assert s.executed + s.queue + [] == s.executed + [] + s.queue;
  }

  lemma LoopStepKeeps<F>(s: State<F>)
    requires Inv(s)
    ensures Inv(LoopStep(s))
  {
    LoopStepOnce(s);
  }

  lemma StepKeeps<F>(s: State<F>, e: Event<F>)
    requires Inv(s)
    ensures Inv(Step(s, e))
  {
    match e
    case Push(t, f) =>
      assert t in s.pushing + {t};
      assert s.executed + s.batch + (s.queue + [f]) == s.executed + s.batch + s.queue + [f];
    case Notify(t) =>
    case Loop => LoopStepKeeps(s);
  }

  lemma {:induction false} RunKeeps<F>(pending: bool, es: seq<Event<F>>)
    ensures Inv(Run(Initial(pending), es))
  {
    hide Step;
    if es != [] {
      RunKeeps(pending, es[..|es| - 1]);
      StepKeeps(Run(Initial(pending), es[..|es| - 1]), es[|es| - 1]);
    }
  }

  // ---------- The push history, from the events alone ----------

  /** The producers between their push and their notify. */
  function Pushing<F>(es: seq<Event<F>>): set<Tid> {
    if es == [] then {}
    else
      var front := Pushing(es[..|es| - 1]);
      match es[|es| - 1]
      case Push(t, _) => front + {t}
      case Notify(t) => front - {t}
      case Loop => front
  }

  /** The functors pushed, each by a producer that has notified since its last push. */
  function Pushes<F>(es: seq<Event<F>>): seq<F> {
    if es == [] then []
    else
      var front, e := es[..|es| - 1], es[|es| - 1];
      Pushes(front) + if e.Push? && e.tid !in Pushing(front) then [e.f] else []
  }

  lemma StepPushes<F>(s: State<F>, e: Event<F>)
    ensures var n := Step(s, e);
            && n.pushed == s.pushed + (if e.Push? && e.tid !in s.pushing then [e.f] else [])
            && n.pushing == match e
                            case Push(t, _) => s.pushing + {t}
                            case Notify(t) => s.pushing - {t}
                            case Loop => s.pushing
  {
  }

  lemma {:induction false} PushedIsPushes<F>(pending: bool, es: seq<Event<F>>)
    ensures var s := Run(Initial<F>(pending), es);
            s.pushed == Pushes(es) && s.pushing == Pushing(es)
  {
    hide Step;
    if es != [] {
      PushedIsPushes(pending, es[..|es| - 1]);
      StepPushes(Run(Initial<F>(pending), es[..|es| - 1]), es[|es| - 1]);
    }
  }

  // ---------- Main results ----------

  /** In every interleaving: what has run, the rest of the batch and the queue are the functors of
      the pushes, in order, and a non-empty queue always has a wake-up on the way. */
  lemma EveryRunIsSafe<F>(pending: bool, es: seq<Event<F>>)
    ensures var s := Run(Initial<F>(pending), es);
            && s.executed + s.batch + s.queue == s.pushed == Pushes(es)
            && (s.queue != [] ==> s.eventfd > 0 || s.pushing != {} || (s.pending && !s.pc.Running?))
  {
    RunKeeps(pending, es);
    PushedIsPushes(pending, es);
  }

  lemma {:induction false} LoopRunCompose<F>(s: State<F>, m: nat, n: nat)
    ensures LoopRun(LoopRun(s, m), n) == LoopRun(s, m + n)
    decreases m
  {
    if m > 0 { LoopRunCompose(LoopStep(s), m - 1, n); }
  }

  lemma {:induction false} LoopRunKeeps<F>(s: State<F>, n: nat)
    requires Inv(s)
    ensures Inv(LoopRun(s, n))
    decreases n
  {
    hide Inv, LoopStep;
    if n > 0 {
      LoopStepKeeps(s);
      LoopRunKeeps(LoopStep(s), n - 1);
    }
  }

  lemma {:induction false} FinishBatch<F>(s: State<F>)
    requires s.pc.Running?
    ensures LoopRun(s, |s.batch| + 1) == s.(pc := Polling, pending := false, batch := [], executed := s.executed + s.batch)
    decreases |s.batch|
  {
    if s.batch == [] {
      assert LoopRun(LoopStep(s), 0) == LoopStep(s);
      assert s.executed + [] == s.executed;
    } else {
      var t := LoopStep(s);
      FinishBatch(t);
      assert s.executed + [s.batch[0]] + s.batch[1..] == s.executed + s.batch;
    }
  }

  /** A loop at its test with pending_ set runs everything queued. */
  lemma FromTesting<F>(s: State<F>) returns (n: nat)
    requires ExactlyOnce(s) && s.pc.Testing? && s.pending
    ensures LoopRun(s, n).executed == s.pushed
  {
    var r := LoopStep(s);
    FinishBatch(r);
    n := 1 + |r.batch| + 1;
    assert LoopRun(s, n) == LoopRun(r, |r.batch| + 1);
    assert s.executed + s.batch + s.queue == s.executed + s.queue;
  }

  lemma FromPolling<F>(s: State<F>) returns (n: nat)
    requires ExactlyOnce(s) && s.pc.Polling? && Awake(s)
    ensures LoopRun(s, n).executed == s.pushed
  {
    var a := LoopStep(s);
    var b := LoopStep(a);
    LoopStepOnce(s);
    LoopStepOnce(a);
    assert LoopRun(s, 2) == b by { assert LoopRun(a, 1) == LoopRun(b, 0); }
    n := FromTesting(b);
    LoopRunCompose(s, 2, n);
    n := 2 + n;
  }

  lemma FromTest<F>(s: State<F>) returns (n: nat)
    requires ExactlyOnce(s) && s.pc.Testing? && Awake(s)
    ensures LoopRun(s, n).executed == s.pushed
  {
    if s.pending {
      n := FromTesting(s);
    } else {
      n := FromPolling(LoopStep(s));
      n := n + 1;
    }
  }

  lemma FromRunning<F>(s: State<F>) returns (n: nat)
    requires ExactlyOnce(s) && s.pc.Running? && (s.queue == [] || Awake(s))
    ensures LoopRun(s, n).executed == s.pushed
  {
    FinishBatch(s);
    var m := |s.batch| + 1;
    if s.queue == [] {
      n := m;
    } else {
      var t := LoopRun(s, m);
      assert s.executed + s.batch + [] + s.queue == s.executed + s.batch + s.queue;
      n := FromPolling(t);
      LoopRunCompose(s, m, n);
      n := m + n;
    }
  }

  /** An awake loop, or one with an empty queue, runs everything pushed, wherever it is. */
  lemma FromAnywhere<F>(s: State<F>) returns (n: nat)
    requires ExactlyOnce(s) && (s.queue == [] || Awake(s))
    ensures LoopRun(s, n).executed == s.pushed
  {
    if s.pc.Running? {
      n := FromRunning(s);
    } else if s.queue == [] {
      n := 0;
      assert s.executed + [] + [] == s.executed;
    } else {
      match s.pc
      case Polling => n := FromPolling(s);
      case Handling(_) =>
        LoopStepOnce(s);
        n := FromTest(LoopStep(s));
        n := n + 1;
      case Testing => n := FromTest(s);
    }
  }

  /** A loop that is not awake finishes the batch in hand, if any, and never touches the queue: a
      push straight into the actor's queue, as TcpServer::RemoveTcpConnection does, is run only when
      something else wakes the loop. */
  lemma {:induction false} UnnotifiedPushWaits<F>(s: State<F>, n: nat)
    requires !Awake(s)
    ensures var t := LoopRun(s, n);
            && !Awake(t) && t.queue == s.queue && t.executed + t.batch == s.executed + s.batch
            && (!s.pc.Running? ==> t.executed == s.executed)
    decreases n
  {
    if n > 0 {
      var r := LoopStep(s);
      UnnotifiedPushWaits(r, n - 1);
      if s.pc.Running? && s.batch != [] {
        assert s.executed + [s.batch[0]] + s.batch[1..] == s.executed + s.batch;
      }
    }
  }

  /** Left to itself the loop gets everything pushed so far run if and only if nothing is queued or
      it is awake, that is: the eventfd is up, or pending_ is set and no batch is running. */
  lemma LoopRunsAllIff<F>(s: State<F>)
    requires ExactlyOnce(s)
    ensures (exists n: nat :: LoopRun(s, n).executed == s.pushed) <==>
              s.queue == [] || s.eventfd > 0 || (s.pending && !s.pc.Running?)
  {
    hide LoopRun, LoopStep;
    if s.queue == [] || Awake(s) {
      var n := FromAnywhere(s);
    } else {
      forall n: nat ensures LoopRun(s, n).executed != s.pushed {
        UnnotifiedPushWaits(s, n);
        var t := LoopRun(s, n);
        assert |t.executed| + |t.batch| == |s.executed + s.batch|;
      }
    }
  }

  /** Whenever every producer has finished notifying, the loop by itself, in finitely many
      steps, runs every functor pushed so far. */
  lemma EverythingPushedGetsRun<F>(pending: bool, es: seq<Event<F>>) returns (n: nat)
    requires Run(Initial<F>(pending), es).pushing == {}
    ensures LoopRun(Run(Initial<F>(pending), es), n).executed == Run(Initial<F>(pending), es).pushed == Pushes(es)
  {
    hide Run, ExactlyOnce, LoopStep;
    RunKeeps(pending, es);
    PushedIsPushes(pending, es);
    n := FromAnywhere(Run(Initial<F>(pending), es));
  }

  /** A single push with no notify, pending_ having started false: the loop never runs it. */
  lemma UnnotifiedPushNeverRuns<F>(t: Tid, f: F, n: nat)
    ensures var s := Run(Initial<F>(false), [Push(t, f)]);
            s.pushed == [f] && LoopRun(s, n).executed == [] && LoopRun(s, n).queue == [f]
  {
    var e := Push(t, f);
    assert [e][..0] == [] && Run(Initial<F>(false), []) == Initial<F>(false);
    var s := Run(Initial<F>(false), [e]);
    assert s == Step(Initial<F>(false), e);
    assert s.queue == [] + [f] && s.pushed == [] + [f];
    UnnotifiedPushWaits(s, n);
  }

  /** A push during the last stretch of a batch, after its swap: clearing pending_ at the end of
      the batch leaves it queued as well. */
  lemma PushDuringBatchWaits<F>(t: Tid, f: F, n: nat)
    ensures var s := Run(Initial<F>(true), [Loop, Loop, Loop, Push(t, f)]);
            s.pc.Running? && s.pushed == [f] && LoopRun(s, n).executed == [] && LoopRun(s, n).queue == [f]
  {
    var i := Initial<F>(true);
    var es := [Loop, Loop, Loop, Push(t, f)];
    assert es[..3][..2] == es[..2] && es[..2][..1] == es[..1] && es[..1][..0] == [];
    assert Run(i, []) == i;
    assert Run(i, es[..1]) == LoopStep(i);
    assert Run(i, es[..2]) == LoopStep(LoopStep(i));
    assert Run(i, es[..3]) == LoopStep(LoopStep(LoopStep(i)));
    var s := Run(i, es);
    assert s.queue == [] + [f] && s.pushed == [] + [f];
    UnnotifiedPushWaits(s, n);
    assert LoopRun(s, n).executed + LoopRun(s, n).batch == [] + [];
  }

  /** A notify that comes after poll has returned without it is left for the next round. */
  lemma LateNotifyWaitsARound<F>(s: State<F>)
    requires s.pc == Handling(false) && !s.pending && s.eventfd > 0
    ensures LoopRun(s, 2) == s.(pc := Polling)
    ensures var t := LoopRun(s, 4); t.pc.Testing? && t.pending && t.eventfd == 0 && t.queue == s.queue
  {
    var a := LoopStep(s);
    var b := LoopStep(a);
    var c := LoopStep(b);
    var d := LoopStep(c);
    assert LoopRun(d, 0) == d && LoopRun(c, 1) == d && LoopRun(b, 2) == d;
    assert LoopRun(a, 3) == d && LoopRun(s, 4) == d;
    assert LoopRun(b, 0) == b && LoopRun(a, 1) == b && LoopRun(s, 2) == b;
  }

  // ---------- The objects ----------

  class EventLoopThread<F(!new)> {
    // The actor's queue_, pending_ and the local batch of DoPendingFunctors; the eventfd.
    var queue: seq<F>
    var pending: bool
    var batch: seq<F>
    var eventfd: nat
    var pushing: set<Tid>
    ghost var pc: Pc
    ghost var pushed: seq<F>
    ghost var executed: seq<F>

    ghost function Model(): State<F>
      reads this
    {
      State(queue, eventfd, pushing, pc, pending, batch, pushed, executed)
    }

    constructor (pending: bool)
      ensures Model() == Initial<F>(pending)
    {
      queue, this.pending, batch, eventfd, pushing := [], pending, [], 0, {};
      pc, pushed, executed := Polling, [], [];
    }

    /** The first half of QueueInLoop from another thread. */
    method QueueInActor(t: Tid, f: F)
      requires Inv(Model()) && t !in pushing
      modifies this
      ensures Inv(Model()) && Model() == Step(old(Model()), Push(t, f))
      ensures queue == old(queue) + [f] && pushed == old(pushed) + [f] && pushing == old(pushing) + {t}
    {
      StepKeeps(Model(), Push(t, f));
      queue, pushed := queue + [f], pushed + [f];
      pushing := pushing + {t};
    }

    /** The second half of QueueInLoop. */
    method NotifyEvent(t: Tid)
      requires Inv(Model()) && t in pushing
      modifies this
      ensures Inv(Model()) && Model() == Step(old(Model()), Notify(t))
      ensures eventfd > 0 && pushing == old(pushing) - {t} && queue == old(queue)
    {
      StepKeeps(Model(), Notify(t));
      if eventfd < EVENTFD_MAX { eventfd := eventfd + 1; }
      pushing := pushing - {t};
    }

    method ReadNotifyEvents()
      requires Inv(Model()) && pc.Handling? && pc.notified
      modifies this
      ensures Inv(Model()) && Model() == LoopStep(old(Model()))
      ensures old(eventfd) > 0 ==> pending && eventfd == 0
    {
      LoopStepKeeps(Model());
      if eventfd > 0 {
        eventfd := 0;
        pending := true;
      }
      pc := Testing;
    }

    /** The whole of DoPendingFunctors, when nobody pushes meanwhile: the loop over the batch. */
    method DoPendingFunctors() returns (ran: seq<F>)
      requires Inv(Model()) && pc.Testing? && pending
      modifies this
      ensures ran == old(queue) && queue == [] && executed == old(executed) + ran && !pending
      ensures Inv(Model()) && Model() == LoopRun(old(Model()), |ran| + 2)
    {
      ghost var s := Model();
      LoopRunKeeps(s, |queue| + 2);
      var tmp := queue;
      queue := [];
      batch, pc := tmp, Running;
      FinishBatch(Model());
      ghost var r := Model();
      ran := [];
      for i := 0 to |tmp|
        invariant Model() == r.(batch := tmp[i..], executed := r.executed + tmp[..i])
        invariant ran == tmp[..i]
      {
        ran := ran + [tmp[i]];
        executed := executed + [tmp[i]];
        batch := batch[1..];
      }
      pending := false;
      pc := Polling;
      assert LoopStep(s) == r && LoopRun(s, |tmp| + 2) == LoopRun(r, |tmp| + 1);
    }
  }
}
