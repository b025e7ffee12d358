/** Reactors/base/ThreadPool.cc: a task queue, possibly bounded, served by worker threads
    and shut down by stop. A step is one stretch of one thread: a submission's first pass,
    a worker's test of running_, its pass through take, a re-check after a wake-up, a
    spurious wake-up, or stop's critical section. */
module ThreadPool {
  import opened Wrappers
  import Waiting

  type Tid = nat

  datatype State<Task> = State(
    maxQueueSize: nat, running: bool, queue: seq<Task>,
    // Workers: outside take, past the test of running_, in take's wait, released from it, gone.
    idle: set<Tid>, entering: set<Tid>, sleepingTake: set<Tid>, wokenTake: set<Tid>, exited: set<Tid>,
    // Threads in run's wait, and released from it, with what each is submitting.
    sleepingRun: set<Tid>, wokenRun: set<Tid>, argument: map<Tid, Task>,
    submitted: seq<Task>, handedOut: seq<Task>)

  /** `wakes` is the thread the notify of this step picks, if any thread sleeps on that condition. */
  datatype Event<Task> =
    | Submit(tid: Tid, task: Task, wakes: Tid)
    | RecheckRun(tid: Tid, wakes: Tid)
    | TestRunning(tid: Tid)
    | EnterTake(tid: Tid, wakes: Tid)
    | RecheckTake(tid: Tid, wakes: Tid)
    | Spurious(tid: Tid)
    | Stop

  /** A pool after start. With no workers run never touches the pool: the caller does the task itself. */
  function Started<Task>(maxQueueSize: nat, workers: set<Tid>): State<Task> {
    State(maxQueueSize, true, [], workers, {}, {}, {}, {}, {}, {}, map[], [], [])
  }

  predicate IsFull<Task>(s: State<Task>) {
    s.maxQueueSize > 0 && |s.queue| >= s.maxQueueSize
  }

  predicate InRun<Task>(s: State<Task>, t: Tid) {
    t in s.sleepingRun || t in s.wokenRun
  }

  predicate InTake<Task>(s: State<Task>, t: Tid) {
    t in s.entering || t in s.sleepingTake || t in s.wokenTake || t in s.exited
  }

  predicate MayNotify(sleeping: set<Tid>, wakes: Tid) {
    sleeping == {} || wakes in sleeping
  }

  // ---------- The steps ----------

  function NotifyNotEmpty<Task>(s: State<Task>, wakes: Tid): State<Task> {
    if wakes in s.sleepingTake then
      s.(sleepingTake := s.sleepingTake - {wakes}, wokenTake := s.wokenTake + {wakes})
    else s
  }

  function NotifyNotFull<Task>(s: State<Task>, wakes: Tid): State<Task> {
    if wakes in s.sleepingRun then
      s.(sleepingRun := s.sleepingRun - {wakes}, wokenRun := s.wokenRun + {wakes})
    else s
  }

  /** run, from the top of its while loop. */
  function RunPass<Task>(s: State<Task>, t: Tid, task: Task, wakes: Tid): State<Task> {
    if IsFull(s) then s.(sleepingRun := s.sleepingRun + {t}, argument := s.argument[t := task])
    else NotifyNotEmpty(s.(queue := s.queue + [task], submitted := s.submitted + [task]), wakes)
  }

  /** take, from the top of its while loop; the worker then runs what it got, if anything. */
  function TakePass<Task>(s: State<Task>, t: Tid, wakes: Tid): State<Task> {
    if s.queue == [] then
      if s.running then s.(sleepingTake := s.sleepingTake + {t}) else s.(idle := s.idle + {t})
    else
      var p := s.(queue := s.queue[1..], handedOut := s.handedOut + [s.queue[0]], idle := s.idle + {t});
      if s.maxQueueSize > 0 then NotifyNotFull(p, wakes) else p
  }

  predicate Enabled<Task>(s: State<Task>, e: Event<Task>) {
    match e
    case Submit(t, _, wakes) => !InRun(s, t) && !InTake(s, t) && MayNotify(s.sleepingTake, wakes)
    case RecheckRun(t, wakes) => t in s.wokenRun && t in s.argument && MayNotify(s.sleepingTake, wakes)
    case TestRunning(t) => t in s.idle && !InRun(s, t)
    case EnterTake(t, wakes) => t in s.entering && MayNotify(s.sleepingRun, wakes)
    case RecheckTake(t, wakes) => t in s.wokenTake && MayNotify(s.sleepingRun, wakes)
    case Spurious(t) => t in s.sleepingRun || t in s.sleepingTake
    case Stop => true
  }

  function Step<Task>(s: State<Task>, e: Event<Task>): State<Task>
    requires Enabled(s, e)
  {
    match e
    case Submit(t, task, wakes) => RunPass(s, t, task, wakes)
    case RecheckRun(t, wakes) => RunPass(s.(wokenRun := s.wokenRun - {t}), t, s.argument[t], wakes)
    case TestRunning(t) =>
      var p := s.(idle := s.idle - {t});
      if s.running then p.(entering := s.entering + {t}) else p.(exited := s.exited + {t})
    case EnterTake(t, wakes) => TakePass(s.(entering := s.entering - {t}), t, wakes)
    case RecheckTake(t, wakes) => TakePass(s.(wokenTake := s.wokenTake - {t}), t, wakes)
    case Spurious(t) => if t in s.sleepingRun then NotifyNotFull(s, t) else NotifyNotEmpty(s, t)
    case Stop => s.(running := false, wokenTake := s.wokenTake + s.sleepingTake, sleepingTake := {})
  }

  /** Any list of events is a run: those not enabled when their turn comes do not happen. */
  function Run<Task>(s: State<Task>, es: seq<Event<Task>>): State<Task> {
    if es == [] then s
    else
      var t := Run(s, es[..|es| - 1]);
      if Enabled(t, es[|es| - 1]) then Step(t, es[|es| - 1]) else t
  }

  // ---------- Invariants ----------

  /** No worker is in two places, no thread is both in run and in take, and every waiting
      submission remembers its task. */
  ghost predicate Apart<Task>(s: State<Task>) {
    && (forall t :: t in s.idle ==>
          t !in s.entering && t !in s.sleepingTake && t !in s.wokenTake && t !in s.exited)
    && (forall t :: t in s.entering ==> t !in s.sleepingTake && t !in s.wokenTake && t !in s.exited)
    && (forall t :: t in s.sleepingTake ==> t !in s.wokenTake && t !in s.exited)
    && (forall t :: t in s.wokenTake ==> t !in s.exited)
    && (forall t :: t in s.sleepingRun ==>
          t in s.argument && t !in s.wokenRun && t !in s.entering && t !in s.sleepingTake && t !in s.wokenTake && t !in s.exited)
    && (forall t :: t in s.wokenRun ==>
          t in s.argument && t !in s.entering && t !in s.sleepingTake && t !in s.wokenTake && t !in s.exited)
  }

  /** `run` and `take` count a released thread that is re-checking right now. */
  ghost predicate NoLostWakeup<Task>(s: State<Task>, run: nat, take: nat) {
    && (s.maxQueueSize > 0 ==> |s.queue| <= s.maxQueueSize)
    && (s.sleepingTake != {} ==> s.running && |s.queue| <= |s.wokenTake| + take)
    && (s.sleepingRun != {} ==> s.maxQueueSize > 0 && s.maxQueueSize - |s.queue| <= |s.wokenRun| + run)
  }

  ghost predicate Fifo<Task>(s: State<Task>) {
    s.handedOut + s.queue == s.submitted
  }

  ghost predicate Inv<Task>(s: State<Task>) {
    Apart(s) && NoLostWakeup(s, 0, 0) && Fifo(s)
  }

  lemma InvIntro<Task>(s: State<Task>)
    requires Apart(s) && NoLostWakeup(s, 0, 0) && Fifo(s)
    ensures Inv(s)
  {
  }

  lemma NotifyCounts<Task>(s: State<Task>, wakes: Tid)
    requires Apart(s)
    ensures var n := NotifyNotEmpty(s, wakes);
            |n.wokenTake| == |s.wokenTake| + if wakes in s.sleepingTake then 1 else 0
    ensures var n := NotifyNotFull(s, wakes);
            |n.wokenRun| == |s.wokenRun| + if wakes in s.sleepingRun then 1 else 0
  {
  }

  lemma NotifyPlaces<Task>(s: State<Task>, wakes: Tid)
    requires Apart(s)
    ensures Apart(NotifyNotEmpty(s, wakes)) && Apart(NotifyNotFull(s, wakes))
  {
  }

  lemma RunPassPlaces<Task>(s: State<Task>, t: Tid, task: Task, wakes: Tid)
    requires Apart(s) && !InRun(s, t) && !InTake(s, t)
    ensures Apart(RunPass(s, t, task, wakes))
  {
    hide NotifyNotEmpty;
    if !IsFull(s) {
      NotifyPlaces(s.(queue := s.queue + [task], submitted := s.submitted + [task]), wakes);
    }
  }

  lemma RunPassCounts<Task>(s: State<Task>, t: Tid, task: Task, wakes: Tid)
    requires Apart(s) && NoLostWakeup(s, 1, 0) && MayNotify(s.sleepingTake, wakes)
    ensures NoLostWakeup(RunPass(s, t, task, wakes), 0, 0)
  {
    hide Apart;
    if !IsFull(s) {
      var p := s.(queue := s.queue + [task], submitted := s.submitted + [task]);
      SamePlaces(s, p);
      NotifyCounts(p, wakes);
    }
  }

  /** Places do not depend on the queue. */
  lemma SamePlaces<Task>(s: State<Task>, p: State<Task>)
    requires Apart(s) && p == s.(queue := p.queue, submitted := p.submitted, handedOut := p.handedOut, running := p.running)
    ensures Apart(p)
  {
  }

  lemma TakePassPlaces<Task>(s: State<Task>, t: Tid, wakes: Tid)
    requires Apart(s) && !InRun(s, t) && !InTake(s, t) && t !in s.idle
    ensures Apart(TakePass(s, t, wakes))
  {
    hide NotifyNotFull;
    if s.queue != [] {
      var p := s.(queue := s.queue[1..], handedOut := s.handedOut + [s.queue[0]], idle := s.idle + {t});
      assert Apart(p);
      NotifyPlaces(p, wakes);
    }
  }

  lemma TakePassCounts<Task>(s: State<Task>, t: Tid, wakes: Tid)
    requires Apart(s) && NoLostWakeup(s, 0, 1) && MayNotify(s.sleepingRun, wakes) && !InTake(s, t)
    ensures NoLostWakeup(TakePass(s, t, wakes), 0, 0)
  {
    if s.queue != [] {
      var p := s.(queue := s.queue[1..], handedOut := s.handedOut + [s.queue[0]], idle := s.idle + {t});
      assert Apart(p);
      NotifyCounts(p, wakes);
    }
  }

  lemma RunPassFifo<Task>(s: State<Task>, t: Tid, task: Task, wakes: Tid)
    requires Fifo(s)
    ensures Fifo(RunPass(s, t, task, wakes))
  {
    assert s.handedOut + (s.queue + [task]) == s.submitted + [task];
  }

  lemma TakePassFifo<Task>(s: State<Task>, t: Tid, wakes: Tid)
    requires Fifo(s)
    ensures Fifo(TakePass(s, t, wakes))
  {
    if s.queue != [] {
      assert (s.handedOut + [s.queue[0]]) + s.queue[1..] == s.submitted;
    }
  }

  lemma RunPassKeeps<Task>(s: State<Task>, t: Tid, task: Task, wakes: Tid)
    requires Apart(s) && NoLostWakeup(s, 1, 0) && Fifo(s)
    requires !InRun(s, t) && !InTake(s, t) && MayNotify(s.sleepingTake, wakes)
    ensures Inv(RunPass(s, t, task, wakes))
  {
    hide *;
    RunPassPlaces(s, t, task, wakes);
    RunPassCounts(s, t, task, wakes);
    RunPassFifo(s, t, task, wakes);
    InvIntro(RunPass(s, t, task, wakes));
  }

  lemma TakePassKeeps<Task>(s: State<Task>, t: Tid, wakes: Tid)
    requires Apart(s) && NoLostWakeup(s, 0, 1) && Fifo(s)
    requires !InRun(s, t) && !InTake(s, t) && t !in s.idle && MayNotify(s.sleepingRun, wakes)
    ensures Inv(TakePass(s, t, wakes))
  {
    hide *;
    TakePassPlaces(s, t, wakes);
    TakePassCounts(s, t, wakes);
    TakePassFifo(s, t, wakes);
    InvIntro(TakePass(s, t, wakes));
  }

  lemma SpuriousKeeps<Task>(s: State<Task>, t: Tid)
    requires Inv(s) && (t in s.sleepingRun || t in s.sleepingTake)
    ensures t in s.sleepingRun ==> Inv(NotifyNotFull(s, t))
    ensures t in s.sleepingTake ==> Inv(NotifyNotEmpty(s, t))
  {
    hide Apart;
    NotifyPlaces(s, t);
    NotifyCounts(s, t);
  }

  lemma LeavesWokenRun<Task>(s: State<Task>, t: Tid)
    requires Inv(s) && t in s.wokenRun
    ensures var r := s.(wokenRun := s.wokenRun - {t});
            !InRun(r, t) && !InTake(r, t) && Apart(r) && NoLostWakeup(r, 1, 0) && Fifo(r)
  {
  }

  lemma LeavesWokenTake<Task>(s: State<Task>, t: Tid)
    requires Inv(s) && t in s.wokenTake
    ensures var r := s.(wokenTake := s.wokenTake - {t});
            !InRun(r, t) && !InTake(r, t) && t !in r.idle && Apart(r) && NoLostWakeup(r, 0, 1) && Fifo(r)
  {
  }

  lemma LeavesEntering<Task>(s: State<Task>, t: Tid)
    requires Inv(s) && t in s.entering
    ensures var r := s.(entering := s.entering - {t});
            !InRun(r, t) && !InTake(r, t) && t !in r.idle && Apart(r) && NoLostWakeup(r, 0, 1) && Fifo(r)
  {
  }

  lemma TestRunningKeeps<Task>(s: State<Task>, t: Tid)
    requires Inv(s) && Enabled(s, TestRunning(t))
    ensures Inv(Step(s, TestRunning(t)))
  {
  }

  lemma StopKeeps<Task>(s: State<Task>)
    requires Inv(s)
    ensures Inv(Step(s, Stop))
  {
  }

  lemma StepKeeps<Task>(s: State<Task>, e: Event<Task>)
    requires Inv(s) && Enabled(s, e)
    ensures Inv(Step(s, e))
  {
    hide RunPass, TakePass, NotifyNotFull, NotifyNotEmpty, Apart, Fifo;
    match e
    case Submit(t, task, wakes) => RunPassKeeps(s, t, task, wakes);
    case RecheckRun(t, wakes) =>
      LeavesWokenRun(s, t);
      RunPassKeeps(s.(wokenRun := s.wokenRun - {t}), t, s.argument[t], wakes);
    case TestRunning(t) => TestRunningKeeps(s, t);
    case EnterTake(t, wakes) =>
      LeavesEntering(s, t);
      TakePassKeeps(s.(entering := s.entering - {t}), t, wakes);
    case RecheckTake(t, wakes) =>
      LeavesWokenTake(s, t);
      TakePassKeeps(s.(wokenTake := s.wokenTake - {t}), t, wakes);
    case Spurious(t) => SpuriousKeeps(s, t);
    case Stop => StopKeeps(s);
  }

  lemma StartedInv<Task>(maxQueueSize: nat, workers: set<Tid>)
    ensures Inv(Started<Task>(maxQueueSize, workers))
  {
  }

  lemma {:induction false} RunKeeps<Task>(s: State<Task>, es: seq<Event<Task>>)
    requires Inv(s)
    ensures Inv(Run(s, es))
  {
    hide Inv, Enabled, Step;
    if es != [] {
      RunKeeps(s, es[..|es| - 1]);
      var t := Run(s, es[..|es| - 1]);
      if Enabled(t, es[|es| - 1]) { StepKeeps(t, es[|es| - 1]); }
    }
  }

  lemma MaxSizeStays<Task>(s: State<Task>, e: Event<Task>)
    requires Enabled(s, e)
    ensures Step(s, e).maxQueueSize == s.maxQueueSize
    ensures !s.running ==> !Step(s, e).running
  {
  }

  lemma {:induction false} ConstantsStay<Task>(s: State<Task>, es: seq<Event<Task>>)
    ensures Run(s, es).maxQueueSize == s.maxQueueSize
    ensures !s.running ==> !Run(s, es).running
  {
    hide Enabled, Step;
    if es != [] {
      ConstantsStay(s, es[..|es| - 1]);
      var t := Run(s, es[..|es| - 1]);
      if Enabled(t, es[|es| - 1]) { MaxSizeStays(t, es[|es| - 1]); }
    }
  }

  // ---------- Main results ----------

  /** In every run the bound holds, tasks are handed out in submission order, each at most
      once, and no wake-up is lost on either condition. */
  lemma EveryRunIsSafe<Task>(maxQueueSize: nat, workers: set<Tid>, es: seq<Event<Task>>)
    ensures var s := Run(Started<Task>(maxQueueSize, workers), es);
            && (maxQueueSize > 0 ==> |s.queue| <= maxQueueSize)
            && s.handedOut + s.queue == s.submitted
            && (s.sleepingTake != {} ==> |s.queue| <= |s.wokenTake|)
            && (s.sleepingRun != {} ==> maxQueueSize > 0 && maxQueueSize - |s.queue| <= |s.wokenRun|)
  {
    hide Run;
    StartedInv<Task>(maxQueueSize, workers);
    RunKeeps(Started<Task>(maxQueueSize, workers), es);
    ConstantsStay(Started<Task>(maxQueueSize, workers), es);
  }

  // ---------- Every submission is accounted for ----------

  /** The tasks of the calls of run that were made in a run of the pool. */
  function SubmittedTasks<Task>(s: State<Task>, es: seq<Event<Task>>): multiset<Task> {
    if es == [] then multiset{}
    else
      var front, e := es[..|es| - 1], es[|es| - 1];
      SubmittedTasks(s, front) +
      if e.Submit? && Enabled(Run(s, front), e) then multiset{e.task} else multiset{}
  }

  /** The task of thread t's last call of run. */
  function LastSubmitted<Task>(s: State<Task>, es: seq<Event<Task>>, t: Tid): Option<Task> {
    if es == [] then None
    else
      var front, e := es[..|es| - 1], es[|es| - 1];
      if e.Submit? && e.tid == t && Enabled(Run(s, front), e) then Some(e.task)
      else LastSubmitted(s, front, t)
  }

  function Submitters<Task>(s: State<Task>): set<Tid> {
    s.sleepingRun + s.wokenRun
  }

  ghost predicate Remembers<Task>(s: State<Task>) {
    Submitters(s) <= s.argument.Keys
  }

  /** What has been submitted and what is waiting to be. */
  ghost function Offered<Task>(s: State<Task>): multiset<Task>
    requires Remembers(s)
  {
    multiset(s.submitted) + Waiting.Carried(s.argument, Submitters(s))
  }

  lemma NotifyOffers<Task>(s: State<Task>, wakes: Tid)
    requires Remembers(s)
    ensures Remembers(NotifyNotEmpty(s, wakes)) && Offered(NotifyNotEmpty(s, wakes)) == Offered(s)
    ensures Remembers(NotifyNotFull(s, wakes)) && Offered(NotifyNotFull(s, wakes)) == Offered(s)
  {
    assert Submitters(NotifyNotFull(s, wakes)) == Submitters(s);
  }

  lemma RunPassOffers<Task>(s: State<Task>, t: Tid, task: Task, wakes: Tid)
    requires Remembers(s) && !InRun(s, t)
    ensures var n := RunPass(s, t, task, wakes);
            Remembers(n) && Offered(n) == Offered(s) + multiset{task}
  {
    hide NotifyNotEmpty;
    if IsFull(s) {
      Waiting.CarriedJoins(s.argument, Submitters(s), t, task);
      assert Submitters(RunPass(s, t, task, wakes)) == Submitters(s) + {t};
    } else {
      NotifyOffers(s.(queue := s.queue + [task], submitted := s.submitted + [task]), wakes);
    }
  }

  lemma TakePassOffers<Task>(s: State<Task>, t: Tid, wakes: Tid)
    requires Remembers(s)
    ensures Remembers(TakePass(s, t, wakes)) && Offered(TakePass(s, t, wakes)) == Offered(s)
  {
    hide NotifyNotFull;
    if s.queue != [] {
      NotifyOffers(s.(queue := s.queue[1..], handedOut := s.handedOut + [s.queue[0]], idle := s.idle + {t}), wakes);
    }
  }

  lemma InvRemembers<Task>(s: State<Task>)
    requires Inv(s)
    ensures Remembers(s)
    ensures forall t :: t in s.wokenRun ==> t !in s.sleepingRun
  {
  }

  lemma SameOffers<Task>(s: State<Task>, r: State<Task>)
    requires Remembers(s) && r.argument == s.argument && r.submitted == s.submitted
    requires r.sleepingRun == s.sleepingRun && r.wokenRun == s.wokenRun
    ensures Remembers(r) && Offered(r) == Offered(s)
  {
  }

  lemma LeavesOffers<Task>(s: State<Task>, t: Tid)
    requires Remembers(s) && t in s.wokenRun && t !in s.sleepingRun
    ensures t in s.argument
    ensures var r := s.(wokenRun := s.wokenRun - {t});
            Remembers(r) && !InRun(r, t) && Offered(s) == Offered(r) + multiset{s.argument[t]}
  {
    var r := s.(wokenRun := s.wokenRun - {t});
    Waiting.CarriedWithout(s.argument, Submitters(s), t);
    assert Submitters(r) == Submitters(s) - {t};
  }

  lemma StepOffers<Task>(s: State<Task>, e: Event<Task>)
    requires Inv(s) && Enabled(s, e)
    ensures Remembers(s)
    ensures var n := Step(s, e);
            Remembers(n) && Offered(n) == Offered(s) + if e.Submit? then multiset{e.task} else multiset{}
  {
    hide RunPass, TakePass, NotifyNotFull, NotifyNotEmpty, Inv, Remembers, Offered, MayNotify;
    InvRemembers(s);
    match e
    case Submit(t, task, wakes) => RunPassOffers(s, t, task, wakes);
    case RecheckRun(t, wakes) =>
      LeavesOffers(s, t);
      RunPassOffers(s.(wokenRun := s.wokenRun - {t}), t, s.argument[t], wakes);
    case TestRunning(t) => SameOffers(s, Step(s, e));
    case EnterTake(t, wakes) =>
      SameOffers(s, s.(entering := s.entering - {t}));
      TakePassOffers(s.(entering := s.entering - {t}), t, wakes);
    case RecheckTake(t, wakes) =>
      SameOffers(s, s.(wokenTake := s.wokenTake - {t}));
      TakePassOffers(s.(wokenTake := s.wokenTake - {t}), t, wakes);
    case Spurious(t) => NotifyOffers(s, t);
    case Stop => SameOffers(s, Step(s, e));
  }

  /** A step gives a waiting thread no other task than the one it called run with. */
  lemma StepRemembers<Task>(s: State<Task>, e: Event<Task>, t: Tid)
    requires Inv(s) && Enabled(s, e) && InRun(Step(s, e), t)
    ensures t in Step(s, e).argument
    ensures if e.Submit? && e.tid == t then Step(s, e).argument[t] == e.task
            else InRun(s, t) && t in s.argument && Step(s, e).argument[t] == s.argument[t]
  {
    hide NoLostWakeup, Fifo;
  }

  lemma {:induction false} RunRemembers<Task>(maxQueueSize: nat, workers: set<Tid>, es: seq<Event<Task>>, t: Tid)
    requires InRun(Run(Started<Task>(maxQueueSize, workers), es), t)
    ensures var s0 := Started<Task>(maxQueueSize, workers);
            var s := Run(s0, es);
            t in s.argument && LastSubmitted(s0, es, t) == Some(s.argument[t])
    decreases |es|
  {
    hide Step, Enabled, Inv;
    var s0 := Started<Task>(maxQueueSize, workers);
    if es != [] {
      var front, e := es[..|es| - 1], es[|es| - 1];
      var s := Run(s0, front);
      StartedInv<Task>(maxQueueSize, workers);
      RunKeeps(s0, front);
      if Enabled(s, e) { StepRemembers(s, e, t); }
      if InRun(s, t) { RunRemembers(maxQueueSize, workers, front, t); }
    }
  }

  lemma {:induction false} RunOffers<Task>(maxQueueSize: nat, workers: set<Tid>, es: seq<Event<Task>>)
    ensures var s0 := Started<Task>(maxQueueSize, workers);
            var s := Run(s0, es);
            Remembers(s) && Offered(s) == SubmittedTasks(s0, es)
    decreases |es|
  {
    hide Step, Enabled, Inv, Offered, Remembers;
    var s0 := Started<Task>(maxQueueSize, workers);
    if es == [] {
      NothingOffered<Task>(maxQueueSize, workers);
    } else {
      var front, e := es[..|es| - 1], es[|es| - 1];
      RunOffers(maxQueueSize, workers, front);
      StartedInv<Task>(maxQueueSize, workers);
      RunKeeps(s0, front);
      if Enabled(Run(s0, front), e) { StepOffers(Run(s0, front), e); }
    }
  }

  lemma NothingOffered<Task>(maxQueueSize: nat, workers: set<Tid>)
    ensures var s := Started<Task>(maxQueueSize, workers);
            Remembers(s) && Offered(s) == multiset{}
  {
  }

  /** In every run each task given to run has been handed out once, is queued once, or is still
      carried by the thread that called run with it, and nothing else is. */
  lemma EverySubmissionAccounted<Task>(maxQueueSize: nat, workers: set<Tid>, es: seq<Event<Task>>)
    ensures var s0 := Started<Task>(maxQueueSize, workers);
            var s := Run(s0, es);
            && s.sleepingRun + s.wokenRun <= s.argument.Keys
            && multiset(s.handedOut + s.queue) + Waiting.Carried(s.argument, s.sleepingRun + s.wokenRun) ==
               SubmittedTasks(s0, es)
            && forall t :: t in s.sleepingRun + s.wokenRun ==> LastSubmitted(s0, es, t) == Some(s.argument[t])
  {
    hide Run, SubmittedTasks, LastSubmitted, Apart;
    var s0 := Started<Task>(maxQueueSize, workers);
    var s := Run(s0, es);
    StartedInv<Task>(maxQueueSize, workers);
    RunKeeps(s0, es);
    RunOffers(maxQueueSize, workers, es);
    forall t | t in Submitters(s) ensures LastSubmitted(s0, es, t) == Some(s.argument[t]) {
      RunRemembers(maxQueueSize, workers, es, t);
    }
  }

  // ---------- After stop ----------

  /** Workers that may still take one more task after stop. */
  function MayTake<Task>(s: State<Task>): nat {
    |s.entering| + |s.sleepingTake| + |s.wokenTake|
  }

  lemma StoppedStep<Task>(s: State<Task>, e: Event<Task>)
    requires Inv(s) && !s.running && Enabled(s, e)
    ensures var t := Step(s, e);
            |t.handedOut| + MayTake(t) <= |s.handedOut| + MayTake(s)
  {
    hide Apart, Fifo, MayNotify, TakePass;
    assert s.sleepingTake == {};
    match e
    case Submit(t, task, wakes) =>
    case RecheckRun(t, wakes) =>
    case TestRunning(t) =>
    case EnterTake(t, wakes) =>
      TakePassStopped(s.(entering := s.entering - {t}), t, wakes);
    case RecheckTake(t, wakes) =>
      TakePassStopped(s.(wokenTake := s.wokenTake - {t}), t, wakes);
    case Spurious(t) =>
    case Stop =>
      assert s.wokenTake + s.sleepingTake == s.wokenTake;
  }

  lemma TakePassStopped<Task>(s: State<Task>, t: Tid, wakes: Tid)
    requires !s.running
    ensures var p := TakePass(s, t, wakes);
            MayTake(p) == MayTake(s) && |p.handedOut| <= |s.handedOut| + 1
  {
  }

  /** Once stop has been called no worker is ever asleep again, and from then on no more tasks are
      handed out than there are workers already past their test of running_. */
  lemma {:induction false} AfterStop<Task>(s: State<Task>, es: seq<Event<Task>>)
    requires Inv(s)
    ensures var stopped := Step(s, Stop);
            var t := Run(stopped, es);
            && t.sleepingTake == {}
            && |t.handedOut| + MayTake(t) <= |s.handedOut| + MayTake(s)
    decreases |es|
  {
    hide MayTake, Step, Apart;
    var stopped := Step(s, Stop);
    StepKeeps(s, Stop);
    StopsRunning(s);
    RunKeeps(stopped, es);
    ConstantsStay(stopped, es);
    if es == [] {
      StopMovesSleepers(s);
    } else {
      AfterStop(s, es[..|es| - 1]);
      RunKeeps(stopped, es[..|es| - 1]);
      ConstantsStay(stopped, es[..|es| - 1]);
      var t := Run(stopped, es[..|es| - 1]);
      if Enabled(t, es[|es| - 1]) { StoppedStep(t, es[|es| - 1]); }
    }
  }

  predicate MayTakeOne<Task>(s: State<Task>, w: Tid) {
    w in s.entering || w in s.sleepingTake || w in s.wokenTake
  }

  /** Worker w gets a task in this step. */
  predicate Gets<Task>(s: State<Task>, e: Event<Task>, w: Tid) {
    (e.EnterTake? || e.RecheckTake?) && e.tid == w && Enabled(s, e) && s.queue != []
  }

  /** How many tasks worker w gets in a run. */
  function TasksOf<Task>(s: State<Task>, es: seq<Event<Task>>, w: Tid): nat {
    if es == [] then 0
    else
      var front := es[..|es| - 1];
      TasksOf(s, front, w) + if Gets(Run(s, front), es[|es| - 1], w) then 1 else 0
  }

  lemma StoppedWorkerStep<Task>(s: State<Task>, e: Event<Task>, w: Tid)
    requires Inv(s) && !s.running && Enabled(s, e)
    ensures MayTakeOne(Step(s, e), w) ==> MayTakeOne(s, w)
    ensures Gets(s, e, w) ==> MayTakeOne(s, w) && !MayTakeOne(Step(s, e), w)
  {
    hide Fifo;
    assert s.sleepingTake == {};
  }

  /** After stop each worker already past its test of running_ gets at most one more task, and any
      other none. */
  lemma {:induction false} AtMostOneEach<Task>(s: State<Task>, es: seq<Event<Task>>, w: Tid)
    requires Inv(s)
    ensures var stopped := Step(s, Stop);
            TasksOf(stopped, es, w) + (if MayTakeOne(Run(stopped, es), w) then 1 else 0) <=
            if MayTakeOne(s, w) then 1 else 0
    decreases |es|
  {
    var stopped := Step(s, Stop);
    if es == [] {
      assert MayTakeOne(stopped, w) == MayTakeOne(s, w);
    } else {
      hide MayTakeOne, Step, Inv, Gets, Enabled;
      var front, e := es[..|es| - 1], es[|es| - 1];
      AtMostOneEach(s, front, w);
      StepKeeps(s, Stop);
      StopsRunning(s);
      RunKeeps(stopped, front);
      ConstantsStay(stopped, front);
      GetsEnabled(Run(stopped, front), e, w);
      if Enabled(Run(stopped, front), e) { StoppedWorkerStep(Run(stopped, front), e, w); }
    }
  }

  lemma GetsEnabled<Task>(s: State<Task>, e: Event<Task>, w: Tid)
    ensures Gets(s, e, w) ==> Enabled(s, e)
  {
  }

  lemma StopsRunning<Task>(s: State<Task>)
    ensures !Step(s, Stop).running && Step(s, Stop).handedOut == s.handedOut
  {
  }

  lemma StopMovesSleepers<Task>(s: State<Task>)
    requires Inv(s)
    ensures MayTake(Step(s, Stop)) == MayTake(s)
  {
    assert s.wokenTake !! s.sleepingTake;
    assert |s.wokenTake + s.sleepingTake| == |s.wokenTake| + |s.sleepingTake|;
  }

  /** A stopped pool with its bounded queue full and no worker past its test of running_: those
      still idle only leave. */
  ghost predicate Stuck<Task>(s: State<Task>) {
    !s.running && IsFull(s) && s.entering == {} && s.sleepingTake == {} && s.wokenTake == {}
  }

  lemma StuckStep<Task>(s: State<Task>, e: Event<Task>, t: Tid)
    requires Stuck(s) && Enabled(s, e)
    ensures var n := Step(s, e);
            && Stuck(n) && n.queue == s.queue && n.submitted == s.submitted && n.handedOut == s.handedOut
            && (InRun(s, t) ==> InRun(n, t))
  {
    assert s.wokenTake + s.sleepingTake == {};
  }

  /** There every submission, waiting or new, waits for ever: stop does not release run's waiters. */
  lemma {:induction false} StuckForEver<Task>(s: State<Task>, es: seq<Event<Task>>, t: Tid)
    requires Stuck(s)
    ensures var n := Run(s, es);
            && Stuck(n) && n.queue == s.queue && n.submitted == s.submitted && n.handedOut == s.handedOut
            && (InRun(s, t) ==> InRun(n, t))
    decreases |es|
  {
    hide Stuck, Step, Enabled, InRun;
    if es != [] {
      StuckForEver(s, es[..|es| - 1], t);
      var n := Run(s, es[..|es| - 1]);
      if Enabled(n, es[|es| - 1]) { StuckStep(n, es[|es| - 1], t); }
    }
  }

  /** In this continuation the call of run that thread t is in returns. */
  ghost predicate Returns<Task>(s: State<Task>, t: Tid, es: seq<Event<Task>>) {
    !InRun(Run(s, es), t)
  }

  lemma RunOne<Task>(s: State<Task>, e: Event<Task>)
    ensures Run(s, [e]) == if Enabled(s, e) then Step(s, e) else s
  {
    hide Step, Enabled;
    assert [e][..0] == [];
  }

  lemma RunTwo<Task>(s: State<Task>, e: Event<Task>, f: Event<Task>)
    ensures Run(s, [e, f]) == var n := Run(s, [e]); if Enabled(n, f) then Step(n, f) else n
  {
    hide Step, Enabled;
    assert [e, f][..1] == [e];
  }

  lemma RunThree<Task>(s: State<Task>, e: Event<Task>, f: Event<Task>, g: Event<Task>)
    ensures Run(s, [e, f, g]) == var n := Run(s, [e, f]); if Enabled(n, g) then Step(n, g) else n
  {
    hide Step, Enabled;
    assert [e, f, g][..2] == [e, f];
  }

  /** A released submitter that finds room returns. */
  lemma RoomReturns<Task>(s: State<Task>, t: Tid)
    requires Inv(s) && t in s.wokenRun && !IsFull(s) && s.sleepingTake == {}
    ensures var e := RecheckRun(t, 0);
            && Enabled(s, e)
            && !InRun(Step(s, e), t) && Step(s, e).submitted == s.submitted + [s.argument[t]]
  {
    hide NoLostWakeup, Fifo;
  }

  lemma Wake<Task>(s: State<Task>, t: Tid)
    requires Inv(s) && InRun(s, t) && !s.running
    ensures var n := Run(s, [Spurious(t)]);
            && Inv(n) && t in n.wokenRun && n.sleepingTake == {}
            && n.queue == s.queue && n.maxQueueSize == s.maxQueueSize && n.entering == s.entering
            && n.wokenTake == s.wokenTake && n.submitted == s.submitted && n.argument == s.argument && !n.running
  {
    RunOne(s, Spurious(t));
    if Enabled(s, Spurious(t)) { StepKeeps(s, Spurious(t)); }
  }

  /** A worker that may still take makes room. */
  lemma WorkerMakesRoom<Task>(s: State<Task>, t: Tid, e: Event<Task>)
    requires Inv(s) && t in s.wokenRun && IsFull(s) && !s.running && Enabled(s, e)
    requires (e.EnterTake? && e.tid in s.entering) || (e.RecheckTake? && e.tid in s.wokenTake)
    ensures var n := Step(s, e);
            && Inv(n) && t in n.wokenRun && !IsFull(n) && n.sleepingTake == {}
            && n.submitted == s.submitted && n.argument == s.argument
  {
    hide Apart, Fifo, TakePass, Enabled;
    StepKeeps(s, e);
    TakeShortens(if e.EnterTake? then s.(entering := s.entering - {e.tid}) else s.(wokenTake := s.wokenTake - {e.tid}),
                 e.tid, e.wakes, t);
  }

  lemma TakeShortens<Task>(s: State<Task>, w: Tid, wakes: Tid, t: Tid)
    requires s.queue != [] && t in s.wokenRun
    ensures var n := TakePass(s, w, wakes);
            && n.queue == s.queue[1..] && n.maxQueueSize == s.maxQueueSize && t in n.wokenRun
            && n.sleepingTake == s.sleepingTake && n.submitted == s.submitted && n.argument == s.argument
  {
  }

  /** The thread the notify of a take picks. */
  ghost function Pick(sleeping: set<Tid>): (w: Tid)
    ensures MayNotify(sleeping, w)
  {
    if sleeping == {} then 0 else var w :| w in sleeping; w
  }

  lemma UnstuckReturns<Task>(s: State<Task>, t: Tid) returns (es: seq<Event<Task>>)
    requires Inv(s) && !s.running && InRun(s, t)
    requires !IsFull(s) || s.entering != {} || s.wokenTake != {}
    ensures Returns(s, t, es)
    ensures t in s.argument && Run(s, es).submitted == s.submitted + [s.argument[t]]
  {
    hide Run, NoLostWakeup, Fifo, Step, Enabled, IsFull;
    Wake(s, t);
    RemembersTasks(s);
    var a := Run(s, [Spurious(t)]);
    SameFullness(s, a);
    if !IsFull(s) {
      RoomReturns(a, t);
      RunTwo(s, Spurious(t), RecheckRun(t, 0));
      es := [Spurious(t), RecheckRun(t, 0)];
    } else {
      var wakes := Pick(a.sleepingRun);
      var e: Event<Task>;
      if s.entering != {} {
        var w :| w in a.entering;
        e := EnterTake(w, wakes);
      } else {
        var w :| w in a.wokenTake;
        e := RecheckTake(w, wakes);
      }
      TakeEnabled(a, e);
      WorkerMakesRoom(a, t, e);
      RunTwo(s, Spurious(t), e);
      RoomReturns(Step(a, e), t);
      RunThree(s, Spurious(t), e, RecheckRun(t, 0));
      es := [Spurious(t), e, RecheckRun(t, 0)];
    }
  }

  lemma RemembersTasks<Task>(s: State<Task>)
    requires Inv(s)
    ensures forall t :: InRun(s, t) ==> t in s.argument
  {
  }

  lemma SameFullness<Task>(s: State<Task>, a: State<Task>)
    requires s.queue == a.queue && s.maxQueueSize == a.maxQueueSize
    ensures IsFull(s) == IsFull(a)
  {
  }

  lemma TakeEnabled<Task>(a: State<Task>, e: Event<Task>)
    requires (e.EnterTake? && e.tid in a.entering) || (e.RecheckTake? && e.tid in a.wokenTake)
    requires MayNotify(a.sleepingRun, e.wakes)
    ensures Enabled(a, e)
  {
  }

  /** After stop, if threads may wake for nothing, a call of run in progress can still return if and
      only if the queue has room or some worker is past its test of running_; it can then return with
      its task queued next. */
  lemma BlockedRunReturnsIff<Task>(s: State<Task>, t: Tid)
    requires Inv(s) && !s.running && InRun(s, t)
    ensures (exists es :: Returns(s, t, es)) <==> !IsFull(s) || s.entering != {} || s.wokenTake != {}
    ensures (exists es :: Returns(s, t, es)) ==>
              t in s.argument &&
              exists es :: Returns(s, t, es) && Run(s, es).submitted == s.submitted + [s.argument[t]]
  {
    hide Run, Apart, Fifo;
    RemembersTasks(s);
    if !IsFull(s) || s.entering != {} || s.wokenTake != {} {
      var es := UnstuckReturns(s, t);
      assert Returns(s, t, es);
    } else {
      assert Stuck(s);
      forall es: seq<Event<Task>> ensures !Returns(s, t, es) { StuckForEver(s, es, t); }
    }
  }

  // ---------- Without spurious wake-ups ----------

  ghost predicate NoSpurious<Task>(es: seq<Event<Task>>) {
    forall i :: 0 <= i < |es| ==> !es[i].Spurious?
  }

  /** Asleep in run in a stopped pool with no worker past its test of running_. */
  ghost predicate Abandoned<Task>(s: State<Task>, t: Tid) {
    && !s.running && s.entering == {} && s.sleepingTake == {} && s.wokenTake == {}
    && t in s.sleepingRun && t !in s.wokenRun
  }

  lemma AbandonedStep<Task>(s: State<Task>, e: Event<Task>, t: Tid)
    requires Abandoned(s, t) && Enabled(s, e) && !e.Spurious?
    ensures Abandoned(Step(s, e), t)
  {
    assert s.wokenTake + s.sleepingTake == {};
  }

  /** Room in the queue is of no use to it: nobody is left to notify. */
  lemma {:induction false} AbandonedForEver<Task>(s: State<Task>, es: seq<Event<Task>>, t: Tid)
    requires Abandoned(s, t) && NoSpurious(es)
    ensures Abandoned(Run(s, es), t)
    decreases |es|
  {
    hide Abandoned, Step, Enabled;
    if es != [] {
      AbandonedForEver(s, es[..|es| - 1], t);
      var n := Run(s, es[..|es| - 1]);
      if Enabled(n, es[|es| - 1]) { AbandonedStep(n, es[|es| - 1], t); }
    }
  }

  /** A worker's take releases t and leaves room for it. */
  lemma TakeReleases<Task>(s: State<Task>, t: Tid, e: Event<Task>)
    requires Inv(s) && InRun(s, t) && s.queue != [] && !s.running && Enabled(s, e)
    requires (e.EnterTake? && e.tid in s.entering) || (e.RecheckTake? && e.tid in s.wokenTake)
    requires t in s.sleepingRun ==> e.wakes == t
    ensures var n := Step(s, e);
            Inv(n) && t in n.wokenRun && !IsFull(n) && n.sleepingTake == {}
  {
    hide Apart, Fifo, TakePass, Enabled;
    StepKeeps(s, e);
    TakePassReleases(if e.EnterTake? then s.(entering := s.entering - {e.tid}) else s.(wokenTake := s.wokenTake - {e.tid}),
                     e.tid, e.wakes, t);
  }

  lemma TakePassReleases<Task>(s: State<Task>, w: Tid, wakes: Tid, t: Tid)
    requires s.queue != [] && InRun(s, t) && (t in s.sleepingRun ==> wakes == t && s.maxQueueSize > 0)
    ensures var n := TakePass(s, w, wakes);
            && n.queue == s.queue[1..] && n.maxQueueSize == s.maxQueueSize && t in n.wokenRun
            && n.sleepingTake == s.sleepingTake
  {
  }

  /** A worker past its test of running_ lets t return when there is something to take. */
  lemma WorkerReturns<Task>(s: State<Task>, t: Tid) returns (es: seq<Event<Task>>)
    requires Inv(s) && !s.running && InRun(s, t) && s.queue != []
    requires s.entering != {} || s.wokenTake != {}
    ensures NoSpurious(es) && Returns(s, t, es)
  {
    hide Run, NoLostWakeup, Apart, Fifo, Step, Enabled, IsFull;
    var wakes := if t in s.sleepingRun then t else Pick(s.sleepingRun);
    var e: Event<Task>;
    if s.entering != {} {
      var w :| w in s.entering;
      e := EnterTake(w, wakes);
    } else {
      var w :| w in s.wokenTake;
      e := RecheckTake(w, wakes);
    }
    TakeEnabled(s, e);
    TakeReleases(s, t, e);
    RoomReturns(Step(s, e), t);
    RunOne(s, e);
    RunTwo(s, e, RecheckRun(t, 0));
    es := [e, RecheckRun(t, 0)];
  }

  /** A released submitter fills an empty queue first. */
  lemma RefillsFirst<Task>(s: State<Task>, w: Tid, t: Tid)
    requires Inv(s) && !s.running && s.queue == [] && w in s.wokenRun && t in s.sleepingRun
    ensures var e := RecheckRun(w, 0);
            && Enabled(s, e)
            && var n := Step(s, e);
               && Inv(n) && !n.running && t in n.sleepingRun && n.queue != []
               && n.entering == s.entering && n.wokenTake == s.wokenTake
  {
    StepKeeps(s, RecheckRun(w, 0));
  }

  lemma EmptyHasReleased<Task>(s: State<Task>, t: Tid)
    requires Inv(s) && s.queue == [] && t in s.sleepingRun
    ensures s.wokenRun != {}
  {
  }

  lemma {:induction false} RunCompose<Task>(s: State<Task>, es: seq<Event<Task>>, fs: seq<Event<Task>>)
    ensures Run(Run(s, es), fs) == Run(s, es + fs)
    decreases |fs|
  {
    hide Step, Enabled;
    if fs == [] {
      assert es + fs == es;
    } else {
      RunCompose(s, es, fs[..|fs| - 1]);
      assert (es + fs)[..|es + fs| - 1] == es + fs[..|fs| - 1];
    }
  }

  lemma NotifiedReturns<Task>(s: State<Task>, t: Tid) returns (es: seq<Event<Task>>)
    requires Inv(s) && !s.running && InRun(s, t)
    requires (t in s.wokenRun && !IsFull(s)) || s.entering != {} || s.wokenTake != {}
    ensures NoSpurious(es) && Returns(s, t, es)
  {
    hide Run, NoLostWakeup, Apart, Fifo, Step, Enabled;
    if t in s.wokenRun && !IsFull(s) {
      StoppedNobodySleeps(s);
      RoomReturns(s, t);
      RunOne(s, RecheckRun(t, 0));
      es := [RecheckRun(t, 0)];
    } else if s.queue != [] {
      es := WorkerReturns(s, t);
    } else {
      EmptyIsNotFull(s);
      EmptyHasReleased(s, t);
      var w :| w in s.wokenRun;
      RefillsFirst(s, w, t);
      RunOne(s, RecheckRun(w, 0));
      var rest := WorkerReturns(Step(s, RecheckRun(w, 0)), t);
      RunCompose(s, [RecheckRun(w, 0)], rest);
      es := [RecheckRun(w, 0)] + rest;
    }
  }

  lemma StoppedNobodySleeps<Task>(s: State<Task>)
    requires Inv(s) && !s.running
    ensures s.sleepingTake == {}
  {
  }

  lemma EmptyIsNotFull<Task>(s: State<Task>)
    requires s.queue == []
    ensures !IsFull(s)
  {
  }

  /** After stop, with every wake-up a notify, a call of run in progress can still return if and only
      if it is already released and finds room, or some worker is past its test of running_. */
  lemma NotifiedRunReturnsIff<Task>(s: State<Task>, t: Tid)
    requires Inv(s) && !s.running && InRun(s, t)
    ensures (exists es :: NoSpurious(es) && Returns(s, t, es)) <==>
            (t in s.wokenRun && !IsFull(s)) || s.entering != {} || s.wokenTake != {}
  {
    hide Run, Fifo;
    if (t in s.wokenRun && !IsFull(s)) || s.entering != {} || s.wokenTake != {} {
      var es := NotifiedReturns(s, t);
    } else {
      StoppedNobodySleeps(s);
      forall es: seq<Event<Task>> | NoSpurious(es) ensures !Returns(s, t, es) {
        if IsFull(s) { StuckForEver(s, es, t); } else { AbandonedForEver(s, es, t); }
      }
    }
  }

  /** Room without a notify: of two waiting submitters one is released by the only take, stop follows,
      and the other sleeps on in front of an empty queue. */
  lemma StopCanStrandASleeper<Task>(a: Task, b: Task, c: Task, later: seq<Event<Task>>)
    requires NoSpurious(later)
    ensures var s := Run(Started<Task>(1, {0}),
                         [Submit(1, a, 0), Submit(2, b, 0), Submit(3, c, 0), TestRunning(0), EnterTake(0, 2), Stop]);
            && s.queue == [] && !IsFull(s) && s.wokenRun == {2} && s.sleepingRun == {3}
            && InRun(Run(s, later), 3)
  {
    var s0 := Started<Task>(1, {0});
    var s1 := StepTo(s0, [], Submit(1, a, 0));
    var es1 := [] + [Submit(1, a, 0)];
    assert s1.queue == [a];
    var s2 := StepTo(s0, es1, Submit(2, b, 0));
    var es2 := es1 + [Submit(2, b, 0)];
    assert s2.sleepingRun == {2} && s2.queue == [a];
    var s3 := StepTo(s0, es2, Submit(3, c, 0));
    var es3 := es2 + [Submit(3, c, 0)];
    assert s3.sleepingRun == {2, 3};
    var s4 := StepTo(s0, es3, TestRunning(0));
    var es4 := es3 + [TestRunning(0)];
    assert s4.entering == {0};
    var s5 := StepTo(s0, es4, EnterTake(0, 2));
    var es5 := es4 + [EnterTake(0, 2)];
    assert s5.queue == [] && s5.wokenRun == {2} && s5.sleepingRun == {3} && s5.entering == {};
    var s6 := StepTo(s0, es5, Stop);
    assert s6.wokenTake == {};
    assert es5 + [Stop] ==
           [Submit(1, a, 0), Submit(2, b, 0), Submit(3, c, 0), TestRunning(0), EnterTake(0, 2), Stop];
    AbandonedForEver(s6, later, 3);
  }

  lemma StepTo<Task>(s: State<Task>, es: seq<Event<Task>>, e: Event<Task>) returns (n: State<Task>)
    ensures n == Run(s, es + [e])
    ensures n == if Enabled(Run(s, es), e) then Step(Run(s, es), e) else Run(s, es)
  {
    n := Run(s, es + [e]);
    assert (es + [e])[..|es + [e]| - 1] == es;
  }

  /** A run that strands a submitter: two submissions to a queue of one, stop, and the worker leaves. */
  lemma StopCanStrandASubmitter<Task>(a: Task, b: Task)
    ensures var s := Run(Started<Task>(1, {0}), [Submit(1, a, 0), Submit(2, b, 0), Stop, TestRunning(0)]);
            Stuck(s) && s.idle == {} && s.sleepingRun == {2} && s.queue == [a]
  {
    var s0 := Started<Task>(1, {0});
    var es := [Submit(1, a, 0), Submit(2, b, 0), Stop, TestRunning(0)];
    assert |es| == 4 && es[..3][..2] == es[..2] && es[..2][..1] == es[..1] && es[..1][..0] == [];
    assert Run(s0, []) == s0 && Enabled(s0, es[0]);
    var s1 := Run(s0, es[..1]);
    assert s1 == RunPass(s0, 1, a, 0);
    assert s1.queue == [a];
    var s2 := Run(s0, es[..2]);
    assert Enabled(s1, es[1]) && s2 == RunPass(s1, 2, b, 0);
    assert s2.sleepingRun == {2} && s2.queue == [a];
    var s3 := Run(s0, es[..3]);
    assert !s3.running && s3.idle == {0};
  }

  // ---------- The object ----------

  datatype Submission = RanInCaller | Queued | Waits

  class Pool<Task(!new)> {
    const threads: set<Tid>
    const maxQueueSize: nat
    var running: bool
    var queue: seq<Task>
    var idle: set<Tid>
    var entering: set<Tid>
    var exited: set<Tid>
    // The waiters of notEmpty_ and notFull_, and the threads they have released.
    var sleepingTake: set<Tid>
    var wokenTake: set<Tid>
    var sleepingRun: set<Tid>
    var wokenRun: set<Tid>
    var argument: map<Tid, Task>
    ghost var submitted: seq<Task>
    ghost var handedOut: seq<Task>

    ghost function Model(): State<Task>
      reads this
    {
      State(maxQueueSize, running, queue, idle, entering, sleepingTake, wokenTake, exited,
            sleepingRun, wokenRun, argument, submitted, handedOut)
    }

    /** A pool after start(|threads|). */
    constructor (maxSize: nat, threads: set<Tid>)
      ensures Model() == Started<Task>(maxSize, threads) && this.threads == threads
    {
      this.threads, maxQueueSize, running, queue := threads, maxSize, true, [];
      idle, entering, exited := threads, {}, {};
      sleepingTake, wokenTake, sleepingRun, wokenRun := {}, {}, {}, {};
      argument, submitted, handedOut := map[], [], [];
    }

    /** One pass of run: without workers the caller does the work itself. */
    method RunOnce(t: Tid, task: Task, wakes: Tid) returns (r: Submission)
      requires Inv(Model()) && Enabled(Model(), Submit(t, task, wakes))
      modifies this
      ensures Inv(Model())
      ensures r.RanInCaller? <==> threads == {}
      ensures Model() == if r.RanInCaller? then old(Model()) else RunPass(old(Model()), t, task, wakes)
      ensures !r.RanInCaller? ==> (r.Waits? <==> old(maxQueueSize > 0 && |queue| >= maxQueueSize))
      ensures r.Queued? ==> queue == old(queue) + [task] && submitted == old(submitted) + [task]
      ensures r.Waits? ==> t in sleepingRun && t in argument && argument[t] == task
    {
      hide Inv, NoLostWakeup;
      StepKeeps(Model(), Submit(t, task, wakes));
      if threads == {} { return RanInCaller; }
      if maxQueueSize > 0 && |queue| >= maxQueueSize {
        sleepingRun, argument := sleepingRun + {t}, argument[t := task];
        return Waits;
      }
      queue, submitted := queue + [task], submitted + [task];
      if wakes in sleepingTake {
        sleepingTake, wokenTake := sleepingTake - {wakes}, wokenTake + {wakes};
      }
      return Queued;
    }

    /** One pass of take by a worker that has just left entering or the released ones: None is the empty task of a stopped pool, or going to sleep. */
    method TakeOnce(t: Tid, wakes: Tid) returns (task: Option<Task>)
      requires Apart(Model()) && NoLostWakeup(Model(), 0, 1) && Fifo(Model())
      requires !InRun(Model(), t) && !InTake(Model(), t) && t !in idle && MayNotify(sleepingRun, wakes)
      modifies this
      ensures Inv(Model()) && Model() == TakePass(old(Model()), t, wakes)
      ensures handedOut == old(handedOut) + if task.Some? then [task.value] else []
      ensures old(queue) == (if task.Some? then [task.value] else []) + queue
      ensures task.None? ==> old(queue) == [] && if running then t in sleepingTake else t in idle
    {
      hide Inv, NoLostWakeup, Apart;
      TakePassKeeps(Model(), t, wakes);
      if queue == [] && running {
        sleepingTake := sleepingTake + {t};
        return None;
      }
      task := None;
      if queue != [] {
        task := Some(queue[0]);
        queue, handedOut := queue[1..], handedOut + [task.value];
        if maxQueueSize > 0 && wakes in sleepingRun {
          sleepingRun, wokenRun := sleepingRun - {wakes}, wokenRun + {wakes};
        }
      }
      idle := idle + {t};
    }

    method StopPool()
      requires Inv(Model())
      modifies this
      ensures Inv(Model()) && Model() == Step(old(Model()), Stop) && sleepingTake == {}
    {
      StopKeeps(Model());
      running := false;
      wokenTake, sleepingTake := wokenTake + sleepingTake, {};
    }

    /** The loop condition of runInThread. */
    method LoopCondition(t: Tid) returns (continues: bool)
      requires Inv(Model()) && Enabled(Model(), TestRunning(t))
      modifies this
      ensures Inv(Model()) && Model() == Step(old(Model()), TestRunning(t)) && continues == running
    {
      TestRunningKeeps(Model(), t);
      idle := idle - {t};
      if running { entering := entering + {t}; } else { exited := exited + {t}; }
      continues := running;
    }
  }
}
