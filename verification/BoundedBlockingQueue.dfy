/** Reactors/base/BoundedBlockingQueue.h: put and take over one mutex and two condition
    variables. A step is one stretch of one thread under the mutex: a call's first pass,
    the re-check after a wake-up, or a spurious wake-up. A thread calling for the first
    time may get in before one already woken. */
module BoundedBlockingQueue {
  import opened Wrappers
  import Waiting

  type Tid = nat

  datatype State<T> = State(
    capacity: nat, queue: seq<T>,
    sleepingPut: set<Tid>, wokenPut: set<Tid>,
    sleepingTake: set<Tid>, wokenTake: set<Tid>,
    argument: map<Tid, T>,
    puts: seq<T>, takes: seq<T>)

  /** `wakes` is the thread the notify of this step picks, if any thread sleeps on that condition. */
  datatype Event<T> =
    | Put(tid: Tid, x: T, wakes: Tid)
    | RecheckPut(tid: Tid, wakes: Tid)
    | Take(tid: Tid, wakes: Tid)
    | RecheckTake(tid: Tid, wakes: Tid)
    | Spurious(tid: Tid)

  function Initial<T>(capacity: nat): State<T> {
    State(capacity, [], {}, {}, {}, {}, map[], [], [])
  }

  predicate Full<T>(s: State<T>) {
    |s.queue| >= s.capacity
  }

  /** The thread is outside put and take. */
  predicate Outside<T>(s: State<T>, t: Tid) {
    t !in s.sleepingPut && t !in s.wokenPut && t !in s.sleepingTake && t !in s.wokenTake
  }

  predicate MayNotify(sleeping: set<Tid>, wakes: Tid) {
    sleeping == {} || wakes in sleeping
  }

  // ---------- The steps ----------

  function NotifyNotEmpty<T>(s: State<T>, wakes: Tid): State<T> {
    if wakes in s.sleepingTake then
      s.(sleepingTake := s.sleepingTake - {wakes}, wokenTake := s.wokenTake + {wakes})
    else s
  }

  function NotifyNotFull<T>(s: State<T>, wakes: Tid): State<T> {
    if wakes in s.sleepingPut then
      s.(sleepingPut := s.sleepingPut - {wakes}, wokenPut := s.wokenPut + {wakes})
    else s
  }

  /** The body of put from the top of its while loop. */
  function PutPass<T>(s: State<T>, t: Tid, x: T, wakes: Tid): State<T> {
    if Full(s) then s.(sleepingPut := s.sleepingPut + {t}, argument := s.argument[t := x])
    else NotifyNotEmpty(s.(queue := s.queue + [x], puts := s.puts + [x]), wakes)
  }

  /** The body of take from the top of its while loop. */
  function TakePass<T>(s: State<T>, t: Tid, wakes: Tid): State<T> {
    if s.queue == [] then s.(sleepingTake := s.sleepingTake + {t})
    else NotifyNotFull(s.(queue := s.queue[1..], takes := s.takes + [s.queue[0]]), wakes)
  }

  predicate Enabled<T>(s: State<T>, e: Event<T>) {
    match e
    case Put(t, _, wakes) => Outside(s, t) && MayNotify(s.sleepingTake, wakes)
    case RecheckPut(t, wakes) => t in s.wokenPut && t in s.argument && MayNotify(s.sleepingTake, wakes)
    case Take(t, wakes) => Outside(s, t) && MayNotify(s.sleepingPut, wakes)
    case RecheckTake(t, wakes) => t in s.wokenTake && MayNotify(s.sleepingPut, wakes)
    case Spurious(t) => t in s.sleepingPut || t in s.sleepingTake
  }

  function Step<T>(s: State<T>, e: Event<T>): State<T>
    requires Enabled(s, e)
  {
    match e
    case Put(t, x, wakes) => PutPass(s, t, x, wakes)
    case RecheckPut(t, wakes) => PutPass(s.(wokenPut := s.wokenPut - {t}), t, s.argument[t], wakes)
    case Take(t, wakes) => TakePass(s, t, wakes)
    case RecheckTake(t, wakes) => TakePass(s.(wokenTake := s.wokenTake - {t}), t, wakes)
    case Spurious(t) => if t in s.sleepingPut then NotifyNotFull(s, t) else NotifyNotEmpty(s, t)
  }

  /** Any list of events is a run: those not enabled when their turn comes do not happen. */
  function Run<T>(s: State<T>, es: seq<Event<T>>): State<T> {
    if es == [] then s
    else
      var t := Run(s, es[..|es| - 1]);
      if Enabled(t, es[|es| - 1]) then Step(t, es[|es| - 1]) else t
  }

  // ---------- Invariants ----------

  /** No thread is in two places. */
  ghost predicate Disjoint<T>(s: State<T>) {
    forall t ::
      && (t in s.sleepingPut ==> t !in s.wokenPut && t !in s.sleepingTake && t !in s.wokenTake)
      && (t in s.wokenPut ==> t !in s.sleepingTake && t !in s.wokenTake)
      && (t in s.sleepingTake ==> t !in s.wokenTake)
  }

  /** Every put in progress remembers its item. */
  ghost predicate Remembered<T>(s: State<T>) {
    forall t :: t in s.sleepingPut || t in s.wokenPut ==> t in s.argument
  }

  /** A thread asleep on a condition implies enough threads already woken to use up what it
      waits for; `put` and `take` count a woken thread that is re-checking right now. */
  ghost predicate NoLostWakeup<T>(s: State<T>, put: nat, take: nat) {
    && |s.queue| <= s.capacity
    && (s.sleepingTake != {} ==> |s.queue| <= |s.wokenTake| + take)
    && (s.sleepingPut != {} ==> s.capacity - |s.queue| <= |s.wokenPut| + put)
  }

  ghost predicate Fifo<T>(s: State<T>) {
    s.takes + s.queue == s.puts
  }

  ghost predicate Inv<T>(s: State<T>) {
    Disjoint(s) && Remembered(s) && NoLostWakeup(s, 0, 0) && Fifo(s)
  }

  lemma NotifyCounts<T>(s: State<T>, wakes: Tid)
    requires Disjoint(s)
    ensures var n := NotifyNotEmpty(s, wakes);
            |n.wokenTake| == |s.wokenTake| + if wakes in s.sleepingTake then 1 else 0
    ensures var n := NotifyNotFull(s, wakes);
            |n.wokenPut| == |s.wokenPut| + if wakes in s.sleepingPut then 1 else 0
  {
  }

  lemma NotifyPlaces<T>(s: State<T>, wakes: Tid)
    requires Disjoint(s) && Remembered(s)
    ensures Disjoint(NotifyNotEmpty(s, wakes)) && Remembered(NotifyNotEmpty(s, wakes))
    ensures Disjoint(NotifyNotFull(s, wakes)) && Remembered(NotifyNotFull(s, wakes))
  {
  }

  lemma PutPassPlaces<T>(s: State<T>, t: Tid, x: T, wakes: Tid)
    requires Disjoint(s) && Remembered(s) && Outside(s, t)
    ensures Disjoint(PutPass(s, t, x, wakes)) && Remembered(PutPass(s, t, x, wakes))
  {
    hide NotifyNotEmpty;
    if !Full(s) {
      NotifyPlaces(s.(queue := s.queue + [x], puts := s.puts + [x]), wakes);
    }
  }

  lemma PutPassCounts<T>(s: State<T>, t: Tid, x: T, wakes: Tid)
    requires Disjoint(s) && NoLostWakeup(s, 1, 0) && MayNotify(s.sleepingTake, wakes)
    ensures NoLostWakeup(PutPass(s, t, x, wakes), 0, 0)
  {
    if !Full(s) {
      var p := s.(queue := s.queue + [x], puts := s.puts + [x]);
      NotifyCounts(p, wakes);
    }
  }

  lemma TakePassPlaces<T>(s: State<T>, t: Tid, wakes: Tid)
    requires Disjoint(s) && Remembered(s) && Outside(s, t)
    ensures Disjoint(TakePass(s, t, wakes)) && Remembered(TakePass(s, t, wakes))
  {
    hide NotifyNotFull;
    if s.queue != [] {
      NotifyPlaces(s.(queue := s.queue[1..], takes := s.takes + [s.queue[0]]), wakes);
    }
  }

  lemma TakePassCounts<T>(s: State<T>, t: Tid, wakes: Tid)
    requires Disjoint(s) && NoLostWakeup(s, 0, 1) && MayNotify(s.sleepingPut, wakes)
    ensures NoLostWakeup(TakePass(s, t, wakes), 0, 0)
  {
    if s.queue != [] {
      var p := s.(queue := s.queue[1..], takes := s.takes + [s.queue[0]]);
      NotifyCounts(p, wakes);
    }
  }

  lemma PassesFifo<T>(s: State<T>, t: Tid, x: T, wakes: Tid)
    requires Fifo(s)
    ensures Fifo(PutPass(s, t, x, wakes)) && Fifo(TakePass(s, t, wakes))
  {
    assert s.takes + (s.queue + [x]) == s.puts + [x];
    if s.queue != [] {
      assert (s.takes + [s.queue[0]]) + s.queue[1..] == s.puts;
    }
  }

  lemma PutPassKeeps<T>(s: State<T>, t: Tid, x: T, wakes: Tid)
    requires Disjoint(s) && Remembered(s) && NoLostWakeup(s, 1, 0) && Fifo(s)
    requires Outside(s, t) && MayNotify(s.sleepingTake, wakes)
    ensures Inv(PutPass(s, t, x, wakes))
  {
    hide *;
    PutPassPlaces(s, t, x, wakes);
    PutPassCounts(s, t, x, wakes);
    PassesFifo(s, t, x, wakes);
    InvIntro(PutPass(s, t, x, wakes));
  }

  lemma TakePassKeeps<T>(s: State<T>, t: Tid, x: T, wakes: Tid)
    requires Disjoint(s) && Remembered(s) && NoLostWakeup(s, 0, 1) && Fifo(s)
    requires Outside(s, t) && MayNotify(s.sleepingPut, wakes)
    ensures Inv(TakePass(s, t, wakes))
  {
    hide *;
    TakePassPlaces(s, t, wakes);
    TakePassCounts(s, t, wakes);
    PassesFifo(s, t, x, wakes);
    InvIntro(TakePass(s, t, wakes));
  }

  lemma InvIntro<T>(s: State<T>)
    requires Disjoint(s) && Remembered(s) && NoLostWakeup(s, 0, 0) && Fifo(s)
    ensures Inv(s)
  {
  }

  lemma SpuriousKeeps<T>(s: State<T>, t: Tid)
    requires Inv(s) && (t in s.sleepingPut || t in s.sleepingTake)
    ensures t in s.sleepingPut ==> Inv(NotifyNotFull(s, t))
    ensures t in s.sleepingTake ==> Inv(NotifyNotEmpty(s, t))
  {
    hide Disjoint, Remembered;
    NotifyPlaces(s, t);
    NotifyCounts(s, t);
  }

  /** The thread re-checking leaves the woken ones for the length of its pass. */
  lemma LeavesWoken<T>(s: State<T>, t: Tid)
    requires Inv(s)
    ensures var r := s.(wokenPut := s.wokenPut - {t});
            t in s.wokenPut ==>
            Outside(r, t) && Disjoint(r) && Remembered(r) && NoLostWakeup(r, 1, 0) && Fifo(r)
    ensures var r := s.(wokenTake := s.wokenTake - {t});
            t in s.wokenTake ==>
            Outside(r, t) && Disjoint(r) && Remembered(r) && NoLostWakeup(r, 0, 1) && Fifo(r)
  {
  }

  lemma TakeKeeps<T>(s: State<T>, t: Tid, wakes: Tid)
    requires Disjoint(s) && Remembered(s) && NoLostWakeup(s, 0, 1) && Fifo(s)
    requires Outside(s, t) && MayNotify(s.sleepingPut, wakes)
    ensures Inv(TakePass(s, t, wakes))
  {
    hide *;
    if s.queue != [] { TakePassKeeps(s, t, s.queue[0], wakes); } else { FirstSleep(s, t, wakes); }
  }

  lemma StepKeeps<T>(s: State<T>, e: Event<T>)
    requires Inv(s) && Enabled(s, e)
    ensures Inv(Step(s, e))
  {
    hide PutPass, TakePass, NotifyNotFull, NotifyNotEmpty, Disjoint, Remembered, Fifo;
    match e
    case Put(t, x, wakes) => PutPassKeeps(s, t, x, wakes);
    case RecheckPut(t, wakes) =>
      LeavesWoken(s, t);
      PutPassKeeps(s.(wokenPut := s.wokenPut - {t}), t, s.argument[t], wakes);
    case Take(t, wakes) =>
      TakeKeeps(s, t, wakes);
    case RecheckTake(t, wakes) =>
      LeavesWoken(s, t);
      TakeKeeps(s.(wokenTake := s.wokenTake - {t}), t, wakes);
    case Spurious(t) => SpuriousKeeps(s, t);
  }

  /** Going to sleep on an empty queue. */
  lemma FirstSleep<T>(s: State<T>, t: Tid, wakes: Tid)
    requires Disjoint(s) && Remembered(s) && NoLostWakeup(s, 0, 1) && Fifo(s)
    requires Outside(s, t) && s.queue == []
    ensures Inv(TakePass(s, t, wakes))
  {
    TakePassPlaces(s, t, wakes);
  }

  lemma {:induction false} RunKeeps<T>(capacity: nat, es: seq<Event<T>>)
    ensures Inv(Run(Initial(capacity), es)) && Run(Initial(capacity), es).capacity == capacity
  {
    hide Inv, Enabled, Step;
    if es == [] {
      InitialInv<T>(capacity);
    } else {
      RunKeeps(capacity, es[..|es| - 1]);
      var s := Run(Initial<T>(capacity), es[..|es| - 1]);
      if Enabled(s, es[|es| - 1]) {
        StepKeeps(s, es[|es| - 1]);
        CapacityStays(s, es[|es| - 1]);
      }
    }
  }

  lemma InitialInv<T>(capacity: nat)
    ensures Inv(Initial<T>(capacity))
  {
  }

  lemma CapacityStays<T>(s: State<T>, e: Event<T>)
    requires Enabled(s, e)
    ensures Step(s, e).capacity == s.capacity
  {
  }

  // ---------- Main results ----------

  /** In every run: the bound holds, items leave in the order they came, each once, and no
      wake-up is lost however threads barge in or wake for nothing. */
  lemma EveryRunIsSafe<T>(capacity: nat, es: seq<Event<T>>)
    ensures var s := Run(Initial<T>(capacity), es);
            && |s.queue| <= capacity
            && s.takes + s.queue == s.puts
            && (s.sleepingTake != {} ==> |s.queue| <= |s.wokenTake|)
            && (s.sleepingPut != {} ==> capacity - |s.queue| <= |s.wokenPut|)
  {
    RunKeeps(capacity, es);
  }

  // ---------- Every put is accounted for ----------

  /** The items of the calls of put that were made in a run. */
  function PutItems<T>(capacity: nat, es: seq<Event<T>>): multiset<T> {
    if es == [] then multiset{}
    else
      var front, e := es[..|es| - 1], es[|es| - 1];
      PutItems(capacity, front) +
      if e.Put? && Enabled(Run(Initial(capacity), front), e) then multiset{e.x} else multiset{}
  }

  /** The item of thread t's last call of put. */
  function LastPut<T>(capacity: nat, es: seq<Event<T>>, t: Tid): Option<T> {
    if es == [] then None
    else
      var front, e := es[..|es| - 1], es[|es| - 1];
      if e.Put? && e.tid == t && Enabled(Run(Initial(capacity), front), e) then Some(e.x)
      else LastPut(capacity, front, t)
  }

  function InPut<T>(s: State<T>): set<Tid> {
    s.sleepingPut + s.wokenPut
  }

  /** What has been put and what is waiting to be put. */
  ghost function Offered<T>(s: State<T>): multiset<T>
    requires Remembered(s)
  {
    multiset(s.puts) + Waiting.Carried(s.argument, InPut(s))
  }

  lemma NotifyOffers<T>(s: State<T>, wakes: Tid)
    requires Remembered(s)
    ensures Remembered(NotifyNotEmpty(s, wakes)) && Offered(NotifyNotEmpty(s, wakes)) == Offered(s)
    ensures Remembered(NotifyNotFull(s, wakes)) && Offered(NotifyNotFull(s, wakes)) == Offered(s)
  {
    assert InPut(NotifyNotFull(s, wakes)) == InPut(s);
  }

  lemma PutPassOffers<T>(s: State<T>, t: Tid, x: T, wakes: Tid)
    requires Remembered(s) && t !in InPut(s)
    ensures var n := PutPass(s, t, x, wakes);
            Remembered(n) && Offered(n) == Offered(s) + multiset{x}
  {
    hide NotifyNotEmpty;
    if Full(s) {
      Waiting.CarriedJoins(s.argument, InPut(s), t, x);
      assert InPut(PutPass(s, t, x, wakes)) == InPut(s) + {t};
    } else {
      NotifyOffers(s.(queue := s.queue + [x], puts := s.puts + [x]), wakes);
    }
  }

  lemma TakePassOffers<T>(s: State<T>, t: Tid, wakes: Tid)
    requires Remembered(s)
    ensures Remembered(TakePass(s, t, wakes)) && Offered(TakePass(s, t, wakes)) == Offered(s)
  {
    hide NotifyNotFull;
    if s.queue != [] {
      NotifyOffers(s.(queue := s.queue[1..], takes := s.takes + [s.queue[0]]), wakes);
    }
  }

  lemma StepOffers<T>(s: State<T>, e: Event<T>)
    requires Inv(s) && Enabled(s, e)
    ensures var n := Step(s, e);
            Remembered(n) && Offered(n) == Offered(s) + if e.Put? then multiset{e.x} else multiset{}
  {
    hide PutPass, TakePass, NotifyNotFull, NotifyNotEmpty, NoLostWakeup, Fifo;
    match e
    case Put(t, x, wakes) => PutPassOffers(s, t, x, wakes);
    case RecheckPut(t, wakes) =>
      var r := s.(wokenPut := s.wokenPut - {t});
      Waiting.CarriedWithout(s.argument, InPut(s), t);
      assert InPut(r) == InPut(s) - {t};
      PutPassOffers(r, t, s.argument[t], wakes);
    case Take(t, wakes) => TakePassOffers(s, t, wakes);
    case RecheckTake(t, wakes) => TakePassOffers(s.(wokenTake := s.wokenTake - {t}), t, wakes);
    case Spurious(t) => NotifyOffers(s, t);
  }

  /** A step gives a waiting thread no other item than the one it called put with. */
  lemma StepRemembers<T>(s: State<T>, e: Event<T>, t: Tid)
    requires Inv(s) && Enabled(s, e) && t in InPut(Step(s, e))
    ensures t in Step(s, e).argument
    ensures if e.Put? && e.tid == t then Step(s, e).argument[t] == e.x
            else t in InPut(s) && t in s.argument && Step(s, e).argument[t] == s.argument[t]
  {
    hide NoLostWakeup, Fifo;
  }

  lemma {:induction false} RunRemembers<T>(capacity: nat, es: seq<Event<T>>, t: Tid)
    requires t in InPut(Run(Initial<T>(capacity), es))
    ensures var s := Run(Initial<T>(capacity), es);
            t in s.argument && LastPut(capacity, es, t) == Some(s.argument[t])
    decreases |es|
  {
    hide Step, Enabled, Inv;
    if es != [] {
      var front, e := es[..|es| - 1], es[|es| - 1];
      var s := Run(Initial<T>(capacity), front);
      RunKeeps(capacity, front);
      if Enabled(s, e) { StepRemembers(s, e, t); }
      if t in InPut(s) { RunRemembers(capacity, front, t); }
    }
  }

  lemma {:induction false} RunOffers<T>(capacity: nat, es: seq<Event<T>>)
    ensures var s := Run(Initial<T>(capacity), es);
            Remembered(s) && Offered(s) == PutItems(capacity, es)
    decreases |es|
  {
    hide Step, Enabled, Inv, Offered;
    if es == [] {
      NothingOffered<T>(capacity);
    } else {
      var front, e := es[..|es| - 1], es[|es| - 1];
      RunOffers(capacity, front);
      RunKeeps(capacity, front);
      if Enabled(Run(Initial<T>(capacity), front), e) { StepOffers(Run(Initial<T>(capacity), front), e); }
    }
  }

  lemma NothingOffered<T>(capacity: nat)
    ensures Remembered(Initial<T>(capacity)) && Offered(Initial<T>(capacity)) == multiset{}
  {
  }

  /** In every run each item given to put has been put once or is still carried by the thread that
      called put with it, and nothing else is. */
  lemma EveryPutAccounted<T>(capacity: nat, es: seq<Event<T>>)
    ensures var s := Run(Initial<T>(capacity), es);
            && s.sleepingPut + s.wokenPut <= s.argument.Keys
            && multiset(s.takes + s.queue) + Waiting.Carried(s.argument, s.sleepingPut + s.wokenPut) ==
               PutItems(capacity, es)
            && forall t :: t in s.sleepingPut + s.wokenPut ==>
                 LastPut(capacity, es, t) == Some(s.argument[t])
  {
    hide Run, PutItems, LastPut;
    var s := Run(Initial<T>(capacity), es);
    RunKeeps(capacity, es);
    RunOffers(capacity, es);
    forall t | t in InPut(s) ensures LastPut(capacity, es, t) == Some(s.argument[t]) {
      RunRemembers(capacity, es, t);
    }
  }

  // ---------- Deadlock ----------

  /** Threads asleep on both conditions and nobody woken. */
  ghost predicate Deadlocked<T>(s: State<T>) {
    s.sleepingPut != {} && s.sleepingTake != {} && s.wokenPut == {} && s.wokenTake == {}
  }

  /** Threads asleep on both conditions, and whoever is woken only goes back to sleep. */
  ghost predicate Stalled<T>(s: State<T>) {
    && s.sleepingPut != {} && s.sleepingTake != {}
    && (s.wokenPut == {} || Full(s)) && (s.wokenTake == {} || s.queue == [])
  }

  /** Producers and consumers can get stuck on each other if and only if the queue has no room at
      all; otherwise some woken thread always finds what it waits for. */
  lemma DeadlockIffNoCapacity<T>(capacity: nat, x: T)
    ensures (exists es :: Deadlocked(Run(Initial<T>(capacity), es))) <==> capacity == 0
    ensures (exists es :: Stalled(Run(Initial<T>(capacity), es))) <==> capacity == 0
  {
    hide *;
    if capacity == 0 {
      NoRoomDeadlocks(x);
      var es := [Put(0, x, 0), Take(1, 0)];
      assert Deadlocked(Run(Initial<T>(capacity), es)) && Stalled(Run(Initial<T>(capacity), es));
    } else {
      forall es: seq<Event<T>>
        ensures !Deadlocked(Run(Initial<T>(capacity), es)) && !Stalled(Run(Initial<T>(capacity), es))
      {
        RoomNeverStalls(capacity, es);
      }
    }
  }

  lemma RoomNeverStalls<T>(capacity: nat, es: seq<Event<T>>)
    requires capacity > 0
    ensures !Deadlocked(Run(Initial<T>(capacity), es)) && !Stalled(Run(Initial<T>(capacity), es))
  {
    hide Run;
    RunKeeps(capacity, es);
  }

  lemma NoRoomDeadlocks<T>(x: T)
    ensures var s := Run(Initial<T>(0), [Put(0, x, 0), Take(1, 0)]); Deadlocked(s) && Stalled(s)
  {
    var s := Initial<T>(0);
    var es := [Put(0, x, 0), Take(1, 0)];
    assert es[..1] == [Put(0, x, 0)] && es[..1][..0] == [];
    var t := Run(s, es[..1]);
    assert Run(s, []) == s && t == PutPass(s, 0, x, 0);
    assert t.sleepingPut == {0} && t.queue == [];
    assert Enabled(t, Take(1, 0));
    assert Run(s, es) == TakePass(t, 1, 0);
    assert 1 in Run(s, es).sleepingTake && 0 in Run(s, es).sleepingPut;
  }

  // ---------- The object ----------

  class Queue<T(!new)> {
    const capacity: nat
    var queue: seq<T>
    // The waiters of the condition variables notFull_ and notEmpty_, and the threads they have released.
    var sleepingPut: set<Tid>
    var wokenPut: set<Tid>
    var sleepingTake: set<Tid>
    var wokenTake: set<Tid>
    var argument: map<Tid, T>
    ghost var puts: seq<T>
    ghost var takes: seq<T>

    ghost function Model(): State<T>
      reads this
    {
      State(capacity, queue, sleepingPut, wokenPut, sleepingTake, wokenTake, argument, puts, takes)
    }

    constructor (maxSize: nat)
      ensures Model() == Initial<T>(maxSize)
    {
      capacity := maxSize;
      queue, sleepingPut, wokenPut, sleepingTake, wokenTake := [], {}, {}, {}, {};
      argument, puts, takes := map[], [], [];
    }

    /** One pass of put under the mutex, by a thread new to it or just released; false when it goes to sleep. */
    method PutOnce(t: Tid, x: T, wakes: Tid) returns (done: bool)
      requires Disjoint(Model()) && Remembered(Model()) && NoLostWakeup(Model(), 1, 0) && Fifo(Model())
      requires Outside(Model(), t) && MayNotify(sleepingTake, wakes)
      modifies this
      ensures Inv(Model()) && Model() == PutPass(old(Model()), t, x, wakes)
      ensures done <==> old(|queue|) < capacity
      ensures puts == old(puts) + if done then [x] else []
      ensures queue == old(queue) + if done then [x] else []
      ensures !done ==> t in sleepingPut && t in argument && argument[t] == x
    {
      hide Inv, NoLostWakeup, Disjoint, Remembered;
      PutPassKeeps(Model(), t, x, wakes);
      if |queue| >= capacity {
        sleepingPut, argument := sleepingPut + {t}, argument[t := x];
        return false;
      }
      queue, puts := queue + [x], puts + [x];
      if wakes in sleepingTake {
        sleepingTake, wokenTake := sleepingTake - {wakes}, wokenTake + {wakes};
      }
      return true;
    }

    method PutAgain(t: Tid, wakes: Tid) returns (done: bool)
      requires Inv(Model()) && Enabled(Model(), RecheckPut(t, wakes))
      modifies this
      ensures Model() == Step(old(Model()), RecheckPut(t, wakes)) && Inv(Model())
      ensures done <==> old(|queue|) < capacity
      ensures puts == old(puts) + if done then [old(argument[t])] else []
    {
      hide PutPass, Inv, NoLostWakeup, Disjoint, Remembered, Fifo;
      LeavesWoken(Model(), t);
      wokenPut := wokenPut - {t};
      done := PutOnce(t, argument[t], wakes);
    }

    /** One pass of take under the mutex, by a thread new to it or just released; None when it goes to sleep. */
    method TakeOnce(t: Tid, wakes: Tid) returns (front: Option<T>)
      requires Disjoint(Model()) && Remembered(Model()) && NoLostWakeup(Model(), 0, 1) && Fifo(Model())
      requires Outside(Model(), t) && MayNotify(sleepingPut, wakes)
      modifies this
      ensures Inv(Model()) && Model() == TakePass(old(Model()), t, wakes)
      ensures front.Some? <==> old(queue) != []
      ensures takes == old(takes) + if front.Some? then [front.value] else []
      ensures old(queue) == (if front.Some? then [front.value] else []) + queue
      ensures front.None? ==> t in sleepingTake
    {
      hide Inv, NoLostWakeup, Disjoint, Remembered;
      TakeKeeps(Model(), t, wakes);
      if queue == [] {
        sleepingTake := sleepingTake + {t};
        return None;
      }
      front := Some(queue[0]);
      queue, takes := queue[1..], takes + [front.value];
      if wakes in sleepingPut {
        sleepingPut, wokenPut := sleepingPut - {wakes}, wokenPut + {wakes};
      }
    }

    method TakeAgain(t: Tid, wakes: Tid) returns (front: Option<T>)
      requires Inv(Model()) && Enabled(Model(), RecheckTake(t, wakes))
      modifies this
      ensures Model() == Step(old(Model()), RecheckTake(t, wakes)) && Inv(Model())
      ensures front.Some? <==> old(queue) != []
      ensures takes == old(takes) + if front.Some? then [front.value] else []
    {
      hide TakePass, Inv, NoLostWakeup, Disjoint, Remembered, Fifo;
      LeavesWoken(Model(), t);
      wokenTake := wokenTake - {t};
      front := TakeOnce(t, wakes);
    }
  }
}
