/** Reactors/net/timer.cc and timer.h: a queue of timers under two indexes, by expiry and
    by id, and the single timerfd that is to go off at the earliest expiry. Clock readings
    and the timers that callbacks add are inputs. */
module Timers {
  import opened Wrappers

  /** Timestamps are microseconds; an interval is in seconds, and positive for a repeater. */
  datatype Timer = Timer(id: nat, expiry: int, interval: int) {
    predicate Repeats() {
      interval > 0
    }

    function Restarted(now: int): Timer {
      this.(expiry := now + interval * 1000 * 1000)
    }
  }

  /** One key of the map queue_, with its list. */
  datatype Slot = Slot(key: int, timers: seq<Timer>)

  /** queue_ in key order; `armed` is the time the timerfd is set to go off, if any. */
  datatype State = State(
    queue: seq<Slot>, byId: map<nat, Timer>, armed: Option<int>, nextId: nat, fired: seq<Timer>)

  /** A timer to add, and the clock if its addition sets the timerfd. */
  datatype Request = Request(ts: int, interval: int, clock: int)

  /** The clock when a repeater is restarted, and then when the timerfd is set. */
  datatype Restart = Restart(now: int, clock: int)

  datatype Event =
    | Add(request: Request)
    | Remove(id: nat)
    /** The timerfd went off: the clock, what each callback adds, and the restarts at each restart. */
    | Fire(now: int, scripts: seq<seq<Request>>, restarts: seq<Restart>)

  // ---------- The map queue_ ----------

  /** queue_[t.expiry].push_back(t) */
  function PushAt(q: seq<Slot>, t: Timer): seq<Slot> {
    if q == [] || t.expiry < q[0].key then [Slot(t.expiry, [t])] + q
    else if q[0].key == t.expiry then [Slot(q[0].key, q[0].timers + [t])] + q[1..]
    else [q[0]] + PushAt(q[1..], t)
  }

  function Without(ts: seq<Timer>, t: Timer): seq<Timer> {
    if ts == [] then [] else (if ts[0] == t then [] else [ts[0]]) + Without(ts[1..], t)
  }

  /** queue_[t.expiry].remove(t): the key stays, possibly with an empty list. */
  function RemoveAt(q: seq<Slot>, t: Timer): seq<Slot> {
    if q == [] || t.expiry < q[0].key then [Slot(t.expiry, [])] + q
    else if q[0].key == t.expiry then [Slot(q[0].key, Without(q[0].timers, t))] + q[1..]
    else [q[0]] + RemoveAt(q[1..], t)
  }

  /** How many leading keys have come. */
  function CountDue(q: seq<Slot>, now: int): (n: nat)
    ensures n <= |q|
  {
    if q == [] || q[0].key > now then 0 else 1 + CountDue(q[1..], now)
  }

  /** Every queued timer, in key order and list order. */
  function TimersOf(q: seq<Slot>): seq<Timer> {
    if q == [] then [] else q[0].timers + TimersOf(q[1..])
  }

  // ---------- The timerfd ----------

  const UINT64_RANGE: nat := 0x1_0000_0000_0000_0000

  /** When the timerfd goes off after ResetTimerfd(ts) at this clock. The interval is the difference
      in 64 unsigned bits: one of zero switches the timerfd off, and a time gone by wraps round. */
  function Setting(ts: int, clock: int): Option<int> {
    var interval := (ts - clock) % UINT64_RANGE;
    if interval == 0 then None else Some(clock + interval)
  }

  /** A time yet to come, within the range of the interval. */
  predicate Ahead(ts: int, clock: int) {
    0 < ts - clock < UINT64_RANGE
  }

  lemma SettingIff(ts: int, clock: int)
    ensures Setting(ts, clock) == Some(ts) <==> Ahead(ts, clock)
  {
  }

  // ---------- The operations ----------

  function AddStep(s: State, r: Request): State {
    var t := Timer(s.nextId, r.ts, r.interval);
    State(PushAt(s.queue, t), s.byId[t.id := t],
          if s.queue == [] || r.ts < s.queue[0].key then Setting(r.ts, r.clock) else s.armed,
          s.nextId + 1, s.fired)
  }

  function RemoveStep(s: State, id: nat): State {
    if id in s.byId then s.(byId := s.byId - {id}, queue := RemoveAt(s.queue, s.byId[id])) else s
  }

  function AddAll(s: State, rs: seq<Request>): State
    decreases |rs|
  {
    if rs == [] then s else AddAll(AddStep(s, rs[0]), rs[1..])
  }

  /** The timers the i-th callback adds. */
  function Script(scripts: seq<seq<Request>>, i: nat): seq<Request> {
    if i < |scripts| then scripts[i] else []
  }

  /** The callbacks of expired[i..], in order. */
  function CallBack(s: State, expired: seq<Timer>, scripts: seq<seq<Request>>, i: nat): State
    decreases |expired| - i
  {
    if i >= |expired| then s
    else
      var erased := s.(byId := s.byId - {expired[i].id}, fired := s.fired + [expired[i]]);
      CallBack(AddAll(erased, Script(scripts, i)), expired, scripts, i + 1)
  }

  function RestartAt(restarts: seq<Restart>, i: nat): Restart {
    if i < |restarts| then restarts[i] else Restart(0, 0)
  }

  /** One turn of ResetTimers. */
  function ResetOne(s: State, t: Timer, r: Restart): State {
    if !t.Repeats() then s
    else
      var u := t.Restarted(r.now);
      var expiredTs := if s.queue != [] && u.expiry > s.queue[0].key then s.queue[0].key else u.expiry;
      s.(queue := PushAt(s.queue, u), byId := s.byId[u.id := u], armed := Setting(expiredTs, r.clock))
  }

  function ResetFrom(s: State, expired: seq<Timer>, restarts: seq<Restart>, i: nat): State
    decreases |expired| - i
  {
    if i >= |expired| then s else ResetFrom(ResetOne(s, expired[i], RestartAt(restarts, i)), expired, restarts, i + 1)
  }

  function Expired(s: State, now: int): seq<Timer> {
    TimersOf(s.queue[..CountDue(s.queue, now)])
  }

  /** The queue once the due keys are erased; the timerfd has gone off and is no longer set. */
  function Collected(s: State, now: int): State {
    s.(queue := s.queue[CountDue(s.queue, now)..], armed := None)
  }

  function FireStep(s: State, now: int, scripts: seq<seq<Request>>, restarts: seq<Restart>): State {
    var expired := Expired(s, now);
    ResetFrom(CallBack(Collected(s, now), expired, scripts, 0), expired, restarts, 0)
  }

  function Step(s: State, e: Event): State {
    match e
    case Add(r) => AddStep(s, r)
    case Remove(id) => RemoveStep(s, id)
    case Fire(now, scripts, restarts) => FireStep(s, now, scripts, restarts)
  }

  function Initial(): State {
    State([], map[], None, 1, [])
  }

  function Run(s: State, es: seq<Event>): State {
    if es == [] then s else Step(Run(s, es[..|es| - 1]), es[|es| - 1])
  }

  // ---------- Reference: one list kept sorted by a stable insertion ----------

  /** After every timer that expires no later, before every timer that expires later. */
  function StableInsert(ts: seq<Timer>, t: Timer): seq<Timer> {
    if ts == [] || t.expiry < ts[0].expiry then [t] + ts
    else [ts[0]] + StableInsert(ts[1..], t)
  }

  ghost predicate SortedByExpiry(ts: seq<Timer>) {
    forall i, j :: 0 <= i < j < |ts| ==> ts[i].expiry <= ts[j].expiry
  }

  /** Keys ascend and every timer is listed under its own expiry. */
  ghost predicate Slots(q: seq<Slot>) {
    && (forall i, j :: 0 <= i < j < |q| ==> q[i].key < q[j].key)
    && (forall i, k :: 0 <= i < |q| && 0 <= k < |q[i].timers| ==> q[i].timers[k].expiry == q[i].key)
  }

  lemma SlotsTail(q: seq<Slot>)
    requires Slots(q) && q != []
    ensures Slots(q[1..])
    ensures q[1..] != [] ==> q[0].key < q[1..][0].key
    ensures forall t :: t in q[0].timers ==> t.expiry == q[0].key
  {
  }

  lemma SlotsCons(s: Slot, q: seq<Slot>)
    requires Slots(q) && (q != [] ==> s.key < q[0].key)
    requires forall t :: t in s.timers ==> t.expiry == s.key
    ensures Slots([s] + q)
  {
    assert forall j :: 0 < j < |q| ==> q[0].key < q[j].key;
  }

  /** Every timer under a slot list expires no earlier than its first key. */
  lemma {:induction false} TimersNotBefore(q: seq<Slot>, key: int)
    requires Slots(q) && (q != [] ==> key <= q[0].key)
    ensures forall t :: t in TimersOf(q) ==> key <= t.expiry
  {
    if q != [] {
      SlotsTail(q);
      TimersNotBefore(q[1..], key);
    }
  }

  lemma {:induction false} InsertBefore(ts: seq<Timer>, t: Timer)
    requires forall u :: u in ts ==> t.expiry < u.expiry
    ensures StableInsert(ts, t) == [t] + ts
  {
    if ts != [] { assert ts[0] in ts; }
  }

  lemma {:induction false} InsertAfter(ts: seq<Timer>, rest: seq<Timer>, t: Timer)
    requires forall u :: u in ts ==> u.expiry <= t.expiry
    ensures StableInsert(ts + rest, t) == ts + StableInsert(rest, t)
  {
    if ts == [] {
      assert ts + rest == rest;
    } else {
      assert ts[0] in ts;
      InsertAfter(ts[1..], rest, t);
      assert (ts + rest)[0] == ts[0] && (ts + rest)[1..] == ts[1..] + rest;
      assert [ts[0]] + (ts[1..] + StableInsert(rest, t)) == ts + StableInsert(rest, t);
    }
  }

  /** The two-level map behaves as the sorted list. */
  lemma {:induction false} PushIsStableInsert(q: seq<Slot>, t: Timer)
    requires Slots(q)
    ensures Slots(PushAt(q, t))
    ensures PushAt(q, t)[0].key == if q == [] || t.expiry < q[0].key then t.expiry else q[0].key
    ensures TimersOf(PushAt(q, t)) == StableInsert(TimersOf(q), t)
  {
    hide Slots, StableInsert, TimersOf;
    if q == [] || t.expiry < q[0].key {
      var slot := Slot(t.expiry, [t]);
      SlotsCons(slot, q);
      TimersOfCons(slot, q);
      TimersNotBefore(q, t.expiry + 1);
      InsertBefore(TimersOf(q), t);
    } else {
      var first, rest := q[0], q[1..];
      SlotsTail(q);
      assert q == [first] + rest;
      TimersOfCons(first, rest);
      InsertAfter(first.timers, TimersOf(rest), t);
      if first.key == t.expiry {
        var slot := Slot(first.key, first.timers + [t]);
        SlotsCons(slot, rest);
        TimersOfCons(slot, rest);
        TimersNotBefore(rest, first.key + 1);
        InsertBefore(TimersOf(rest), t);
        assert first.timers + [t] + TimersOf(rest) == first.timers + ([t] + TimersOf(rest));
      } else {
        PushIsStableInsert(rest, t);
        SlotsCons(first, PushAt(rest, t));
        TimersOfCons(first, PushAt(rest, t));
      }
    }
  }

  // ---------- Removal ----------

  lemma WithoutCons(x: Timer, ts: seq<Timer>, t: Timer)
    ensures Without([x] + ts, t) == (if x == t then [] else [x]) + Without(ts, t)
    ensures Without([], t) == []
  {
    assert ([x] + ts)[1..] == ts;
  }

  lemma {:induction false} WithoutConcat(a: seq<Timer>, b: seq<Timer>, t: Timer)
    ensures Without(a + b, t) == Without(a, t) + Without(b, t)
  {
    hide Without;
    if a == [] {
      WithoutCons(t, [], t);
      assert a + b == b;
    } else {
      var x, rest := a[0], a[1..];
      WithoutConcat(rest, b, t);
      assert a == [x] + rest && a + b == [x] + (rest + b);
      WithoutCons(x, rest, t);
      WithoutCons(x, rest + b, t);
    }
  }

  lemma {:induction false} WithoutAbsent(ts: seq<Timer>, t: Timer)
    requires t !in ts
    ensures Without(ts, t) == ts
  {
    if ts != [] { WithoutAbsent(ts[1..], t); }
  }

  lemma {:induction false} WithoutSubset(ts: seq<Timer>, t: Timer)
    ensures forall u :: u in Without(ts, t) <==> u in ts && u != t
  {
    if ts != [] { WithoutSubset(ts[1..], t); }
  }

  lemma {:induction false} RemoveIsFilter(q: seq<Slot>, t: Timer)
    requires Slots(q)
    ensures Slots(RemoveAt(q, t))
    ensures TimersOf(RemoveAt(q, t)) == Without(TimersOf(q), t)
    ensures t in TimersOf(q) ==> q != [] && RemoveAt(q, t)[0].key == q[0].key
  {
    hide Slots, Without;
    if q == [] || t.expiry < q[0].key {
      SlotsCons(Slot(t.expiry, []), q);
      assert RemoveAt(q, t)[1..] == q;
      TimersNotBefore(q, if q == [] then 0 else q[0].key);
      WithoutAbsent(TimersOf(q), t);
    } else if q[0].key == t.expiry {
      SlotsTail(q);
      WithoutSubset(q[0].timers, t);
      SlotsCons(Slot(q[0].key, Without(q[0].timers, t)), q[1..]);
      assert RemoveAt(q, t)[1..] == q[1..];
      TimersNotBefore(q[1..], q[0].key + 1);
      WithoutAbsent(TimersOf(q[1..]), t);
      WithoutConcat(q[0].timers, TimersOf(q[1..]), t);
    } else {
      SlotsTail(q);
      RemoveIsFilter(q[1..], t);
      RemoveAtKeys(q[1..], t, q[0].key);
      SlotsCons(q[0], RemoveAt(q[1..], t));
      assert RemoveAt(q, t)[1..] == RemoveAt(q[1..], t);
      WithoutAbsent(q[0].timers, t);
      WithoutConcat(q[0].timers, TimersOf(q[1..]), t);
    }
  }

  lemma RemoveAtKeys(q: seq<Slot>, t: Timer, key: int)
    requires key < t.expiry && (q != [] ==> key < q[0].key)
    ensures RemoveAt(q, t) != [] && key < RemoveAt(q, t)[0].key
  {
  }

  // ---------- The due timers ----------

  lemma {:induction false} TimersOfSplit(q: seq<Slot>, d: nat)
    requires d <= |q|
    ensures TimersOf(q) == TimersOf(q[..d]) + TimersOf(q[d..])
  {
    if d == 0 {
      NoTimers();
      assert q[..d] == [] && q[d..] == q;
    } else {
      var q1 := q[1..];
      TimersOfSplit(q1, d - 1);
      assert q[..d][0] == q[0] && q[..d][1..] == q1[..d - 1] && q[d..] == q1[d - 1..];
      assert q[0].timers + (TimersOf(q1[..d - 1]) + TimersOf(q1[d - 1..])) ==
             q[0].timers + TimersOf(q1[..d - 1]) + TimersOf(q1[d - 1..]);
    }
  }

  lemma DueSplits(q: seq<Slot>, now: int)
    requires Slots(q)
    ensures var d := CountDue(q, now);
            && TimersOf(q) == TimersOf(q[..d]) + TimersOf(q[d..])
            && Slots(q[d..])
            && (forall t :: t in TimersOf(q[..d]) ==> t.expiry <= now)
            && (forall t :: t in TimersOf(q[d..]) ==> t.expiry > now)
  {
    hide Slots, TimersOf, CountDue;
    TimersOfSplit(q, CountDue(q, now));
    DueBounds(q, now);
  }

  lemma {:induction false} DueBounds(q: seq<Slot>, now: int)
    requires Slots(q)
    ensures var d := CountDue(q, now);
            && Slots(q[d..])
            && (forall t :: t in TimersOf(q[..d]) ==> t.expiry <= now)
            && (forall t :: t in TimersOf(q[d..]) ==> t.expiry > now)
  {
    hide Slots, TimersOf;
    var d := CountDue(q, now);
    if d == 0 {
      assert q[..d] == [] && q[d..] == q;
      NoTimers();
      TimersNotBefore(q, now + 1);
    } else {
      SlotsTail(q);
      var q1 := q[1..];
      DueBounds(q1, now);
      assert q[..d] == [q[0]] + q1[..d - 1] && q[d..] == q1[d - 1..];
      TimersOfCons(q[0], q1[..d - 1]);
    }
  }

  lemma TimersOfCons(s: Slot, q: seq<Slot>)
    ensures TimersOf([s] + q) == s.timers + TimersOf(q)
  {
    assert ([s] + q)[1..] == q;
  }

  lemma NoTimers()
    ensures TimersOf([]) == []
  {
  }

  lemma {:induction false} TimersSorted(q: seq<Slot>)
    requires Slots(q)
    ensures SortedByExpiry(TimersOf(q))
  {
    if q != [] {
      SlotsTail(q);
      TimersSorted(q[1..]);
      TimersNotBefore(q[1..], q[0].key);
      SortedConcat(q[0].timers, TimersOf(q[1..]), q[0].key);
    }
  }

  lemma SortedConcat(a: seq<Timer>, b: seq<Timer>, key: int)
    requires forall t :: t in a ==> t.expiry == key
    requires SortedByExpiry(b) && forall t :: t in b ==> key <= t.expiry
    ensures SortedByExpiry(a + b)
  {
    forall i, j | 0 <= i < j < |a + b| ensures (a + b)[i].expiry <= (a + b)[j].expiry {
      if i < |a| { assert a[i] in a; }
      if j < |a| { assert a[j] in a; } else { assert b[j - |a|] in b; }
    }
  }

  /** HandleRead runs exactly the timers due at `now`, by expiry and then in the order they were queued. */
  lemma ExpiredIsDue(s: State, now: int)
    requires Slots(s.queue)
    ensures Expired(s, now) <= TimersOf(s.queue)
    ensures forall t :: t in Expired(s, now) <==> t in TimersOf(s.queue) && t.expiry <= now
    ensures SortedByExpiry(Expired(s, now))
  {
    hide TimersOf, CountDue, Slots, SortedByExpiry;
    DueSplits(s.queue, now);
    TimersSorted(s.queue);
    var d := CountDue(s.queue, now);
    SortedPrefix(TimersOf(s.queue[..d]), TimersOf(s.queue[d..]));
  }

  lemma SortedPrefix(a: seq<Timer>, b: seq<Timer>)
    requires SortedByExpiry(a + b)
    ensures SortedByExpiry(a)
  {
    assert forall i :: 0 <= i < |a| ==> (a + b)[i] == a[i];
  }

  // ---------- The two indexes agree ----------

  /** The id index holds exactly these timers, each listed once. */
  ghost predicate Agree(ts: seq<Timer>, m: map<nat, Timer>) {
    && (forall t :: t in ts ==> t.id in m && m[t.id] == t)
    && (forall id :: id in m ==> m[id] in ts && m[id].id == id)
    && (forall t :: t in ts ==> multiset(ts)[t] == 1)
  }

  ghost predicate IdsBelow(m: map<nat, Timer>, n: nat) {
    forall id :: id in m ==> id < n
  }

  ghost predicate Inv(s: State) {
    Slots(s.queue) && Agree(TimersOf(s.queue), s.byId) && IdsBelow(s.byId, s.nextId)
  }

  lemma AgreeInsert(a: seq<Timer>, b: seq<Timer>, t: Timer, m: map<nat, Timer>)
    requires Agree(a + b, m) && t.id !in m
    ensures Agree(a + [t] + b, m[t.id := t])
  {
    var less, more := a + b, a + [t] + b;
    assert multiset(more) == multiset(less) + multiset{t};
    assert forall u :: u in more <==> u in less || u == t;
    assert t !in less;
  }

  /** The stable insertion puts one timer somewhere into the list. */
  lemma {:induction false} StableInsertPosition(ts: seq<Timer>, t: Timer) returns (k: nat)
    ensures k <= |ts| && StableInsert(ts, t) == ts[..k] + [t] + ts[k..]
    ensures forall u :: u in ts[..k] ==> u.expiry <= t.expiry
  {
    if ts == [] || t.expiry < ts[0].expiry {
      k := 0;
      assert ts[..0] == [] && ts[0..] == ts;
    } else {
      k := StableInsertPosition(ts[1..], t);
      k := k + 1;
      assert ts[..k] == [ts[0]] + ts[1..][..k - 1] && ts[k..] == ts[1..][k - 1..];
    }
  }

  lemma AgreeStableInsert(pre: seq<Timer>, ts: seq<Timer>, t: Timer, m: map<nat, Timer>)
    requires Agree(pre + ts, m) && t.id !in m
    ensures Agree(pre + StableInsert(ts, t), m[t.id := t])
  {
    hide Agree, StableInsert;
    var k := StableInsertPosition(ts, t);
    assert pre + ts == (pre + ts[..k]) + ts[k..];
    AgreeInsert(pre + ts[..k], ts[k..], t, m);
    assert pre + StableInsert(ts, t) == (pre + ts[..k]) + [t] + ts[k..];
  }

  lemma AgreeErase(t: Timer, ts: seq<Timer>, m: map<nat, Timer>)
    requires Agree([t] + ts, m)
    ensures Agree(ts, m - {t.id})
  {
    hide Agree;
    assert [] + [t] + ts == [t] + ts && [] + ts == ts;
    AgreeEraseMiddle([], t, ts, m);
  }

  lemma {:induction false} AgreeWithout(pre: seq<Timer>, ts: seq<Timer>, t: Timer, m: map<nat, Timer>)
    requires Agree(pre + ts, m) && t in ts && t !in pre
    ensures Agree(pre + Without(ts, t), m - {t.id})
    decreases |ts|
  {
    hide Agree, Without;
    var x, rest := ts[0], ts[1..];
    assert ts == [x] + rest;
    WithoutCons(x, rest, t);
    if x == t {
      assert pre + ts == pre + [t] + rest;
      AgreeEraseMiddle(pre, t, rest, m);
      WithoutAbsent(rest, t);
      assert Without(ts, t) == rest;
    } else {
      assert pre + ts == (pre + [x]) + rest;
      AgreeWithout(pre + [x], rest, t, m);
      assert pre + Without(ts, t) == (pre + [x]) + Without(rest, t);
    }
  }

  lemma AgreeEraseMiddle(a: seq<Timer>, t: Timer, b: seq<Timer>, m: map<nat, Timer>)
    requires Agree(a + [t] + b, m)
    ensures Agree(a + b, m - {t.id}) && t !in a && t !in b
  {
    var all, some := a + [t] + b, a + b;
    assert multiset(all) == multiset(some) + multiset{t};
    assert forall u :: u in all <==> u in some || u == t;
    assert t in all && multiset(some)[t] == 0;
    assert t !in some && forall u :: u in a || u in b ==> u in some;
  }

  lemma AgreeMember(ts: seq<Timer>, m: map<nat, Timer>, id: nat)
    requires Agree(ts, m) && id in m
    ensures m[id] in ts && m[id].id == id
  {
  }

  // ---------- The operations keep the agreement ----------

  /** AddTimer while `pre` are timers taken out of the queue but still known by id. */
  lemma AddAgrees(s: State, r: Request, pre: seq<Timer>)
    requires Slots(s.queue) && Agree(pre + TimersOf(s.queue), s.byId) && IdsBelow(s.byId, s.nextId)
    ensures var t := AddStep(s, r);
            Slots(t.queue) && Agree(pre + TimersOf(t.queue), t.byId) && IdsBelow(t.byId, t.nextId)
  {
    hide Slots, Agree, PushAt, TimersOf;
    var t := Timer(s.nextId, r.ts, r.interval);
    PushIsStableInsert(s.queue, t);
    AgreeStableInsert(pre, TimersOf(s.queue), t, s.byId);
  }

  lemma RemoveAgrees(s: State, id: nat)
    requires Inv(s)
    ensures Inv(RemoveStep(s, id))
  {
    hide RemoveAt, Slots, TimersOf, Without, Agree;
    if id in s.byId {
      var t, ts := s.byId[id], TimersOf(s.queue);
      AgreeMember(ts, s.byId, id);
      RemoveIsFilter(s.queue, t);
      assert [] + ts == ts && [] + Without(ts, t) == Without(ts, t);
      AgreeWithout([], ts, t, s.byId);
    }
  }

  lemma {:induction false} AddAllAgrees(s: State, rs: seq<Request>, pre: seq<Timer>)
    requires Slots(s.queue) && Agree(pre + TimersOf(s.queue), s.byId) && IdsBelow(s.byId, s.nextId)
    ensures var t := AddAll(s, rs);
            && Slots(t.queue) && Agree(pre + TimersOf(t.queue), t.byId) && IdsBelow(t.byId, t.nextId)
            && t.nextId == s.nextId + |rs| && t.fired == s.fired
            && (forall id :: id in t.byId && id < s.nextId ==> id in s.byId)
    decreases |rs|
  {
    hide Slots, Agree, TimersOf, PushAt;
    if rs != [] {
      AddAgrees(s, rs[0], pre);
      AddAllAgrees(AddStep(s, rs[0]), rs[1..], pre);
    }
  }

  /** None of the first n expired timers is known by id any more. */
  ghost predicate Forgotten(expired: seq<Timer>, m: map<nat, Timer>, n: nat) {
    forall j :: 0 <= j < n && j < |expired| ==> expired[j].id !in m
  }

  ghost predicate DistinctBelow(expired: seq<Timer>, n: nat) {
    && (forall i, j :: 0 <= i < j < |expired| ==> expired[i].id != expired[j].id)
    && (forall i :: 0 <= i < |expired| ==> expired[i].id < n)
  }

  /** The agreement while callbacks run: the timers still to be called back are known by id only. */
  ghost predicate CallBackInv(s: State, expired: seq<Timer>, i: nat) {
    && i <= |expired|
    && Slots(s.queue) && Agree(expired[i..] + TimersOf(s.queue), s.byId) && IdsBelow(s.byId, s.nextId)
    && DistinctBelow(expired, s.nextId) && Forgotten(expired, s.byId, i)
  }

  lemma CallBackOne(s: State, expired: seq<Timer>, rs: seq<Request>, i: nat)
    requires CallBackInv(s, expired, i) && i < |expired|
    ensures var erased := s.(byId := s.byId - {expired[i].id}, fired := s.fired + [expired[i]]);
            CallBackInv(AddAll(erased, rs), expired, i + 1)
  {
    hide Slots, TimersOf, Agree, AddAll;
    var x, rest := expired[i], expired[i + 1..];
    var erased := s.(byId := s.byId - {x.id}, fired := s.fired + [x]);
    assert expired[i..] + TimersOf(s.queue) == [x] + (rest + TimersOf(s.queue));
    AgreeErase(x, rest + TimersOf(s.queue), s.byId);
    AddAllAgrees(erased, rs, rest);
  }

  lemma {:induction false} CallBackAgrees(s: State, expired: seq<Timer>, scripts: seq<seq<Request>>, i: nat)
    requires CallBackInv(s, expired, i)
    ensures var t := CallBack(s, expired, scripts, i);
            CallBackInv(t, expired, |expired|) && t.fired == s.fired + expired[i..]
    decreases |expired| - i
  {
    hide CallBackInv, AddAll, Script;
    CallBackBound(s, expired, i);
    if i < |expired| {
      var x := expired[i];
      var erased := s.(byId := s.byId - {x.id}, fired := s.fired + [x]);
      var next := AddAll(erased, Script(scripts, i));
      CallBackOne(s, expired, Script(scripts, i), i);
      AddAllFired(erased, Script(scripts, i));
      CallBackAgrees(next, expired, scripts, i + 1);
      assert s.fired + [x] + expired[i + 1..] == s.fired + expired[i..];
    } else {
      assert s.fired + expired[i..] == s.fired;
    }
  }

  lemma CallBackBound(s: State, expired: seq<Timer>, i: nat)
    requires CallBackInv(s, expired, i)
    ensures i <= |expired|
  {
  }

  lemma {:induction false} AddAllFired(s: State, rs: seq<Request>)
    ensures AddAll(s, rs).fired == s.fired
    decreases |rs|
  {
    if rs != [] { AddAllFired(AddStep(s, rs[0]), rs[1..]); }
  }

  ghost predicate ResetInv(s: State, expired: seq<Timer>, i: nat) {
    && Inv(s) && DistinctBelow(expired, s.nextId)
    && forall j :: i <= j < |expired| ==> expired[j].id !in s.byId
  }

  lemma ResetOneAgrees(s: State, expired: seq<Timer>, r: Restart, i: nat)
    requires ResetInv(s, expired, i) && i < |expired|
    ensures ResetInv(ResetOne(s, expired[i], r), expired, i + 1)
  {
    hide Slots, TimersOf, Agree, PushAt;
    var t := expired[i];
    if t.Repeats() {
      var u := t.Restarted(r.now);
      PushIsStableInsert(s.queue, u);
      assert [] + TimersOf(s.queue) == TimersOf(s.queue);
      AgreeStableInsert([], TimersOf(s.queue), u, s.byId);
      assert [] + StableInsert(TimersOf(s.queue), u) == StableInsert(TimersOf(s.queue), u);
    }
  }

  lemma {:induction false} ResetAgrees(s: State, expired: seq<Timer>, restarts: seq<Restart>, i: nat)
    requires ResetInv(s, expired, i)
    ensures var t := ResetFrom(s, expired, restarts, i);
            Inv(t) && t.fired == s.fired && t.nextId == s.nextId
    decreases |expired| - i
  {
    hide Slots, TimersOf, Agree, PushAt;
    if i < |expired| {
      ResetOneAgrees(s, expired, RestartAt(restarts, i), i);
      ResetAgrees(ResetOne(s, expired[i], RestartAt(restarts, i)), expired, restarts, i + 1);
    }
  }

  lemma AgreeDistinct(a: seq<Timer>, b: seq<Timer>, m: map<nat, Timer>, n: nat)
    requires Agree(a + b, m) && IdsBelow(m, n)
    ensures DistinctBelow(a, n)
  {
    assert forall t :: t in a ==> t in a + b;
    forall i, j | 0 <= i < j < |a| ensures a[i].id != a[j].id {
      assert a + b == a[..j] + (a[j..] + b);
      assert a[i] in a[..j] && a[j] in a[j..] + b;
      CountTwice(a[..j], a[j..] + b, a[i]);
      assert a[i] in a && a[j] in a;
    }
    assert forall i :: 0 <= i < |a| ==> a[i] in a;
  }

  lemma CountTwice(a: seq<Timer>, b: seq<Timer>, t: Timer)
    requires t in a
    ensures t in b ==> multiset(a + b)[t] >= 2
  {
    assert multiset(a + b) == multiset(a) + multiset(b);
  }

  lemma FireAgrees(s: State, now: int, scripts: seq<seq<Request>>, restarts: seq<Restart>)
    requires Inv(s)
    ensures Inv(FireStep(s, now, scripts, restarts))
    ensures FireStep(s, now, scripts, restarts).fired == s.fired + Expired(s, now)
  {
    hide Slots, TimersOf, Agree, CountDue, ResetFrom, CallBack;
    var expired := Expired(s, now);
    var c := Collected(s, now);
    DueSplits(s.queue, now);
    AgreeDistinct(expired, TimersOf(c.queue), s.byId, s.nextId);
    assert expired[0..] == expired;
    CallBackAgrees(c, expired, scripts, 0);
    var t := CallBack(c, expired, scripts, 0);
    assert expired[|expired|..] + TimersOf(t.queue) == TimersOf(t.queue);
    ResetAgrees(t, expired, restarts, 0);
  }

  lemma StepKeeps(s: State, e: Event)
    requires Inv(s)
    ensures Inv(Step(s, e))
  {
    hide Slots, TimersOf, Agree, FireStep, AddStep, RemoveStep;
    match e
    case Add(r) =>
      assert [] + TimersOf(s.queue) == TimersOf(s.queue);
      AddAgrees(s, r, []);
      assert [] + TimersOf(AddStep(s, r).queue) == TimersOf(AddStep(s, r).queue);
    case Remove(id) => RemoveAgrees(s, id);
    case Fire(now, scripts, restarts) => FireAgrees(s, now, scripts, restarts);
  }

  /** In every run both indexes hold the same timers, each once and under its own expiry. */
  lemma {:induction false} RunKeeps(es: seq<Event>)
    ensures Inv(Run(Initial(), es))
  {
    hide Step, Inv;
    InitialInv();
    if es != [] {
      RunKeeps(es[..|es| - 1]);
      StepKeeps(Run(Initial(), es[..|es| - 1]), es[|es| - 1]);
    }
  }

  lemma InitialInv()
    ensures Inv(Initial())
  {
  }

  /** The same, spelled out: an id is known exactly when its timer is queued, under its own expiry, once. */
  lemma IndexesAgree(es: seq<Event>)
    ensures var s := Run(Initial(), es);
            && (forall id :: id in s.byId ==> s.byId[id].id == id && s.byId[id] in TimersOf(s.queue))
            && (forall t :: t in TimersOf(s.queue) ==> t.id in s.byId && s.byId[t.id] == t)
            && (forall t :: t in TimersOf(s.queue) ==> multiset(TimersOf(s.queue))[t] == 1)
            && Slots(s.queue)
  {
    RunKeeps(es);
  }

  /** AddTimer hands out an id not in use and queues one timer, behind all that expire no later. */
  lemma AddQueuesOne(s: State, r: Request)
    requires Inv(s)
    ensures var t := AddStep(s, r);
            var timer := Timer(s.nextId, r.ts, r.interval);
            && s.nextId !in s.byId && t.byId == s.byId[s.nextId := timer]
            && TimersOf(t.queue) == StableInsert(TimersOf(s.queue), timer)
  {
    hide Slots, TimersOf, Agree, PushAt;
    PushIsStableInsert(s.queue, Timer(s.nextId, r.ts, r.interval));
  }

  /** RemoveTimer takes out the timer of that id, if there is one, and nothing else. */
  lemma RemoveTakesOne(s: State, id: nat)
    requires Inv(s)
    ensures var t := RemoveStep(s, id);
            && t.byId == s.byId - {id}
            && t.armed == s.armed && t.fired == s.fired
            && (forall u :: u in TimersOf(t.queue) <==> u in TimersOf(s.queue) && u.id != id)
            && (id !in s.byId ==> t == s)
  {
    hide RemoveAt, Slots, TimersOf;
    if id in s.byId {
      var timer := s.byId[id];
      RemoveIsFilter(s.queue, timer);
      WithoutSubset(TimersOf(s.queue), timer);
    } else {
      assert s.byId - {id} == s.byId;
    }
  }

  // ---------- What is queued after HandleRead ----------

  function InsertAll(ts: seq<Timer>, us: seq<Timer>): seq<Timer>
    decreases |us|
  {
    if us == [] then ts else InsertAll(StableInsert(ts, us[0]), us[1..])
  }

  /** The timers made from these requests, numbered from `id`. */
  function Numbered(id: nat, rs: seq<Request>): seq<Timer> {
    seq(|rs|, i requires 0 <= i < |rs| => Timer(id + i, rs[i].ts, rs[i].interval))
  }

  /** All that the callbacks of expired[i..n] add, in order. */
  function Requests(scripts: seq<seq<Request>>, i: nat, n: nat): seq<Request>
    decreases n - i
  {
    if i >= n then [] else Script(scripts, i) + Requests(scripts, i + 1, n)
  }

  /** The repeaters of expired[i..], restarted. */
  function Restarts(expired: seq<Timer>, restarts: seq<Restart>, i: nat): seq<Timer>
    decreases |expired| - i
  {
    if i >= |expired| then []
    else (if expired[i].Repeats() then [expired[i].Restarted(RestartAt(restarts, i).now)] else []) +
         Restarts(expired, restarts, i + 1)
  }

  lemma {:induction false} AddAllInserts(s: State, rs: seq<Request>)
    requires Slots(s.queue)
    ensures Slots(AddAll(s, rs).queue)
    ensures TimersOf(AddAll(s, rs).queue) == InsertAll(TimersOf(s.queue), Numbered(s.nextId, rs))
    decreases |rs|
  {
    hide Slots, TimersOf, PushAt, StableInsert;
    if rs != [] {
      var t := Timer(s.nextId, rs[0].ts, rs[0].interval);
      PushIsStableInsert(s.queue, t);
      AddAllInserts(AddStep(s, rs[0]), rs[1..]);
      assert Numbered(s.nextId, rs)[0] == t;
      assert Numbered(s.nextId, rs)[1..] == Numbered(s.nextId + 1, rs[1..]);
    }
  }

  lemma {:induction false} AddAllConcat(s: State, a: seq<Request>, b: seq<Request>)
    ensures AddAll(s, a + b) == AddAll(AddAll(s, a), b)
    decreases |a|
  {
    if a == [] {
      assert a + b == b;
    } else {
      assert (a + b)[0] == a[0] && (a + b)[1..] == a[1..] + b;
      AddAllConcat(AddStep(s, a[0]), a[1..], b);
    }
  }

  ghost predicate SameSchedule(s: State, t: State) {
    s.queue == t.queue && s.armed == t.armed && s.nextId == t.nextId
  }

  lemma {:induction false} AddAllSame(s: State, t: State, rs: seq<Request>)
    requires SameSchedule(s, t)
    ensures SameSchedule(AddAll(s, rs), AddAll(t, rs))
    decreases |rs|
  {
    hide PushAt;
    if rs != [] { AddAllSame(AddStep(s, rs[0]), AddStep(t, rs[0]), rs[1..]); }
  }

  /** For the schedule, running the callbacks is adding their timers one after another. */
  lemma {:induction false} CallBackAdds(s: State, expired: seq<Timer>, scripts: seq<seq<Request>>, i: nat)
    requires i <= |expired|
    ensures SameSchedule(CallBack(s, expired, scripts, i), AddAll(s, Requests(scripts, i, |expired|)))
    decreases |expired| - i
  {
    hide AddAll;
    if i < |expired| {
      var rs, rest := Script(scripts, i), Requests(scripts, i + 1, |expired|);
      var erased := s.(byId := s.byId - {expired[i].id}, fired := s.fired + [expired[i]]);
      CallBackAdds(AddAll(erased, rs), expired, scripts, i + 1);
      AddAllSame(erased, s, rs);
      AddAllSame(AddAll(erased, rs), AddAll(s, rs), rest);
      AddAllConcat(s, rs, rest);
    } else {
      AddNothing(s);
    }
  }

  lemma AddNothing(s: State)
    ensures AddAll(s, []) == s
  {
  }

  lemma {:induction false} ResetInserts(s: State, expired: seq<Timer>, restarts: seq<Restart>, i: nat)
    requires Slots(s.queue)
    ensures TimersOf(ResetFrom(s, expired, restarts, i).queue) ==
            InsertAll(TimersOf(s.queue), Restarts(expired, restarts, i))
    decreases |expired| - i
  {
    hide Slots, TimersOf, PushAt, StableInsert, RestartAt;
    if i < |expired| {
      var t := expired[i];
      var rest := Restarts(expired, restarts, i + 1);
      if t.Repeats() {
        var u := t.Restarted(RestartAt(restarts, i).now);
        PushIsStableInsert(s.queue, u);
        assert ([u] + rest)[0] == u && ([u] + rest)[1..] == rest;
      } else {
        assert [] + rest == rest;
      }
      ResetInserts(ResetOne(s, t, RestartAt(restarts, i)), expired, restarts, i + 1);
    }
  }

  /** HandleRead leaves exactly: the timers not yet due, those the callbacks added, and the
      repeaters under their new expiry; expired one-shots are gone. */
  lemma QueuedAfterFire(s: State, now: int, scripts: seq<seq<Request>>, restarts: seq<Restart>)
    requires Slots(s.queue)
    ensures var expired := Expired(s, now);
            var later := TimersOf(Collected(s, now).queue);
            var added := Numbered(s.nextId, Requests(scripts, 0, |expired|));
            && TimersOf(s.queue) == expired + later
            && (forall t :: t in later ==> t.expiry > now)
            && TimersOf(FireStep(s, now, scripts, restarts).queue) ==
               InsertAll(InsertAll(later, added), Restarts(expired, restarts, 0))
  {
    hide Slots, TimersOf, CountDue, CallBack, ResetFrom, InsertAll, Numbered, Requests, Restarts;
    var expired := Expired(s, now);
    var c := Collected(s, now);
    DueSplits(s.queue, now);
    CallBackAdds(c, expired, scripts, 0);
    AddAllInserts(c, Requests(scripts, 0, |expired|));
    ResetInserts(CallBack(c, expired, scripts, 0), expired, restarts, 0);
  }

  // ---------- Each timer after HandleRead, by id ----------

  /** How many timers the callbacks of expired[i..j] add. */
  function Count(scripts: seq<seq<Request>>, i: nat, j: nat): nat
    decreases j - i
  {
    if i >= j then 0 else |Script(scripts, i)| + Count(scripts, i + 1, j)
  }

  ghost predicate IsOneOf(expired: seq<Timer>, i: nat, id: nat) {
    exists j :: i <= j < |expired| && expired[j].id == id
  }

  /** The two maps agree on this id. */
  ghost predicate SameAt(m: map<nat, Timer>, n: map<nat, Timer>, id: nat) {
    (id in m <==> id in n) && (id in m ==> m[id] == n[id])
  }

  /** Request r is known under this id, as it was asked for. */
  ghost predicate AddedAs(m: map<nat, Timer>, id: nat, r: Request) {
    id in m && m[id] == Timer(id, r.ts, r.interval)
  }

  /** A repeater starts again its interval, in seconds, after the clock of its restart; a one-shot is gone. */
  ghost predicate RestartedAs(m: map<nat, Timer>, t: Timer, r: Restart) {
    if t.interval > 0 then t.id in m && m[t.id] == Timer(t.id, r.now + 1_000_000 * t.interval, t.interval)
    else t.id !in m
  }

  lemma {:induction false} AddAllById(s: State, rs: seq<Request>)
    ensures var t := AddAll(s, rs);
            && t.nextId == s.nextId + |rs|
            && (forall k :: 0 <= k < |rs| ==> AddedAs(t.byId, s.nextId + k, rs[k]))
            && (forall id: nat :: id < s.nextId || t.nextId <= id ==> SameAt(s.byId, t.byId, id))
    decreases |rs|
  {
    hide PushAt, Setting;
    if rs != [] {
      var u := AddStep(s, rs[0]);
      AddAllById(u, rs[1..]);
      var t := AddAll(s, rs);
      assert SameAt(u.byId, t.byId, s.nextId);
      forall k | 0 <= k < |rs| ensures AddedAs(t.byId, s.nextId + k, rs[k]) {
        if k > 0 { assert AddedAs(t.byId, u.nextId + (k - 1), rs[1..][k - 1]); }
      }
      forall id: nat | id < s.nextId || t.nextId <= id ensures SameAt(s.byId, t.byId, id) {
        assert SameAt(u.byId, t.byId, id);
      }
    }
  }

  ghost predicate CalledBack(s: State, t: State, expired: seq<Timer>, scripts: seq<seq<Request>>, i: nat) {
    && t.nextId == s.nextId + Count(scripts, i, |expired|)
    && (forall id: nat :: id < s.nextId ==> if IsOneOf(expired, i, id) then id !in t.byId else SameAt(s.byId, t.byId, id))
    && (forall j, k :: i <= j < |expired| && j < |scripts| && 0 <= k < |scripts[j]| ==>
          AddedAs(t.byId, s.nextId + Count(scripts, i, j) + k, scripts[j][k]))
    && (forall id: nat :: t.nextId <= id ==> id !in t.byId)
  }

  lemma CountStep(scripts: seq<seq<Request>>, i: nat, j: nat)
    requires i < j
    ensures Count(scripts, i, j) == |Script(scripts, i)| + Count(scripts, i + 1, j)
    ensures j < |scripts| ==> Script(scripts, j) == scripts[j]
  {
  }

  lemma IsOneOfStep(expired: seq<Timer>, i: nat, id: nat)
    requires i < |expired|
    ensures IsOneOf(expired, i, id) <==> expired[i].id == id || IsOneOf(expired, i + 1, id)
  {
    if IsOneOf(expired, i, id) {
      var j :| i <= j < |expired| && expired[j].id == id;
      assert j == i || i + 1 <= j;
    }
  }

  lemma {:induction false} CallBackById(s: State, expired: seq<Timer>, scripts: seq<seq<Request>>, i: nat)
    requires i <= |expired| && DistinctBelow(expired, s.nextId) && IdsBelow(s.byId, s.nextId)
    ensures CalledBack(s, CallBack(s, expired, scripts, i), expired, scripts, i)
    decreases |expired| - i
  {
    if i < |expired| {
      hide CalledBack, AddAll, Count, SameAt, AddedAs, IsOneOf, Script;
      var x, rs := expired[i], Script(scripts, i);
      var erased := s.(byId := s.byId - {x.id}, fired := s.fired + [x]);
      var u := AddAll(erased, rs);
      AddAllById(erased, rs);
      AddAllKeepsBound(erased, u);
      CallBackById(u, expired, scripts, i + 1);
      CalledBackStep(s, u, CallBack(u, expired, scripts, i + 1), expired, scripts, i);
    }
  }

  lemma AddAllKeepsBound(s: State, u: State)
    requires IdsBelow(s.byId, s.nextId) && s.nextId <= u.nextId
    requires forall id: nat :: id < s.nextId || u.nextId <= id ==> SameAt(s.byId, u.byId, id)
    ensures IdsBelow(u.byId, u.nextId)
  {
    forall id: nat | u.nextId <= id ensures id !in u.byId {
      assert SameAt(s.byId, u.byId, id);
    }
  }

  lemma CalledBackStep(s: State, u: State, t: State, expired: seq<Timer>, scripts: seq<seq<Request>>, i: nat)
    requires i < |expired| && DistinctBelow(expired, s.nextId)
    requires u.nextId == s.nextId + |Script(scripts, i)|
    requires forall k :: 0 <= k < |Script(scripts, i)| ==> AddedAs(u.byId, s.nextId + k, Script(scripts, i)[k])
    requires forall id: nat :: id < s.nextId || u.nextId <= id ==> SameAt(s.byId - {expired[i].id}, u.byId, id)
    requires CalledBack(u, t, expired, scripts, i + 1)
    ensures CalledBack(s, t, expired, scripts, i)
  {
    hide Count, IsOneOf, Script;
    var m := s.byId - {expired[i].id};
    CountStep(scripts, i, |expired|);
    forall id: nat | id < s.nextId
      ensures if IsOneOf(expired, i, id) then id !in t.byId else SameAt(s.byId, t.byId, id)
    {
      IsOneOfStep(expired, i, id);
      assert SameAt(m, u.byId, id);
    }
    forall j, k | i <= j < |expired| && j < |scripts| && 0 <= k < |scripts[j]|
      ensures AddedAs(t.byId, s.nextId + Count(scripts, i, j) + k, scripts[j][k])
    {
      if j == i {
        CountNone(scripts, i);
        var id := s.nextId + k;
        assert AddedAs(u.byId, s.nextId + k, Script(scripts, i)[k]);
        NotExpired(expired, i + 1, id, s.nextId);
        assert SameAt(u.byId, t.byId, id);
      } else {
        CountStep(scripts, i, j);
        assert AddedAs(t.byId, u.nextId + Count(scripts, i + 1, j) + k, scripts[j][k]);
      }
    }
  }

  lemma CountNone(scripts: seq<seq<Request>>, i: nat)
    ensures Count(scripts, i, i) == 0
    ensures i < |scripts| ==> Script(scripts, i) == scripts[i]
  {
  }

  lemma NotExpired(expired: seq<Timer>, i: nat, id: nat, bound: nat)
    requires DistinctBelow(expired, bound) && bound <= id
    ensures !IsOneOf(expired, i, id)
  {
  }

  lemma ResetOneById(s: State, t: Timer, r: Restart)
    requires t.id !in s.byId
    ensures var u := ResetOne(s, t, r);
            && RestartedAs(u.byId, t, r) && u.nextId == s.nextId
            && (forall id: nat :: id != t.id ==> SameAt(s.byId, u.byId, id))
  {
    hide PushAt, Setting;
  }

  lemma {:induction false} ResetById(s: State, expired: seq<Timer>, restarts: seq<Restart>, i: nat)
    requires i <= |expired| && DistinctBelow(expired, s.nextId)
    requires forall j :: i <= j < |expired| ==> expired[j].id !in s.byId
    ensures var t := ResetFrom(s, expired, restarts, i);
            && (forall j :: i <= j < |expired| ==> RestartedAs(t.byId, expired[j], RestartAt(restarts, j)))
            && (forall id: nat :: !IsOneOf(expired, i, id) ==> SameAt(s.byId, t.byId, id))
            && t.nextId == s.nextId
    decreases |expired| - i
  {
    if i < |expired| {
      hide ResetOne, SameAt, RestartedAs, IsOneOf, RestartAt;
      var x := expired[i];
      var u := ResetOne(s, x, RestartAt(restarts, i));
      ResetOneById(s, x, RestartAt(restarts, i));
      forall j | i + 1 <= j < |expired| ensures expired[j].id !in u.byId {
        assert SameAt(s.byId, u.byId, expired[j].id);
        StillAbsent(s.byId, u.byId, expired[j].id);
      }
      ResetById(u, expired, restarts, i + 1);
      var t := ResetFrom(u, expired, restarts, i + 1);
      DistinctFrom(expired, i, s.nextId);
      assert SameAt(u.byId, t.byId, x.id);
      SameRestarted(u.byId, t.byId, x, RestartAt(restarts, i));
      forall id: nat | !IsOneOf(expired, i, id) ensures SameAt(s.byId, t.byId, id) {
        IsOneOfStep(expired, i, id);
        assert SameAt(s.byId, u.byId, id) && SameAt(u.byId, t.byId, id);
        SameTwice(s.byId, u.byId, t.byId, id);
      }
    }
  }

  lemma StillAbsent(m: map<nat, Timer>, n: map<nat, Timer>, id: nat)
    requires SameAt(m, n, id) && id !in m
    ensures id !in n
  {
  }

  lemma SameTwice(a: map<nat, Timer>, b: map<nat, Timer>, c: map<nat, Timer>, id: nat)
    requires SameAt(a, b, id) && SameAt(b, c, id)
    ensures SameAt(a, c, id)
  {
  }

  lemma SameRestarted(m: map<nat, Timer>, n: map<nat, Timer>, t: Timer, r: Restart)
    requires SameAt(m, n, t.id) && RestartedAs(m, t, r)
    ensures RestartedAs(n, t, r)
  {
  }

  lemma DistinctFrom(expired: seq<Timer>, i: nat, bound: nat)
    requires i < |expired| && DistinctBelow(expired, bound)
    ensures !IsOneOf(expired, i + 1, expired[i].id)
  {
  }

  /** HandleRead, timer by timer. Each expired repeater starts again one interval after its restart
      and each expired one-shot is gone; each timer not due is left as it was; the k-th timer the j-th
      callback asks for is there under the next free id; and there is nothing else. */
  lemma TimersAfterFire(s: State, now: int, scripts: seq<seq<Request>>, restarts: seq<Restart>)
    requires Inv(s)
    ensures var expired, t := Expired(s, now), FireStep(s, now, scripts, restarts);
            && (forall j :: 0 <= j < |expired| ==> RestartedAs(t.byId, expired[j], RestartAt(restarts, j)))
            && (forall id: nat :: id < s.nextId && !IsOneOf(expired, 0, id) ==> SameAt(s.byId, t.byId, id))
            && (forall j, k :: 0 <= j < |expired| && j < |scripts| && 0 <= k < |scripts[j]| ==>
                  AddedAs(t.byId, s.nextId + Count(scripts, 0, j) + k, scripts[j][k]))
            && t.nextId == s.nextId + Count(scripts, 0, |expired|)
            && (forall id: nat :: t.nextId <= id ==> id !in t.byId)
  {
    hide *;
    var expired, c := Expired(s, now), Collected(s, now);
    CollectedFacts(s, now);
    CallBackById(c, expired, scripts, 0);
    var b := CallBack(c, expired, scripts, 0);
    CalledBackFacts(c, b, expired, scripts);
    ResetById(b, expired, restarts, 0);
    FireUnfolds(s, now, scripts, restarts);
    var t := FireStep(s, now, scripts, restarts);
    forall id: nat | id < s.nextId && !IsOneOf(expired, 0, id) ensures SameAt(s.byId, t.byId, id) {
      assert SameAt(s.byId, b.byId, id) && SameAt(b.byId, t.byId, id);
      SameTwice(s.byId, b.byId, t.byId, id);
    }
    forall j, k | 0 <= j < |expired| && j < |scripts| && 0 <= k < |scripts[j]|
      ensures AddedAs(t.byId, s.nextId + Count(scripts, 0, j) + k, scripts[j][k])
    {
      var id := s.nextId + Count(scripts, 0, j) + k;
      assert AddedAs(b.byId, id, scripts[j][k]);
      NotExpired(expired, 0, id, s.nextId);
      assert SameAt(b.byId, t.byId, id);
      SameAdded(b.byId, t.byId, id, scripts[j][k]);
    }
    forall id: nat | t.nextId <= id ensures id !in t.byId {
      NotExpired(expired, 0, id, b.nextId);
      assert SameAt(b.byId, t.byId, id);
      StillAbsent(b.byId, t.byId, id);
    }
  }

  lemma SameAdded(m: map<nat, Timer>, n: map<nat, Timer>, id: nat, r: Request)
    requires SameAt(m, n, id) && AddedAs(m, id, r)
    ensures AddedAs(n, id, r)
  {
  }

  lemma CollectedFacts(s: State, now: int)
    requires Inv(s)
    ensures var c := Collected(s, now);
            && c.byId == s.byId && c.nextId == s.nextId
            && DistinctBelow(Expired(s, now), c.nextId) && IdsBelow(c.byId, c.nextId)
  {
    hide Slots, TimersOf, Agree, CountDue;
    DueSplits(s.queue, now);
    AgreeDistinct(Expired(s, now), TimersOf(Collected(s, now).queue), s.byId, s.nextId);
  }

  lemma CalledBackFacts(s: State, t: State, expired: seq<Timer>, scripts: seq<seq<Request>>)
    requires CalledBack(s, t, expired, scripts, 0) && DistinctBelow(expired, s.nextId)
    ensures t.nextId == s.nextId + Count(scripts, 0, |expired|) && DistinctBelow(expired, t.nextId)
    ensures forall j :: 0 <= j < |expired| ==> expired[j].id !in t.byId
    ensures forall id: nat :: id < s.nextId && !IsOneOf(expired, 0, id) ==> SameAt(s.byId, t.byId, id)
    ensures forall j, k :: 0 <= j < |expired| && j < |scripts| && 0 <= k < |scripts[j]| ==>
              AddedAs(t.byId, s.nextId + Count(scripts, 0, j) + k, scripts[j][k])
    ensures forall id: nat :: t.nextId <= id ==> id !in t.byId
  {
    hide Count, AddedAs, SameAt;
    forall j | 0 <= j < |expired| ensures expired[j].id !in t.byId {
      assert IsOneOf(expired, 0, expired[j].id);
    }
  }

  lemma FireUnfolds(s: State, now: int, scripts: seq<seq<Request>>, restarts: seq<Restart>)
    ensures var expired := Expired(s, now);
            FireStep(s, now, scripts, restarts) ==
            ResetFrom(CallBack(Collected(s, now), expired, scripts, 0), expired, restarts, 0)
  {
    hide Expired, Collected, CallBack, ResetFrom;
  }

  // ---------- Is the timerfd set for the earliest key? ----------

  function FirstKey(q: seq<Slot>): Option<int> {
    if q == [] then None else Some(q[0].key)
  }

  /** A non-empty queue has the timerfd set for its first key. */
  ghost predicate Armed(s: State) {
    s.queue != [] ==> s.armed == FirstKey(s.queue)
  }

  predicate Before(ts: int, key: Option<int>) {
    key.None? || ts < key.value
  }

  /** Request j is the first of the earliest, and earlier than everything queued. */
  ghost predicate Leads(q: seq<Slot>, rs: seq<Request>, j: int) {
    && 0 <= j < |rs| && Before(rs[j].ts, FirstKey(q))
    && (forall i :: 0 <= i < j ==> rs[j].ts < rs[i].ts)
    && (forall i :: j < i < |rs| ==> rs[j].ts <= rs[i].ts)
  }

  lemma LeadsUnique(q: seq<Slot>, rs: seq<Request>, i: int, j: int)
    requires Leads(q, rs, i) && Leads(q, rs, j)
    ensures i == j
  {
    hide FirstKey, Before;
  }

  /** The smallest of a key and these times. */
  function Least(key: Option<int>, ts: seq<int>): Option<int>
    decreases |ts|
  {
    if ts == [] then key else Least(if Before(ts[0], key) then Some(ts[0]) else key, ts[1..])
  }

  function Times(rs: seq<Request>): seq<int> {
    seq(|rs|, i requires 0 <= i < |rs| => rs[i].ts)
  }

  function Expiries(ts: seq<Timer>): seq<int> {
    seq(|ts|, i requires 0 <= i < |ts| => ts[i].expiry)
  }

  lemma AddFirstKey(s: State, r: Request)
    requires Slots(s.queue)
    ensures var t := AddStep(s, r);
            && Slots(t.queue)
            && FirstKey(t.queue) == (if Before(r.ts, FirstKey(s.queue)) then Some(r.ts) else FirstKey(s.queue))
            && t.armed == (if Before(r.ts, FirstKey(s.queue)) then Setting(r.ts, r.clock) else s.armed)
  {
    hide Slots, Setting;
    PushIsStableInsert(s.queue, Timer(s.nextId, r.ts, r.interval));
    PushNonEmpty(s.queue, Timer(s.nextId, r.ts, r.interval));
  }

  lemma PushNonEmpty(q: seq<Slot>, t: Timer)
    ensures PushAt(q, t) != []
  {
  }

  lemma {:induction false} AddAllFirstKey(s: State, rs: seq<Request>)
    requires Slots(s.queue)
    ensures FirstKey(AddAll(s, rs).queue) == Least(FirstKey(s.queue), Times(rs))
    decreases |rs|
  {
    hide Slots, AddStep, FirstKey, Before;
    if rs != [] {
      AddFirstKey(s, rs[0]);
      AddAllFirstKey(AddStep(s, rs[0]), rs[1..]);
      assert Times(rs)[0] == rs[0].ts && Times(rs)[1..] == Times(rs[1..]);
    }
  }

  /** Adding timers leaves the timerfd as the leading request set it, or as it was when none leads. */
  lemma {:induction false} AddAllSets(s: State, rs: seq<Request>) returns (j: int)
    requires Slots(s.queue)
    ensures var t := AddAll(s, rs);
            && -1 <= j < |rs| && Slots(t.queue)
            && (j >= 0 ==> Leads(s.queue, rs, j) && FirstKey(t.queue) == Some(rs[j].ts)
                           && t.armed == Setting(rs[j].ts, rs[j].clock))
            && (j == -1 ==> (forall i :: 0 <= i < |rs| ==> !Before(rs[i].ts, FirstKey(s.queue)))
                            && FirstKey(t.queue) == FirstKey(s.queue) && t.armed == s.armed)
    decreases |rs|
  {
    hide Slots, AddStep, FirstKey, Setting, AddAll;
    if rs == [] {
      AddNothing(s);
      j := -1;
    } else {
      var n := |rs| - 1;
      var front, r := rs[..n], rs[n];
      j := AddAllSets(s, front);
      var t := AddAll(s, front);
      AddAllSnoc(s, front, r);
      assert rs == front + [r];
      AddFirstKey(t, r);
      if Before(r.ts, FirstKey(t.queue)) {
        j := n;
      }
    }
  }

  lemma AddAllSnoc(s: State, rs: seq<Request>, r: Request)
    ensures AddAll(s, rs + [r]) == AddStep(AddAll(s, rs), r)
  {
    hide AddStep;
    AddAllConcat(s, rs, [r]);
    assert [r][1..] == [];
  }

  ghost predicate AnyRepeats(expired: seq<Timer>) {
    exists j :: 0 <= j < |expired| && expired[j].Repeats()
  }

  ghost predicate LastRepeater(expired: seq<Timer>, j: int) {
    && 0 <= j < |expired| && expired[j].Repeats()
    && (forall i :: j < i < |expired| ==> !expired[i].Repeats())
  }

  lemma ResetFirstKey(s: State, t: Timer, r: Restart)
    requires Slots(s.queue) && t.Repeats()
    ensures var u := ResetOne(s, t, r);
            var ts := t.Restarted(r.now).expiry;
            && Slots(u.queue) && u.queue != []
            && FirstKey(u.queue) == (if Before(ts, FirstKey(s.queue)) then Some(ts) else FirstKey(s.queue))
            && u.armed == Setting(FirstKey(u.queue).value, r.clock)
  {
    hide Slots, Setting;
    PushIsStableInsert(s.queue, t.Restarted(r.now));
    PushNonEmpty(s.queue, t.Restarted(r.now));
  }

  /** ResetTimers leaves the timerfd as the last repeater set it: for the first key, at its clock. */
  lemma {:induction false} ResetSets(s: State, expired: seq<Timer>, restarts: seq<Restart>, i: nat) returns (j: int)
    requires Slots(s.queue) && i <= |expired|
    ensures var t := ResetFrom(s, expired, restarts, i);
            && -1 <= j < |expired|
            && (j >= 0 ==> i <= j && LastRepeater(expired, j) && t.queue != []
                           && t.armed == Setting(FirstKey(t.queue).value, RestartAt(restarts, j).clock))
            && (j == -1 ==> t == s && forall k :: i <= k < |expired| ==> !expired[k].Repeats())
            && FirstKey(t.queue) == Least(FirstKey(s.queue), Expiries(Restarts(expired, restarts, i)))
    decreases |expired| - i
  {
    hide Slots, FirstKey, Setting, Before, RestartAt;
    if i == |expired| {
      j := -1;
    } else {
      var t, r := expired[i], RestartAt(restarts, i);
      var rest := Restarts(expired, restarts, i + 1);
      if t.Repeats() {
        ResetFirstKey(s, t, r);
        j := ResetSets(ResetOne(s, t, r), expired, restarts, i + 1);
        if j == -1 { j := i; }
        var u := t.Restarted(r.now);
        assert Restarts(expired, restarts, i) == [u] + rest;
        assert Expiries([u] + rest)[0] == u.expiry && Expiries([u] + rest)[1..] == Expiries(rest);
      } else {
        j := ResetSets(s, expired, restarts, i + 1);
        assert Restarts(expired, restarts, i) == rest;
      }
    }
  }

  /** The earliest key that will be queued, from what is left, added and restarted. */
  function Earliest(s: State, now: int, scripts: seq<seq<Request>>, restarts: seq<Restart>): Option<int> {
    var expired := Expired(s, now);
    Least(Least(FirstKey(Collected(s, now).queue), Times(Requests(scripts, 0, |expired|))),
          Expiries(Restarts(expired, restarts, 0)))
  }

  /** What an expiry needs to leave the timerfd set for the earliest key. With a repeater among the
      expired: that key is yet to come when the last of them sets the timerfd. Without: nothing is
      left and nothing added, or the request that leads all left is yet to come when it is added. */
  ghost predicate FireRearms(s: State, now: int, scripts: seq<seq<Request>>, restarts: seq<Restart>) {
    var expired, rest := Expired(s, now), Collected(s, now).queue;
    var rs := Requests(scripts, 0, |expired|);
    if AnyRepeats(expired) then
      var earliest := Earliest(s, now, scripts, restarts);
      earliest.Some? && exists j :: LastRepeater(expired, j) && Ahead(earliest.value, RestartAt(restarts, j).clock)
    else
      (rest == [] && rs == []) || exists j :: Leads(rest, rs, j) && Ahead(rs[j].ts, rs[j].clock)
  }

  /** HandleRead leaves the timerfd set for the earliest key if and only if FireRearms. */
  lemma FireArmsIff(s: State, now: int, scripts: seq<seq<Request>>, restarts: seq<Restart>)
    requires Slots(s.queue)
    ensures Armed(FireStep(s, now, scripts, restarts)) <==> FireRearms(s, now, scripts, restarts)
  {
    hide Slots, CountDue, CallBack, ResetFrom, Requests, Restarts, TimersOf, Least, Leads, Setting, Ahead,
         RestartAt, AddAll, LastRepeater, Times, Expiries;
    var expired, c := Expired(s, now), Collected(s, now);
    var rs := Requests(scripts, 0, |expired|);
    DueSplits(s.queue, now);
    CallBackAdds(c, expired, scripts, 0);
    var called := CallBack(c, expired, scripts, 0);
    AddAllFirstKey(c, rs);
    var j := AddAllSets(c, rs);
    var k := ResetSets(called, expired, restarts, 0);
    var t := ResetFrom(called, expired, restarts, 0);
    if k >= 0 {
      RepeaterArms(t, expired, restarts, k);
    } else {
      AddedArms(t, c.queue, rs, j);
    }
  }

  lemma RepeaterArms(t: State, expired: seq<Timer>, restarts: seq<Restart>, k: int)
    requires LastRepeater(expired, k) && t.queue != []
    requires t.armed == Setting(FirstKey(t.queue).value, RestartAt(restarts, k).clock)
    ensures AnyRepeats(expired)
    ensures Armed(t) <==> exists j :: LastRepeater(expired, j) && Ahead(FirstKey(t.queue).value, RestartAt(restarts, j).clock)
  {
    hide Setting, Ahead, RestartAt;
    SettingIff(FirstKey(t.queue).value, RestartAt(restarts, k).clock);
    assert forall j :: LastRepeater(expired, j) ==> j == k;
  }

  lemma AddedArms(t: State, rest: seq<Slot>, rs: seq<Request>, j: int)
    requires -1 <= j < |rs|
    requires j >= 0 ==> Leads(rest, rs, j) && FirstKey(t.queue) == Some(rs[j].ts) && t.armed == Setting(rs[j].ts, rs[j].clock)
    requires j == -1 ==> forall i :: 0 <= i < |rs| ==> !Before(rs[i].ts, FirstKey(rest))
    requires j == -1 ==> FirstKey(t.queue) == FirstKey(rest) && t.armed == None
    ensures Armed(t) <==> (rest == [] && rs == []) || exists i :: Leads(rest, rs, i) && Ahead(rs[i].ts, rs[i].clock)
  {
    hide Setting, Ahead;
    if j >= 0 {
      SettingIff(rs[j].ts, rs[j].clock);
      forall i | Leads(rest, rs, i) ensures i == j { LeadsUnique(rest, rs, i, j); }
    } else if rest == [] {
      assert rs != [] ==> Before(rs[0].ts, FirstKey(rest));
    }
  }

  /** What any event needs to keep the timerfd set for the earliest key: a timer that is added
      ahead of all others must be yet to come. */
  ghost predicate Rearms(s: State, e: Event) {
    match e
    case Add(r) => Before(r.ts, FirstKey(s.queue)) ==> Ahead(r.ts, r.clock)
    case Remove(_) => true
    case Fire(now, scripts, restarts) => FireRearms(s, now, scripts, restarts)
  }

  lemma StepArmsIff(s: State, e: Event)
    requires Inv(s) && Armed(s)
    ensures Armed(Step(s, e)) <==> Rearms(s, e)
  {
    hide Slots, TimersOf, Agree, FireStep, AddStep, FireRearms, Setting, Ahead;
    match e
    case Add(r) =>
      AddFirstKey(s, r);
      SettingIff(r.ts, r.clock);
    case Remove(id) =>
      if id in s.byId {
        AgreeMember(TimersOf(s.queue), s.byId, id);
        RemoveIsFilter(s.queue, s.byId[id]);
        RemoveAtNonEmpty(s.queue, s.byId[id]);
      }
    case Fire(now, scripts, restarts) => FireArmsIff(s, now, scripts, restarts);
  }

  lemma RemoveAtNonEmpty(q: seq<Slot>, t: Timer)
    ensures RemoveAt(q, t) != []
  {
  }

  /** A run keeps the timerfd set for the earliest key throughout if and only if each of its events
      does; removing a timer always does. */
  lemma {:induction false} ArmedThroughoutIff(es: seq<Event>, n: nat)
    requires n <= |es|
    ensures (forall k :: 0 <= k <= n ==> Armed(Run(Initial(), es[..k]))) <==>
            (forall k :: 0 <= k < n ==> Rearms(Run(Initial(), es[..k]), es[k]))
    decreases n
  {
    hide *;
    RunPrefix(es, n);
    if n == 0 {
      InitialArmed();
    } else {
      ArmedThroughoutIff(es, n - 1);
      RunKeeps(es[..n - 1]);
      var s := Run(Initial(), es[..n - 1]);
      if Armed(s) { StepArmsIff(s, es[n - 1]); }
    }
  }

  lemma RunPrefix(es: seq<Event>, n: nat)
    requires n <= |es|
    ensures Run(Initial(), es[..n]) == if n == 0 then Initial() else Step(Run(Initial(), es[..n - 1]), es[n - 1])
  {
    hide Step;
    if n > 0 { assert es[..n][..n - 1] == es[..n - 1]; }
  }

  lemma InitialArmed()
    ensures Armed(Initial())
  {
  }

  // ---------- Runs that leave it unset ----------

  lemma RunOne(e: Event)
    ensures Run(Initial(), [e]) == Step(Initial(), e)
  {
    hide Step;
    assert [e][..0] == [];
  }

  lemma RunTwo(e: Event, f: Event)
    ensures Run(Initial(), [e, f]) == Step(Step(Initial(), e), f)
  {
    hide Step;
    RunOne(e);
    assert [e, f][..1] == [e];
  }

  lemma RunThree(e: Event, f: Event, g: Event)
    ensures Run(Initial(), [e, f, g]) == Step(Step(Step(Initial(), e), f), g)
  {
    hide Step;
    RunTwo(e, f);
    assert [e, f, g][..2] == [e, f];
  }

  /** A timer for this very moment, as RunAfter(0) adds, switches the timerfd off; one for a time
      gone by sets it 2^64 microseconds later. */
  lemma ImmediateTimerUnset(now: int, late: int)
    requires 0 < late < UINT64_RANGE
    ensures var s := Run(Initial(), [Add(Request(now, 0, now))]);
            TimersOf(s.queue) == [Timer(1, now, 0)] && s.armed == None
    ensures var s := Run(Initial(), [Add(Request(now - late, 0, now))]);
            TimersOf(s.queue) == [Timer(1, now - late, 0)] && s.armed == Some(now - late + UINT64_RANGE)
  {
    RunOne(Add(Request(now, 0, now)));
    RunOne(Add(Request(now - late, 0, now)));
    OneTimer(Request(now, 0, now));
    OneTimer(Request(now - late, 0, now));
    assert (-late) % UINT64_RANGE == UINT64_RANGE - late;
  }

  lemma OneTimer(r: Request)
    ensures var s := AddStep(Initial(), r);
            s.queue == [Slot(r.ts, [Timer(1, r.ts, r.interval)])] && TimersOf(s.queue) == [Timer(1, r.ts, r.interval)]
  {
    var q := AddStep(Initial(), r).queue;
    assert q == [Slot(r.ts, [Timer(1, r.ts, r.interval)])] && q[1..] == [];
  }

  /** Two timers in turn, the second for later. */
  lemma TwoTimers(r: Request, u: Request)
    requires r.ts < u.ts
    ensures var s := AddStep(AddStep(Initial(), r), u);
            var a, b := Timer(1, r.ts, r.interval), Timer(2, u.ts, u.interval);
            && s.queue == [Slot(r.ts, [a]), Slot(u.ts, [b])]
            && Expired(s, r.ts) == [a] && Collected(s, r.ts).queue == [Slot(u.ts, [b])]
  {
    OneTimer(r);
    var s1 := AddStep(Initial(), r);
    var a, b := Timer(1, r.ts, r.interval), Timer(2, u.ts, u.interval);
    assert s1.queue[1..] == [];
    assert PushAt([], b) == [Slot(u.ts, [b])];
    var q := PushAt(s1.queue, b);
    assert q == [Slot(r.ts, [a])] + [Slot(u.ts, [b])];
    assert q[1..] == [Slot(u.ts, [b])];
    assert CountDue(q, r.ts) == 1 && q[..1] == [Slot(r.ts, [a])];
    assert q[..1][1..] == [];
  }

  /** Two one-shot timers: the first goes off on time, and nothing is set for the second. */
  lemma SecondOneShotStalls()
    ensures var s := Run(Initial(), [Add(Request(10, 0, 0)), Add(Request(20, 0, 0)), Fire(10, [], [])]);
            s.fired == [Timer(1, 10, 0)] && TimersOf(s.queue) == [Timer(2, 20, 0)] && s.armed == None
  {
    RunThree(Add(Request(10, 0, 0)), Add(Request(20, 0, 0)), Fire(10, [], []));
    var r, u := Request(10, 0, 0), Request(20, 0, 0);
    TwoTimers(r, u);
    var s2 := AddStep(AddStep(Initial(), r), u);
    var a, c := Timer(1, 10, 0), Collected(s2, 10);
    assert c.queue[1..] == [];
    var d := CallBack(c, [a], [], 0);
    assert d.queue == c.queue && d.armed == None && d.fired == [a];
    assert ResetFrom(d, [a], [], 0) == d;
  }

  /** A repeater that is restarted when the next timer is already due leaves the timerfd unset. */
  lemma OverdueTimerStalls()
    ensures var s := Run(Initial(), [Add(Request(10, 1, 0)), Add(Request(20, 0, 0)), Fire(10, [], [Restart(20, 20)])]);
            TimersOf(s.queue) == [Timer(2, 20, 0), Timer(1, 1_000_020, 1)] && s.armed == None
  {
    var r, u := Request(10, 1, 0), Request(20, 0, 0);
    RunThree(Add(r), Add(u), Fire(10, [], [Restart(20, 20)]));
    TwoTimers(r, u);
    var s2 := AddStep(AddStep(Initial(), r), u);
    var a, b, c := Timer(1, 10, 1), Timer(2, 20, 0), Collected(s2, 10);
    assert c.queue[1..] == [];
    var d := CallBack(c, [a], [], 0);
    assert d.queue == c.queue;
    var x := Timer(1, 1_000_020, 1);
    var e := ResetOne(d, a, Restart(20, 20));
    assert PushAt([], x) == [Slot(1_000_020, [x])];
    assert e.queue == [Slot(20, [b])] + [Slot(1_000_020, [x])] && e.armed == None;
    assert e.queue[1..] == [Slot(1_000_020, [x])] && e.queue[1..][1..] == [];
    assert TimersOf(e.queue[1..]) == [x];
    assert ResetFrom(d, [a], [Restart(20, 20)], 0) == e;
  }

  // ---------- The object ----------

  class TimerQueue {
    var queue: seq<Slot>
    var idToTimers: map<nat, Timer>
    var timerfd: Option<int>
    var nextId: nat
    ghost var fired: seq<Timer>

    ghost function Model(): State
      reads this
    {
      State(queue, idToTimers, timerfd, nextId, fired)
    }

    constructor ()
      ensures Model() == Initial()
    {
      queue, idToTimers, timerfd, nextId, fired := [], map[], None, 1, [];
    }

    method AddTimer(r: Request) returns (id: nat)
      modifies this
      ensures Model() == Step(old(Model()), Add(r)) && id == old(nextId)
      ensures old(Inv(Model())) ==> Inv(Model()) && id !in old(idToTimers)
    {
      hide Inv, PushAt;
      if Inv(Model()) {
        StepKeeps(Model(), Add(r));
        AddQueuesOne(Model(), r);
      }
      var timer := Timer(nextId, r.ts, r.interval);
      nextId := nextId + 1;
      var change := queue == [] || r.ts < queue[0].key;
      queue := PushAt(queue, timer);
      idToTimers := idToTimers[timer.id := timer];
      if change {
        timerfd := Setting(r.ts, r.clock);
      }
      return timer.id;
    }

    method RemoveTimer(id: nat)
      requires Inv(Model())
      modifies this
      ensures Inv(Model()) && Model() == Step(old(Model()), Remove(id))
    {
      hide Inv, RemoveAt;
      StepKeeps(Model(), Remove(id));
      if id in idToTimers {
        var timer := idToTimers[id];
        idToTimers := idToTimers - {id};
        queue := RemoveAt(queue, timer);
      }
    }

    method HandleRead(now: int, scripts: seq<seq<Request>>, restarts: seq<Restart>)
      requires Inv(Model())
      modifies this
      ensures Inv(Model()) && Model() == Step(old(Model()), Fire(now, scripts, restarts))
      ensures var expired := Expired(old(Model()), now);
              forall j :: 0 <= j < |expired| ==> RestartedAs(idToTimers, expired[j], RestartAt(restarts, j))
    {
      hide CallBack, ResetFrom, Inv, RestartedAs, RestartAt, AddedAs, SameAt, IsOneOf;
      StepKeeps(Model(), Fire(now, scripts, restarts));
      TimersAfterFire(Model(), now, scripts, restarts);
      timerfd := None;
      var expired := Collect(now);
      RunCallbacks(expired, scripts);
      ResetTimers(expired, restarts);
    }

    /** The loop over the leading keys of queue_. */
    method Collect(now: int) returns (expired: seq<Timer>)
      modifies this`queue
      ensures expired == Expired(old(Model()), now)
      ensures queue == old(queue)[CountDue(old(queue), now)..]
    {
      ghost var n := 0;
      expired := [];
      ghost var whole := queue;
      while queue != [] && queue[0].key <= now
        invariant n <= |whole| && queue == whole[n..]
        invariant CountDue(whole, now) == n + CountDue(queue, now)
        invariant expired == TimersOf(whole[..n])
        decreases |queue|
      {
        TimersOfSplit(whole[..n + 1], n);
        assert whole[..n + 1][..n] == whole[..n] && whole[..n + 1][n..] == [whole[n]];
        assert TimersOf([whole[n]]) == whole[n].timers;
        expired := expired + queue[0].timers;
        queue := queue[1..];
        n := n + 1;
      }
    }

    method RunCallbacks(expired: seq<Timer>, scripts: seq<seq<Request>>)
      modifies this
      ensures Model() == CallBack(old(Model()), expired, scripts, 0)
    {
      hide AddAll;
      for i := 0 to |expired|
        invariant CallBack(Model(), expired, scripts, i) == CallBack(old(Model()), expired, scripts, 0)
      {
        idToTimers := idToTimers - {expired[i].id};
        fired := fired + [expired[i]];
        AddRequests(Script(scripts, i));
      }
    }

    /** A callback that adds timers. */
    method AddRequests(rs: seq<Request>)
      modifies this
      ensures Model() == AddAll(old(Model()), rs)
    {
      for i := 0 to |rs|
        invariant AddAll(Model(), rs[i..]) == AddAll(old(Model()), rs)
      {
        ghost var s := Model();
        var _ := AddTimer(rs[i]);
        assert rs[i..][0] == rs[i] && rs[i..][1..] == rs[i + 1..];
      }
    }

    method ResetTimers(expired: seq<Timer>, restarts: seq<Restart>)
      modifies this
      ensures Model() == ResetFrom(old(Model()), expired, restarts, 0)
      ensures DistinctBelow(expired, old(nextId)) && (forall j :: 0 <= j < |expired| ==> expired[j].id !in old(idToTimers)) ==>
                forall j :: 0 <= j < |expired| ==> RestartedAs(idToTimers, expired[j], RestartAt(restarts, j))
    {
      hide RestartedAs, IsOneOf, SameAt;
      if DistinctBelow(expired, nextId) && forall j :: 0 <= j < |expired| ==> expired[j].id !in idToTimers {
        ResetById(Model(), expired, restarts, 0);
      }
      for i := 0 to |expired|
        invariant ResetFrom(Model(), expired, restarts, i) == ResetFrom(old(Model()), expired, restarts, 0)
      {
        if expired[i].Repeats() {
          var timer := expired[i].Restarted(RestartAt(restarts, i).now);
          var expiredTs := timer.expiry;
          if queue != [] && timer.expiry > queue[0].key {
            expiredTs := queue[0].key;
          }
          queue := PushAt(queue, timer);
          idToTimers := idToTimers[timer.id := timer];
          timerfd := Setting(expiredTs, RestartAt(restarts, i).clock);
        }
      }
    }
  }
}
