/** The local-time half of Reactors/base/TimeZone.cc: looking up the offset in
    force in a table of transitions, and converting both ways. gmtime_r and timegm
    are the repository's own toUtcTime and fromUtcTime, as its FIXMEs ask. */
module TimeZone {
  import opened Calendar
  import opened UtcTime

  datatype Transition = Transition(gmttime: int, localtime: int, localtimeIdx: nat)
  datatype Localtime = Localtime(gmtOffset: int, isDst: bool)
  datatype Data = Data(transitions: seq<Transition>, localtimes: seq<Localtime>)

  /** Which clock a search compares by: Comp(true) is Gmt, Comp(false) is Local. */
  datatype Clock = Gmt | Local

  function Key(x: Transition, clock: Clock): int {
    if clock.Gmt? then x.gmttime else x.localtime
  }

  predicate Comp(x: Transition, y: Transition, clock: Clock) {
    Key(x, clock) < Key(y, clock)
  }

  // ---------- Building the table ----------

  /** What readTimeZoneFile guarantees of a file whose type indices are in bounds. */
  ghost predicate WellFormed(data: Data) {
    && |data.localtimes| > 0
    && forall i :: 0 <= i < |data.transitions| ==>
         var x := data.transitions[i];
         && x.localtimeIdx < |data.localtimes|
         && x.localtime == x.gmttime + data.localtimes[x.localtimeIdx].gmtOffset
  }

  method BuildTransitions(trans: seq<int>, indices: seq<nat>, localtimes: seq<Localtime>) returns (data: Data)
    requires |trans| == |indices| && |localtimes| > 0
    requires forall i :: 0 <= i < |indices| ==> indices[i] < |localtimes|
    ensures WellFormed(data) && data.localtimes == localtimes && |data.transitions| == |trans|
    ensures forall i :: 0 <= i < |trans| ==>
              data.transitions[i].gmttime == trans[i] && data.transitions[i].localtimeIdx == indices[i]
  {
    data := Data([], localtimes);
    for i := 0 to |trans|
      invariant data.localtimes == localtimes && |data.transitions| == i && WellFormed(data)
      invariant forall j :: 0 <= j < i ==>
                  data.transitions[j].gmttime == trans[j] && data.transitions[j].localtimeIdx == indices[j]
    {
      var localIdx := indices[i];
      var localtime := trans[i] + localtimes[localIdx].gmtOffset;
      data := data.(transitions := data.transitions + [Transition(trans[i], localtime, localIdx)]);
    }
  }

  // ---------- The lookup ----------

  /** std::lower_bound over `a[first .. first + len]`. */
  function LowerBound(a: seq<Transition>, sentry: Transition, clock: Clock, first: nat, len: nat): (r: nat)
    requires first + len <= |a|
    ensures first <= r <= first + len
    // A search that ends where it began has compared the first element: true of any table, sorted or not.
    ensures r == first && len > 0 ==> !Comp(a[first], sentry, clock)
    decreases len
  {
    if len == 0 then first
    else
      var half := len / 2;
      var middle := first + half;
      if Comp(a[middle], sentry, clock) then LowerBound(a, sentry, clock, middle + 1, len - half - 1)
      else LowerBound(a, sentry, clock, first, half)
  }

  /** The assertion that --transI stays inside the table is here, and holds of every table. */
  function FindLocaltime(data: Data, sentry: Transition, clock: Clock): Localtime
    requires WellFormed(data)
  {
    var a := data.transitions;
    if |a| == 0 || Comp(sentry, a[0], clock) then data.localtimes[0]
    else
      var transI := LowerBound(a, sentry, clock, 0, |a|);
      if transI < |a| then
        if Key(sentry, clock) != Key(a[transI], clock) then
          assert transI != 0;
          data.localtimes[a[transI - 1].localtimeIdx]
        else
          data.localtimes[a[transI].localtimeIdx]
      else
        data.localtimes[a[|a| - 1].localtimeIdx]
  }

  function OffsetAt(data: Data, seconds: int): Localtime
    requires WellFormed(data)
  {
    FindLocaltime(data, Transition(seconds, 0, 0), Gmt)
  }

  function OffsetAtLocal(data: Data, seconds: int): Localtime
    requires WellFormed(data)
  {
    FindLocaltime(data, Transition(0, seconds, 0), Local)
  }

  // ---------- Conversions ----------

  function ToLocal(data: Data, seconds: int): Tm
    requires WellFormed(data)
  {
    var local := OffsetAt(data, seconds);
    ToUtc(seconds + local.gmtOffset, true).(isdst := local.isDst, gmtoff := local.gmtOffset)
  }

  /** The test that the repeated hour was read as its second pass although its first was meant. */
  predicate SecondPass(data: Data, localTm: Tm, seconds: int)
    requires WellFormed(data)
  {
    var tryTm := ToLocal(data, seconds);
    localTm.isdst && !tryTm.isdst && tryTm.hour == localTm.hour && tryTm.min == localTm.min
  }

  function FromLocal(data: Data, localTm: Tm): int
    requires WellFormed(data)
  {
    var seconds := FromUtc(localTm);
    var local := OffsetAtLocal(data, seconds);
    if SecondPass(data, localTm, seconds - local.gmtOffset) then seconds - 3600 - local.gmtOffset
    else seconds - local.gmtOffset
  }

  method ToLocalTime(data: Data, seconds: int) returns (localTime: Tm)
    requires WellFormed(data)
    ensures localTime == ToLocal(data, seconds)
  {
    hide ToUtc, FindLocaltime;
    var local := FindLocaltime(data, Transition(seconds, 0, 0), Gmt);
    localTime := ToUtcTime(seconds + local.gmtOffset, true);
    localTime := localTime.(isdst := local.isDst);
    localTime := localTime.(gmtoff := local.gmtOffset);
  }

  method FromLocalTime(data: Data, localTm: Tm) returns (r: int)
    requires WellFormed(data)
    ensures r == FromLocal(data, localTm)
  {
    hide ToLocal, FromUtc, FindLocaltime;
    var seconds := FromUtc(localTm);
    var local := FindLocaltime(data, Transition(0, seconds, 0), Local);
    if localTm.isdst {
      var tryTm := ToLocalTime(data, seconds - local.gmtOffset);
      if !tryTm.isdst && tryTm.hour == localTm.hour && tryTm.min == localTm.min {
        seconds := seconds - 3600;
      }
    }
    r := seconds - local.gmtOffset;
  }

  // ---------- Segments: the offset in force between two transitions ----------
  // Segment i runs from transition i to the next; segment -1 is all time before the first.

  ghost function TypeOf(data: Data, i: int): Localtime
    requires WellFormed(data) && -1 <= i < |data.transitions|
  {
    if i < 0 then data.localtimes[0] else data.localtimes[data.transitions[i].localtimeIdx]
  }

  ghost function Offset(data: Data, i: int): int
    requires WellFormed(data) && -1 <= i < |data.transitions|
  {
    TypeOf(data, i).gmtOffset
  }

  ghost predicate InSegment(a: seq<Transition>, key: int, clock: Clock, i: int) {
    && -1 <= i < |a|
    && (i >= 0 ==> Key(a[i], clock) <= key)
    && (i + 1 < |a| ==> key < Key(a[i + 1], clock))
  }

  ghost predicate Ascending(a: seq<Transition>, clock: Clock) {
    forall i, j :: 0 <= i < j < |a| ==> Key(a[i], clock) < Key(a[j], clock)
  }

  /** How far transition i sets the clocks back; not positive when it sets them forward. */
  ghost function Back(data: Data, i: int): int
    requires WellFormed(data) && 0 <= i < |data.transitions|
  {
    Offset(data, i - 1) - Offset(data, i)
  }

  /** Transitions ascend, and clocks set back by k have run more than k seconds since the
      transition before and run at least k seconds until the one after. */
  ghost predicate Spaced(data: Data)
    requires WellFormed(data)
  {
    var a := data.transitions;
    && Ascending(a, Gmt)
    && forall i :: 0 <= i < |a| && Back(data, i) > 0 ==>
         && (i > 0 ==> a[i].gmttime - a[i - 1].gmttime > Back(data, i))
         && (i + 1 < |a| ==> a[i + 1].gmttime - a[i].gmttime >= Back(data, i))
  }

  /** Every time the clocks are set back it is by one hour, from daylight saving to standard time. */
  ghost predicate BackStepsEndDst(data: Data)
    requires WellFormed(data)
  {
    forall i :: 0 <= i < |data.transitions| && Back(data, i) > 0 ==>
      Back(data, i) == 3600 && TypeOf(data, i - 1).isDst && !TypeOf(data, i).isDst
  }

  /** fromLocalTime undoes toLocalTime wherever the calendar formulas reach. */
  ghost predicate RoundTripsAt(data: Data, t: int)
    requires WellFormed(data)
  {
    t + OffsetAt(data, t).gmtOffset >= FIRST_SECOND ==> FromLocal(data, ToLocal(data, t)) == t
  }

  // ---------- Lemmas ----------

  /** Everything before `lo` is below the sentry and nothing from `hi` on is. */
  ghost predicate Bracketed(a: seq<Transition>, sentry: Transition, clock: Clock, lo: nat, hi: nat) {
    && (forall j :: 0 <= j < lo && j < |a| ==> Comp(a[j], sentry, clock))
    && (forall j :: hi <= j < |a| ==> !Comp(a[j], sentry, clock))
  }

  lemma Narrow(a: seq<Transition>, sentry: Transition, clock: Clock, lo: nat, mid: nat, hi: nat)
    requires Ascending(a, clock) && lo <= mid < hi <= |a| && Bracketed(a, sentry, clock, lo, hi)
    ensures Comp(a[mid], sentry, clock) ==> Bracketed(a, sentry, clock, mid + 1, hi)
    ensures !Comp(a[mid], sentry, clock) ==> Bracketed(a, sentry, clock, lo, mid)
  {
  }

  lemma LowerBoundUnfolds(a: seq<Transition>, sentry: Transition, clock: Clock, first: nat, len: nat, half: nat)
    requires first + len <= |a| && half == len / 2
    ensures len > 0 ==> half < len
    ensures LowerBound(a, sentry, clock, first, len) ==
            if len == 0 then first
            else if Comp(a[first + half], sentry, clock) then LowerBound(a, sentry, clock, first + half + 1, len - half - 1)
            else LowerBound(a, sentry, clock, first, half)
  {
    hide Comp;
  }

  lemma {:induction false} LowerBoundSplits(a: seq<Transition>, sentry: Transition, clock: Clock, first: nat, len: nat)
    requires first + len <= |a| && Ascending(a, clock) && Bracketed(a, sentry, clock, first, first + len)
    ensures var r := LowerBound(a, sentry, clock, first, len);
            Bracketed(a, sentry, clock, r, r)
    decreases len
  {
    hide *;
    var half := len / 2;
    LowerBoundUnfolds(a, sentry, clock, first, len, half);
    if len > 0 {
      var middle := first + half;
      Narrow(a, sentry, clock, first, middle, first + len);
      if Comp(a[middle], sentry, clock) {
        LowerBoundSplits(a, sentry, clock, middle + 1, len - half - 1);
      } else {
        LowerBoundSplits(a, sentry, clock, first, half);
      }
    }
  }

  /** In an ascending table the binary search finds the segment that holds the key. */
  lemma FindsSegment(data: Data, sentry: Transition, clock: Clock, i: int)
    requires WellFormed(data) && Ascending(data.transitions, clock)
    requires InSegment(data.transitions, Key(sentry, clock), clock, i)
    ensures FindLocaltime(data, sentry, clock) == TypeOf(data, i)
  {
    var a := data.transitions;
    if i >= 0 {
      LowerBoundSplits(a, sentry, clock, 0, |a|);
      var r := LowerBound(a, sentry, clock, 0, |a|);
      SplitIsSegment(a, sentry, clock, r, i);
    }
  }

  lemma SplitIsSegment(a: seq<Transition>, sentry: Transition, clock: Clock, r: nat, i: int)
    requires r <= |a| && Ascending(a, clock) && InSegment(a, Key(sentry, clock), clock, i)
    requires Bracketed(a, sentry, clock, r, r)
    ensures r == i + 1 || (r == i && Key(a[r], clock) == Key(sentry, clock))
    ensures r == i + 1 && r < |a| ==> Key(a[r], clock) != Key(sentry, clock)
  {
    assert i + 1 < |a| ==> !Comp(a[i + 1], sentry, clock);
    assert r < |a| ==> !Comp(a[r], sentry, clock);
    assert forall j :: 0 <= j < i ==> Key(a[j], clock) < Key(a[i], clock);
  }

  lemma {:induction false} SegmentOf(a: seq<Transition>, key: int, clock: Clock, n: nat) returns (i: int)
    requires n <= |a|
    requires n < |a| ==> key < Key(a[n], clock)
    ensures InSegment(a, key, clock, i)
    decreases n
  {
    if n == 0 || Key(a[n - 1], clock) <= key {
      i := n - 1;
    } else {
      i := SegmentOf(a, key, clock, n - 1);
    }
  }

  /** Clocks never set back by more than they have run: local times ascend too. */
  lemma {:induction false} LocalGap(data: Data, i: int, j: int)
    requires WellFormed(data) && Spaced(data) && 0 <= i < j < |data.transitions|
    ensures data.transitions[i].localtime < data.transitions[j].localtime
    decreases j
  {
    hide *;
    NextLocal(data, j);
    if i < j - 1 { LocalGap(data, i, j - 1); }
  }

  lemma NextLocal(data: Data, j: int)
    requires WellFormed(data) && Spaced(data) && 0 < j < |data.transitions|
    ensures data.transitions[j - 1].localtime < data.transitions[j].localtime
  {
    var a := data.transitions;
    assert Key(a[j - 1], Gmt) < Key(a[j], Gmt);
    assert a[j].gmttime - a[j - 1].gmttime > Back(data, j);
  }

  lemma LocalAscending(data: Data)
    requires WellFormed(data) && Spaced(data)
    ensures Ascending(data.transitions, Local)
  {
    forall i, j | 0 <= i < j < |data.transitions|
      ensures Key(data.transitions[i], Local) < Key(data.transitions[j], Local)
    {
      LocalGap(data, i, j);
    }
  }

  lemma OffsetInSegment(data: Data, t: int, i: int)
    requires WellFormed(data) && Spaced(data) && InSegment(data.transitions, t, Gmt, i)
    ensures OffsetAt(data, t) == TypeOf(data, i)
  {
    FindsSegment(data, Transition(t, 0, 0), Gmt, i);
  }

  /** A local time within the last Back(i) seconds of segment i - 1 comes round again in segment i. */
  ghost predicate Repeated(data: Data, t: int, i: int)
    requires WellFormed(data) && 0 <= i < |data.transitions|
  {
    InSegment(data.transitions, t, Gmt, i - 1) && data.transitions[i].gmttime <= t + Back(data, i)
  }

  lemma SecondPassInSegment(data: Data, t: int, i: int)
    requires WellFormed(data) && Spaced(data) && 0 <= i < |data.transitions| && Repeated(data, t, i)
    ensures Back(data, i) > 0
    ensures InSegment(data.transitions, t + Back(data, i), Gmt, i)
  {
  }

  lemma LocalLookup(data: Data, s: int, i: int)
    requires WellFormed(data) && Spaced(data) && InSegment(data.transitions, s, Local, i)
    ensures OffsetAtLocal(data, s) == TypeOf(data, i)
  {
    LocalAscending(data);
    FindsSegment(data, Transition(0, s, 0), Local, i);
  }

  /** Outside the repeated stretch, a local time is looked up in its own segment. */
  lemma OnceInLocalSegment(data: Data, t: int, i: int)
    requires WellFormed(data) && Spaced(data) && InSegment(data.transitions, t, Gmt, i)
    requires i + 1 < |data.transitions| ==> !Repeated(data, t, i + 1)
    ensures InSegment(data.transitions, t + Offset(data, i), Local, i)
  {
    assert i >= 0 ==> data.transitions[i].localtime == data.transitions[i].gmttime + Offset(data, i);
    assert i + 1 < |data.transitions| ==>
             data.transitions[i + 1].localtime == data.transitions[i + 1].gmttime + Offset(data, i + 1);
  }

  lemma TwoConsecutiveBackSteps(data: Data, i: int)
    requires WellFormed(data) && BackStepsEndDst(data) && 0 <= i && i + 1 < |data.transitions| && Back(data, i) > 0
    ensures Back(data, i + 1) <= 0
  {
  }

  lemma RepeatedInLocalSegment(data: Data, t: int, i: int)
    requires WellFormed(data) && Spaced(data)
    requires 0 <= i < |data.transitions| && Repeated(data, t, i)
    requires i + 1 < |data.transitions| ==> Back(data, i + 1) <= 0
    ensures InSegment(data.transitions, t + Offset(data, i - 1), Local, i)
  {
    SecondPassInSegment(data, t, i);
    var a := data.transitions;
    assert a[i].localtime == a[i].gmttime + Offset(data, i);
    if i + 1 < |a| {
      assert a[i + 1].localtime == a[i + 1].gmttime + Offset(data, i + 1);
    }
  }

  lemma LocalSeconds(data: Data, t: int)
    requires WellFormed(data) && t + OffsetAt(data, t).gmtOffset >= FIRST_SECOND
    ensures FromUtc(ToLocal(data, t)) == t + OffsetAt(data, t).gmtOffset
  {
    hide ToUtc, FindLocaltime, ValidFields, SecondsFrom;
    var s := t + OffsetAt(data, t).gmtOffset;
    UtcRoundTrip(s, true);
    assert FromUtc(ToLocal(data, t)) == FromUtc(ToUtc(s, true));
  }

  /** What fromLocalTime makes of toLocalTime(t), from the offset its own search finds. */
  lemma FromLocalOf(data: Data, t: int, found: int, u: int)
    requires WellFormed(data) && Spaced(data) && t + OffsetAt(data, t).gmtOffset >= FIRST_SECOND
    requires -1 <= found < |data.transitions|
    requires OffsetAtLocal(data, t + OffsetAt(data, t).gmtOffset) == TypeOf(data, found)
    requires u == t + OffsetAt(data, t).gmtOffset - Offset(data, found)
    ensures FromLocal(data, ToLocal(data, t)) ==
            if SecondPass(data, ToLocal(data, t), u) then u - 3600 else u
  {
    hide ToUtc, FromUtc, FindLocaltime, SecondPass;
    LocalSeconds(data, t);
  }

  /** Times with the same local seconds show the same hour and minute. */
  lemma SameClockFace(data: Data, t: int, u: int)
    requires WellFormed(data)
    requires t + OffsetAt(data, t).gmtOffset == u + OffsetAt(data, u).gmtOffset
    ensures SecondPass(data, ToLocal(data, t), u) == (OffsetAt(data, t).isDst && !OffsetAt(data, u).isDst)
    ensures OffsetAt(data, t).isDst == OffsetAt(data, u).isDst ==> ToLocal(data, t) == ToLocal(data, u).(gmtoff := OffsetAt(data, t).gmtOffset)
  {
    hide ToUtc, FindLocaltime;
  }

  lemma RoundTripOnce(data: Data, t: int, i: int)
    requires WellFormed(data) && Spaced(data) && InSegment(data.transitions, t, Gmt, i)
    requires i + 1 < |data.transitions| ==> !Repeated(data, t, i + 1)
    ensures RoundTripsAt(data, t)
  {
    hide Repeated, SecondPass, ToLocal, FromLocal, FindLocaltime;
    OffsetInSegment(data, t, i);
    OnceInLocalSegment(data, t, i);
    LocalLookup(data, t + Offset(data, i), i);
    if t + OffsetAt(data, t).gmtOffset >= FIRST_SECOND {
      FromLocalOf(data, t, i, t);
      SameClockFace(data, t, t);
    }
  }

  lemma RoundTripFirstPass(data: Data, t: int, i: int)
    requires WellFormed(data) && Spaced(data) && BackStepsEndDst(data)
    requires 0 <= i < |data.transitions| && Repeated(data, t, i)
    ensures RoundTripsAt(data, t)
  {
    hide *;
    var u := t + 3600;
    FirstPassFacts(data, t, i, u);
    OffsetInSegment(data, t, i - 1);
    OffsetInSegment(data, u, i);
    LocalLookup(data, t + Offset(data, i - 1), i);
    if t + OffsetAt(data, t).gmtOffset >= FIRST_SECOND {
      FromLocalOf(data, t, i, u);
      SameClockFace(data, t, u);
    }
    RoundTripsAtIntro(data, t);
  }

  lemma FirstPassFacts(data: Data, t: int, i: int, u: int)
    requires WellFormed(data) && Spaced(data) && BackStepsEndDst(data)
    requires 0 <= i < |data.transitions| && Repeated(data, t, i) && u == t + 3600
    ensures InSegment(data.transitions, t, Gmt, i - 1) && InSegment(data.transitions, u, Gmt, i)
    ensures InSegment(data.transitions, t + Offset(data, i - 1), Local, i)
    ensures Offset(data, i - 1) == Offset(data, i) + 3600 && TypeOf(data, i - 1).isDst && !TypeOf(data, i).isDst
    ensures Offset(data, i - 1) == TypeOf(data, i - 1).gmtOffset && Offset(data, i) == TypeOf(data, i).gmtOffset
  {
    SecondPassInSegment(data, t, i);
    if i + 1 < |data.transitions| { TwoConsecutiveBackSteps(data, i); }
    RepeatedInLocalSegment(data, t, i);
  }

  lemma RoundTripsAtIntro(data: Data, t: int)
    requires WellFormed(data)
    ensures RoundTripsAt(data, t) <==>
            (t + OffsetAt(data, t).gmtOffset >= FIRST_SECOND ==> FromLocal(data, ToLocal(data, t)) == t)
  {
    hide FromLocal, ToLocal, OffsetAt;
  }

  lemma InSegmentRange(a: seq<Transition>, t: int, i: int)
    requires InSegment(a, t, Gmt, i)
    ensures -1 <= i < |a|
    ensures InSegment(a, t, Gmt, i + 1 - 1)
  {
  }

  /** If setting the clocks back always ends daylight saving by an hour, both passes of the
      repeated hour, and every other time, come back unchanged. */
  lemma DstTablesRoundTrip(data: Data, t: int)
    requires WellFormed(data) && Spaced(data) && BackStepsEndDst(data)
    ensures RoundTripsAt(data, t)
  {
    hide *;
    var i := SegmentOf(data.transitions, t, Gmt, |data.transitions|);
    InSegmentRange(data.transitions, t, i);
    if i + 1 < |data.transitions| && Repeated(data, t, i + 1) {
      RoundTripFirstPass(data, t, i + 1);
    } else {
      RoundTripOnce(data, t, i);
    }
  }

  /** In particular so does every table of transitions more than an hour apart. */
  lemma HourSpacedTablesRoundTrip(data: Data, t: int)
    requires WellFormed(data) && BackStepsEndDst(data) && Ascending(data.transitions, Gmt)
    requires forall i :: 0 < i < |data.transitions| ==>
               data.transitions[i].gmttime - data.transitions[i - 1].gmttime > 3600
    ensures RoundTripsAt(data, t)
  {
    assert Spaced(data);
    DstTablesRoundTrip(data, t);
  }

  /** Two times with the same local seconds can both come back only across the end of daylight saving, an hour apart. */
  lemma BothPassesReturn(data: Data, t: int, u: int)
    requires WellFormed(data) && Spaced(data) && t < u
    requires t + OffsetAt(data, t).gmtOffset == u + OffsetAt(data, u).gmtOffset >= FIRST_SECOND
    requires RoundTripsAt(data, t) && RoundTripsAt(data, u)
    ensures u == t + 3600 && OffsetAt(data, t).isDst && !OffsetAt(data, u).isDst
  {
    hide *;
    var s := t + OffsetAt(data, t).gmtOffset;
    var f := SegmentOf(data.transitions, s, Local, |data.transitions|);
    RoundTripsAtIntro(data, t);
    RoundTripsAtIntro(data, u);
    LocalLookup(data, s, f);
    var v := s - Offset(data, f);
    FromLocalOf(data, t, f, v);
    FromLocalOf(data, u, f, v);
    BothPassesTest(data, t, u, v);
  }

  lemma BothPassesTest(data: Data, t: int, u: int, v: int)
    requires WellFormed(data) && t < u
    requires t + OffsetAt(data, t).gmtOffset == u + OffsetAt(data, u).gmtOffset
    requires t == if SecondPass(data, ToLocal(data, t), v) then v - 3600 else v
    requires u == if SecondPass(data, ToLocal(data, u), v) then v - 3600 else v
    ensures u == t + 3600 && OffsetAt(data, t).isDst && !OffsetAt(data, u).isDst
  {
    hide SecondPass, ToLocal, OffsetAt;
    assert v == u && t == u - 3600;
    SameClockFace(data, t, u);
  }

  /** The date and time of day are the same; daylight saving, weekday and the rest may differ. */
  predicate SameDateTime(x: Tm, y: Tm) {
    (x.year, x.mon, x.mday, x.hour, x.min, x.sec) == (y.year, y.mon, y.mday, y.hour, y.min, y.sec)
  }

  lemma FromUtcSame(x: Tm, y: Tm)
    requires SameDateTime(x, y)
    ensures FromUtc(x) == FromUtc(y) && (ValidFields(x) <==> ValidFields(y))
  {
  }

  /** What toLocalTime fills in: the fields of the seconds shifted by the offset in force, that
      offset, and its daylight-saving flag; tm_wday and tm_yday are those of the shifted day. */
  lemma ToLocalShows(data: Data, t: int)
    requires WellFormed(data) && t + OffsetAt(data, t).gmtOffset >= FIRST_SECOND
    ensures var tm, local := ToLocal(data, t), OffsetAt(data, t);
            var s := t + local.gmtOffset;
            && ValidFields(tm) && FromUtc(tm) == s && tm.isdst == local.isDst && tm.gmtoff == local.gmtOffset
            && (s >= (-1 - JULIAN_DAY_OF_1970_01_01) * SECONDS_PER_DAY ==> tm.wday == (s / SECONDS_PER_DAY + 4) % 7)
            && tm.yday == DaysBefore(tm.year + 1900, tm.mon + 1) + tm.mday - 1 -
                          (if s >= FIRST_YDAY_SECOND then 0 else 1)
  {
    hide FindLocaltime, OffsetAt, ToUtc, FromUtc, ValidFields;
    var s := t + OffsetAt(data, t).gmtOffset;
    LocalSeconds(data, t);
    FromUtcSame(ToLocal(data, t), ToUtc(s, true));
    UtcRoundTrip(s, true);
    WdayFromEpochIff(s, true);
    YdayIsDayOfYearIff(s);
  }

  // ---------- Which single times come back ----------

  /** v is the last time at which the clocks show what they show at t. */
  ghost predicate Latest(data: Data, t: int, v: int)
    requires WellFormed(data)
  {
    && v + OffsetAt(data, v).gmtOffset == t + OffsetAt(data, t).gmtOffset
    && forall w :: w > v ==> w + OffsetAt(data, w).gmtOffset != t + OffsetAt(data, t).gmtOffset
  }

  /** A later segment ends on a later local time. */
  lemma {:induction false} SegmentEnds(data: Data, k: int, f: int)
    requires WellFormed(data) && Spaced(data) && -1 <= k <= f && f + 1 < |data.transitions|
    ensures data.transitions[k + 1].gmttime + Offset(data, k) <= data.transitions[f + 1].gmttime + Offset(data, f)
    decreases f - k
  {
    if k < f {
      SegmentEnds(data, k, f - 1);
      assert Key(data.transitions[f], Gmt) < Key(data.transitions[f + 1], Gmt);
      assert Back(data, f) == Offset(data, f - 1) - Offset(data, f);
    }
  }

  /** The search by local time never settles on a segment in which that local time does not occur. */
  lemma OccursInSegment(data: Data, t: int, k: int, f: int)
    requires WellFormed(data) && Spaced(data) && InSegment(data.transitions, t, Gmt, k)
    requires InSegment(data.transitions, t + Offset(data, k), Local, f)
    ensures InSegment(data.transitions, t + Offset(data, k) - Offset(data, f), Gmt, f)
  {
    hide Spaced, Ascending, Offset;
    var a := data.transitions;
    LocalOf(data, k);
    LocalOf(data, f);
    if k > f {
      if f + 1 < k { LocalGap(data, f + 1, k); }
      assert false;
    }
    if f + 1 < |a| { SegmentEnds(data, k, f); }
  }

  lemma LocalOf(data: Data, i: int)
    requires WellFormed(data) && -1 <= i < |data.transitions|
    ensures i >= 0 ==> data.transitions[i].localtime == data.transitions[i].gmttime + Offset(data, i)
  {
  }

  lemma SegmentOrder(data: Data, v: int, f: int, w: int, m: int)
    requires WellFormed(data) && Spaced(data) && v < w
    requires InSegment(data.transitions, v, Gmt, f) && InSegment(data.transitions, w, Gmt, m)
    ensures f <= m
  {
  }

  lemma NoLaterTime(data: Data, v: int, f: int, w: int)
    requires WellFormed(data) && Spaced(data) && v < w
    requires InSegment(data.transitions, v, Gmt, f) && InSegment(data.transitions, v + Offset(data, f), Local, f)
    ensures w + OffsetAt(data, w).gmtOffset != v + Offset(data, f)
  {
    hide FindLocaltime, OffsetAt, Spaced, Ascending, TypeOf, WellFormed;
    var a := data.transitions;
    var m := SegmentOf(a, w, Gmt, |a|);
    OffsetInSegment(data, w, m);
    LocalOf(data, m);
    SegmentOrder(data, v, f, w, m);
    if f + 1 < m { LocalGap(data, f + 1, m); }
  }

  lemma LatestIntro(data: Data, t: int, v: int, f: int)
    requires WellFormed(data) && Spaced(data)
    requires InSegment(data.transitions, v, Gmt, f) && InSegment(data.transitions, v + Offset(data, f), Local, f)
    requires v + Offset(data, f) == t + OffsetAt(data, t).gmtOffset
    ensures Latest(data, t, v)
  {
    hide OffsetAt, Spaced, InSegment;
    OffsetInSegment(data, v, f);
    forall w | w > v ensures w + OffsetAt(data, w).gmtOffset != t + OffsetAt(data, t).gmtOffset {
      NoLaterTime(data, v, f, w);
    }
  }

  /** There is such a time, and the search by local time finds its segment. */
  lemma LatestFound(data: Data, t: int) returns (v: int, f: int)
    requires WellFormed(data) && Spaced(data)
    ensures Latest(data, t, v) && -1 <= f < |data.transitions|
    ensures OffsetAtLocal(data, t + OffsetAt(data, t).gmtOffset) == TypeOf(data, f)
    ensures v == t + OffsetAt(data, t).gmtOffset - Offset(data, f)
  {
    hide *;
    var k := SegmentOf(data.transitions, t, Gmt, |data.transitions|);
    InSegmentRange(data.transitions, t, k);
    OffsetInSegment(data, t, k);
    OffsetOfType(data, k);
    var s := t + Offset(data, k);
    f := SegmentOf(data.transitions, s, Local, |data.transitions|);
    LocalSegmentRange(data.transitions, s, f);
    v := s - Offset(data, f);
    OccursInSegment(data, t, k, f);
    assert v + Offset(data, f) == s;
    LocalLookup(data, s, f);
    LatestIntro(data, t, v, f);
  }

  lemma OffsetOfType(data: Data, i: int)
    requires WellFormed(data) && -1 <= i < |data.transitions|
    ensures TypeOf(data, i).gmtOffset == Offset(data, i)
  {
  }

  lemma LocalSegmentRange(a: seq<Transition>, key: int, i: int)
    requires InSegment(a, key, Local, i)
    ensures -1 <= i < |a|
  {
  }

  /** A time comes back if and only if no later time shows the same on the clocks, or the last one
      that does is an hour later, in standard time, while t is in daylight saving. */
  lemma ReturnsIff(data: Data, t: int, v: int)
    requires WellFormed(data) && Spaced(data) && t + OffsetAt(data, t).gmtOffset >= FIRST_SECOND && Latest(data, t, v)
    ensures FromLocal(data, ToLocal(data, t)) == t <==>
            v == t || (v == t + 3600 && OffsetAt(data, t).isDst && !OffsetAt(data, v).isDst)
  {
    hide ToLocal, FromLocal, OffsetAt, OffsetAtLocal, SecondPass, Spaced, Offset, TypeOf;
    var u, f := LatestFound(data, t);
    assert u == v;
    FromLocalOf(data, t, f, v);
    SameClockFace(data, t, v);
  }

  // ---------- Fields filled in by hand ----------

  /** A time whose local seconds these fields are shows these fields. */
  lemma ShowsFields(data: Data, tm: Tm, v: int)
    requires WellFormed(data) && ValidFields(tm) && v + OffsetAt(data, v).gmtOffset == FromUtc(tm)
    ensures SameDateTime(ToLocal(data, v), tm)
    ensures SecondPass(data, tm, v) <==> tm.isdst && !OffsetAt(data, v).isDst
  {
    hide ToUtc, FromUtc, FindLocaltime, ValidFields;
    FieldsRoundTrip(tm, true);
  }

  /** Whatever else they hold, fields that some time shows are taken for the last time that shows
      them, and for an hour before it when they are flagged as daylight saving and that time is not. */
  lemma FromLocalIsLatest(data: Data, tm: Tm, t: int, v: int)
    requires WellFormed(data) && Spaced(data) && ValidFields(tm)
    requires FromUtc(tm) == t + OffsetAt(data, t).gmtOffset && Latest(data, t, v)
    ensures FromLocal(data, tm) == if tm.isdst && !OffsetAt(data, v).isDst then v - 3600 else v
  {
    hide ToLocal, OffsetAt, OffsetAtLocal, SecondPass, Spaced, Offset, TypeOf, FromUtc, ValidFields;
    var u, f := LatestFound(data, t);
    assert u == v;
    OffsetOfType(data, f);
    ShowsFields(data, tm, v);
  }

  /** Fields not flagged as daylight saving come back through fromLocalTime and toLocalTime if and
      only if some time shows them: they are not in a stretch the clocks skip. */
  lemma FieldsReturnIff(data: Data, tm: Tm)
    requires WellFormed(data) && Spaced(data) && ValidFields(tm) && !tm.isdst
    ensures SameDateTime(ToLocal(data, FromLocal(data, tm)), tm) <==>
            exists t :: t + OffsetAt(data, t).gmtOffset == FromUtc(tm)
  {
    hide ToLocal, FromLocal, OffsetAt, Spaced, FromUtc, ValidFields, SameDateTime;
    if t :| t + OffsetAt(data, t).gmtOffset == FromUtc(tm) {
      var v, _ := LatestFound(data, t);
      FromLocalIsLatest(data, tm, t, v);
      ShowsFields(data, tm, v);
    }
    var r := FromLocal(data, tm);
    if SameDateTime(ToLocal(data, r), tm) {
      ShownSeconds(data, tm, r);
      assert r + OffsetAt(data, r).gmtOffset == FromUtc(tm);
    }
  }

  lemma ShownSeconds(data: Data, tm: Tm, r: int)
    requires WellFormed(data) && ValidFields(tm) && SameDateTime(ToLocal(data, r), tm)
    ensures r + OffsetAt(data, r).gmtOffset == FromUtc(tm)
  {
    hide ToUtc, FromUtc, FindLocaltime, ValidFields, OffsetAt;
    var x := r + OffsetAt(data, r).gmtOffset;
    FromUtcSame(ToLocal(data, r), tm);
    FromUtcSame(ToLocal(data, r), ToUtc(x, true));
    FieldsRealIff(x, true);
    UtcRoundTrip(x, true);
  }

  /** Clocks set forward at midnight: half past midnight is never shown. */
  lemma SkippedHalfHour()
    ensures var data := Data([Transition(0, 3600, 1)], [Localtime(0, false), Localtime(3600, true)]);
            var tm := Tm(0, 30, 0, 1, 0, 70, 0, 0, false, 0);
            && WellFormed(data) && Spaced(data) && ValidFields(tm)
            && !SameDateTime(ToLocal(data, FromLocal(data, tm)), tm)
  {
    hide ToLocal, FromLocal, SameDateTime, FindLocaltime, OffsetAt, GetJulianDayNumber;
    var data := Data([Transition(0, 3600, 1)], [Localtime(0, false), Localtime(3600, true)]);
    var tm := Tm(0, 30, 0, 1, 0, 70, 0, 0, false, 0);
    EpochIsThursday();
    assert WellFormed(data) && Spaced(data) && FromUtc(tm) == 1800;
    forall t ensures t + OffsetAt(data, t).gmtOffset != 1800 {
      OffsetInSegment(data, t, if t < 0 then -1 else 0);
    }
    FieldsReturnIff(data, tm);
  }

  /** Those in a skipped stretch, like all others not flagged, are converted by the offset of the
      segment that the search by local time finds. */
  lemma UnflaggedByLocalSegment(data: Data, tm: Tm, f: int)
    requires WellFormed(data) && Spaced(data) && !tm.isdst && InSegment(data.transitions, FromUtc(tm), Local, f)
    ensures FromLocal(data, tm) == FromUtc(tm) - Offset(data, f)
  {
    hide ToUtc, FromUtc, FindLocaltime, Spaced, OffsetAtLocal;
    LocalLookup(data, FromUtc(tm), f);
  }

  /** In a zone without transitions local time is UTC plus the offset, whatever tm_gmtoff says. */
  lemma FixedZone(offset: int, tm: Tm)
    requires ValidFields(tm)
    ensures var data := Data([], [Localtime(offset, false)]);
            WellFormed(data) && FromLocal(data, tm) == FromUtc(tm) - offset - if tm.isdst then 3600 else 0
  {
    hide ToUtc, FromUtc, ValidFields;
    var data := Data([], [Localtime(offset, false)]);
    var v := FromUtc(tm) - offset;
    assert OffsetAt(data, v) == Localtime(offset, false);
    ShowsFields(data, tm, v);
  }

  /** In particular of ReturnsIff, for the first pass of a repeated stretch with no further step back behind it:
      if and only if that step is the one-hour end of daylight saving. */
  lemma FirstPassReturnsIff(data: Data, t: int, i: int)
    requires WellFormed(data) && Spaced(data) && t + OffsetAt(data, t).gmtOffset >= FIRST_SECOND
    requires 0 <= i < |data.transitions| && Repeated(data, t, i)
    requires i + 1 < |data.transitions| ==> Back(data, i + 1) <= 0
    ensures FromLocal(data, ToLocal(data, t)) == t <==>
            Back(data, i) == 3600 && TypeOf(data, i - 1).isDst && !TypeOf(data, i).isDst
  {
    hide ToLocal, FromLocal, OffsetAt, OffsetAtLocal, Spaced;
    var v := t + Back(data, i);
    SecondPassInSegment(data, t, i);
    RepeatedInLocalSegment(data, t, i);
    OffsetInSegment(data, t, i - 1);
    OffsetInSegment(data, v, i);
    assert v + Offset(data, i) == t + Offset(data, i - 1);
    LatestIntro(data, t, v, i);
    ReturnsIff(data, t, v);
  }

  /** A table whose steps back are spaced out converts every time there and back if and only if
      each step back is the one-hour end of daylight saving. */
  lemma RoundTripIffBackStepsEndDst(data: Data)
    requires WellFormed(data) && Spaced(data)
    requires forall i :: 0 <= i < |data.transitions| ==>
               data.transitions[i].gmttime + Offset(data, i) >= FIRST_SECOND
    ensures (forall t :: RoundTripsAt(data, t)) <==> BackStepsEndDst(data)
  {
    if BackStepsEndDst(data) {
      forall t ensures RoundTripsAt(data, t) { DstTablesRoundTrip(data, t); }
    }
    if forall t :: RoundTripsAt(data, t) {
      forall i | 0 <= i < |data.transitions| && Back(data, i) > 0
        ensures Back(data, i) == 3600 && TypeOf(data, i - 1).isDst && !TypeOf(data, i).isDst
      {
        BackStepReturns(data, i);
      }
    }
  }

  /** A zone that once moved its standard time back an hour does not convert every time there and back. */
  lemma StandardTimeMovedBack()
    ensures var data := Data([Transition(0, 0, 1)], [Localtime(3600, false), Localtime(0, false)]);
            WellFormed(data) && Spaced(data) && exists t :: !RoundTripsAt(data, t)
  {
    hide RoundTripsAt;
    var data := Data([Transition(0, 0, 1)], [Localtime(3600, false), Localtime(0, false)]);
    assert WellFormed(data) && Back(data, 0) == 3600;
    assert !BackStepsEndDst(data);
    RoundTripIffBackStepsEndDst(data);
  }

  lemma BackStepReturns(data: Data, i: int)
    requires WellFormed(data) && Spaced(data) && 0 <= i < |data.transitions| && Back(data, i) > 0
    requires data.transitions[i].gmttime + Offset(data, i) >= FIRST_SECOND
    requires forall t :: RoundTripsAt(data, t)
    ensures Back(data, i) == 3600 && TypeOf(data, i - 1).isDst && !TypeOf(data, i).isDst
  {
    var u := data.transitions[i].gmttime + Back(data, i) - 1;
    var t := data.transitions[i].gmttime - 1;
    assert i > 0 ==> Key(data.transitions[i - 1], Gmt) < Key(data.transitions[i], Gmt);
    assert Repeated(data, t, i);
    SecondPassInSegment(data, t, i);
    OffsetInSegment(data, t, i - 1);
    OffsetInSegment(data, u, i);
    assert RoundTripsAt(data, t) && RoundTripsAt(data, u);
    BothPassesReturn(data, t, u);
  }
}
