/** Reactors/base/AsyncLogging.cc: front-end threads append lines under a lock while
    one writer thread swaps full buffers out, writes them and gives two back. A step
    is one append, one call of stop, or one stretch of the writer between two points
    where other threads can run. A failed assert or a null dereference is a step to
    the state `Crashed`. */
module AsyncLogging {
  import opened Wrappers
  import opened LogStream

  type Line = string

  /** A buffer, known by the identity of its allocation, and the lines in it. */
  datatype LogBuffer = LogBuffer(id: nat, lines: seq<Line>)

  datatype Pc = AtHead | Entering | Waiting | HasBatch | WroteBatch | Finished | Crashed

  /** What reaches the log file. */
  datatype Record = LogLine(line: Line) | DropNotice(buffers: nat)

  /** What became of an accepted line, for the account of all lines. */
  datatype Fate = Written(line: Line) | Lost(line: Line)

  datatype State = State(
    running: bool, pc: Pc,
    current: LogBuffer, next: Option<LogBuffer>, buffers: seq<LogBuffer>,
    new1: Option<LogBuffer>, new2: Option<LogBuffer>, batch: seq<LogBuffer>,
    output: seq<Record>,
    fates: seq<Fate>, accepted: seq<Line>, freshId: nat)

  datatype Event = Append(line: Line) | Stop | Writer

  const MAX_BATCH := 25

  // ---------- Buffers ----------

  function Bytes(lines: seq<Line>): string {
    if lines == [] then "" else Bytes(lines[..|lines| - 1]) + lines[|lines| - 1]
  }

  function Length(b: LogBuffer): nat {
    |Bytes(b.lines)|
  }

  predicate Fits(b: LogBuffer, line: Line) {
    LARGE_BUFFER - Length(b) > |line|
  }

  /** FixedBuffer::append: the whole line or none of it. */
  function Put(b: LogBuffer, line: Line): LogBuffer {
    if Fits(b, line) then b.(lines := b.lines + [line]) else b
  }

  function LinesOf(bs: seq<LogBuffer>): seq<Line> {
    if bs == [] then [] else LinesOf(bs[..|bs| - 1]) + bs[|bs| - 1].lines
  }

  // ---------- The steps ----------

  function Initial(): State {
    State(true, AtHead, LogBuffer(0, []), Some(LogBuffer(1, [])), [],
          Some(LogBuffer(2, [])), Some(LogBuffer(3, [])), [], [], [], [], 4)
  }

  /** The front buffer after a full one has been handed over. */
  function HandOver(s: State): State {
    match s.next
    case Some(b) => s.(buffers := s.buffers + [s.current], current := b, next := None)
    case None => s.(buffers := s.buffers + [s.current], current := LogBuffer(s.freshId, []), freshId := s.freshId + 1)
  }

  function PutCurrent(s: State, line: Line): State {
    if Fits(s.current, line) then s.(current := Put(s.current, line), accepted := s.accepted + [line]) else s
  }

  function AppendStep(s: State, line: Line): State {
    if Fits(s.current, line) then PutCurrent(s, line) else PutCurrent(HandOver(s), line)
  }

  predicate Ready(b: Option<LogBuffer>) {
    b.Some? && Length(b.value) == 0
  }

  /** The rest of the writer's critical section, after the wait if there was one. */
  function SwapStep(s: State): State {
    if s.new1.None? then s.(pc := Crashed)
    else
      var t := s.(pc := HasBatch, batch := s.buffers + [s.current], buffers := [],
                  current := s.new1.value, new1 := None);
      if s.next.None? then t.(next := s.new2, new2 := None) else t
  }

  function Kept(batch: seq<LogBuffer>): seq<LogBuffer> {
    if |batch| > MAX_BATCH then batch[..2] else batch
  }

  function Dropped(batch: seq<LogBuffer>): seq<LogBuffer> {
    if |batch| > MAX_BATCH then batch[2..] else []
  }

  function Notice(batch: seq<LogBuffer>): seq<Record> {
    if |batch| > MAX_BATCH then [DropNotice(|batch| - 2)] else []
  }

  function Records(lines: seq<Line>): seq<Record> {
    seq(|lines|, i requires 0 <= i < |lines| => LogLine(lines[i]))
  }

  function AllWritten(lines: seq<Line>): seq<Fate> {
    seq(|lines|, i requires 0 <= i < |lines| => Written(lines[i]))
  }

  function AllLost(lines: seq<Line>): seq<Fate> {
    seq(|lines|, i requires 0 <= i < |lines| => Lost(lines[i]))
  }

  function FirstTwo(batch: seq<LogBuffer>): seq<LogBuffer> {
    if |batch| > 2 then batch[..2] else batch
  }

  function WriteStep(s: State): State {
    s.(pc := WroteBatch,
       output := s.output + Notice(s.batch) + Records(LinesOf(Kept(s.batch))),
       fates := s.fates + AllWritten(LinesOf(Kept(s.batch))) + AllLost(LinesOf(Dropped(s.batch))),
       batch := FirstTwo(Kept(s.batch)))
  }

  /** reset(): the same allocation, empty again. */
  function Last(batch: seq<LogBuffer>): LogBuffer
    requires batch != []
  {
    batch[|batch| - 1].(lines := [])
  }

  function RefillNew1(s: State): State {
    if s.new1.Some? then s
    else if s.batch == [] then s.(pc := Crashed)
    else s.(new1 := Some(Last(s.batch)), batch := s.batch[..|s.batch| - 1])
  }

  function RefillNew2(s: State): State {
    if s.new2.Some? then s
    else if s.batch == [] then s.(pc := Crashed)
    else s.(new2 := Some(Last(s.batch)), batch := s.batch[..|s.batch| - 1])
  }

  function RecycleStep(s: State): State {
    var t := RefillNew1(s);
    if t.pc.Crashed? then t
    else
      var u := RefillNew2(t);
      if u.pc.Crashed? then u else u.(pc := AtHead, batch := [])
  }

  function WriterStep(s: State): State {
    match s.pc
    case AtHead =>
      if !s.running then s.(pc := Finished)
      else if Ready(s.new1) && Ready(s.new2) && s.batch == [] then s.(pc := Entering)
      else s.(pc := Crashed)
    case Entering => if s.buffers == [] then s.(pc := Waiting) else SwapStep(s)
    case Waiting => SwapStep(s)
    case HasBatch => if s.batch == [] then s.(pc := Crashed) else WriteStep(s)
    case WroteBatch => RecycleStep(s)
    case Finished => s
    case Crashed => s
  }

  function Step(s: State, e: Event): State {
    match e
    case Append(line) => AppendStep(s, line)
    case Stop => s.(running := false)
    case Writer => WriterStep(s)
  }

  function Run(s: State, es: seq<Event>): State {
    if es == [] then s else Step(Run(s, es[..|es| - 1]), es[|es| - 1])
  }

  // ---------- The invariants ----------

  ghost predicate Blank(b: Option<LogBuffer>) {
    b.Some? ==> b.value.lines == []
  }

  /** A null nextBuffer_ means some buffer is waiting to be collected. */
  ghost predicate FrontInv(s: State) {
    (s.next.None? ==> s.buffers != []) && Blank(s.next)
  }

  /** The writer's spare buffers, point by point of its loop. */
  ghost predicate SpareInv(s: State) {
    match s.pc
    case AtHead | Entering | Waiting | Finished => s.new1.Some? && s.new2.Some? && s.batch == []
    case HasBatch => s.new1.None? && s.batch != [] && (s.new2.None? ==> |s.batch| >= 2)
    case WroteBatch => s.new1.None? && 1 <= |s.batch| <= 2 && (s.new2.None? ==> |s.batch| == 2)
    case Crashed => false
  }

  ghost predicate WriterInv(s: State) {
    SpareInv(s) && Blank(s.new1) && Blank(s.new2)
  }

  function Id(b: Option<LogBuffer>): multiset<nat> {
    if b.Some? then multiset{b.value.id} else multiset{}
  }

  function Ids(bs: seq<LogBuffer>): multiset<nat> {
    if bs == [] then multiset{} else Ids(bs[..|bs| - 1]) + multiset{bs[|bs| - 1].id}
  }

  /** Every place a buffer can be owned from, with multiplicity. */
  function Owners(s: State): multiset<nat> {
    multiset{s.current.id} + Id(s.next) + Ids(s.buffers) + Id(s.new1) + Id(s.new2) + Ids(s.batch)
  }

  ghost predicate OwnerInv(s: State) {
    forall x :: x in Owners(s) ==> Owners(s)[x] == 1 && x < s.freshId
  }

  /** The lines taken out of the front end but not yet written. */
  function InHand(s: State): seq<Line> {
    if s.pc.HasBatch? then LinesOf(s.batch) else []
  }

  function Fated(fates: seq<Fate>): seq<Line> {
    seq(|fates|, i requires 0 <= i < |fates| => fates[i].line)
  }

  function WrittenLines(fates: seq<Fate>): seq<Line> {
    if fates == [] then []
    else
      var f := fates[|fates| - 1];
      WrittenLines(fates[..|fates| - 1]) + if f.Written? then [f.line] else []
  }

  function FileLines(output: seq<Record>): seq<Line> {
    if output == [] then []
    else
      var r := output[|output| - 1];
      FileLines(output[..|output| - 1]) + if r.LogLine? then [r.line] else []
  }

  /** Every accepted line, in order: settled, then in the writer's hands, then in the front end. */
  ghost predicate AccountInv(s: State) {
    && s.accepted == Fated(s.fates) + InHand(s) + LinesOf(s.buffers) + s.current.lines
    && FileLines(s.output) == WrittenLines(s.fates)
    && ((forall i :: 0 <= i < |s.output| ==> s.output[i].LogLine?) ==>
          forall i :: 0 <= i < |s.fates| ==> s.fates[i].Written?)
  }

  ghost predicate Inv(s: State) {
    FrontInv(s) && WriterInv(s) && OwnerInv(s) && AccountInv(s)
  }

  // ---------- Small lemmas ----------

  lemma LinesOfPush(bs: seq<LogBuffer>, b: LogBuffer)
    ensures LinesOf(bs + [b]) == LinesOf(bs) + b.lines
  {
    assert (bs + [b])[..|bs + [b]| - 1] == bs;
  }

  lemma LinesOfNone()
    ensures LinesOf([]) == []
  {
  }

  lemma {:induction false} LinesOfConcat(head: seq<LogBuffer>, bs: seq<LogBuffer>)
    ensures LinesOf(head + bs) == LinesOf(head) + LinesOf(bs)
    decreases |bs|
  {
    hide LinesOf;
    if bs == [] {
      LinesOfNone();
      assert head + bs == head;
    } else {
      var front, last := bs[..|bs| - 1], bs[|bs| - 1];
      LinesOfConcat(head, front);
      assert head + bs == (head + front) + [last] && bs == front + [last];
      LinesOfPush(head + front, last);
      LinesOfPush(front, last);
    }
  }

  lemma IdsPush(bs: seq<LogBuffer>, b: LogBuffer)
    ensures Ids(bs + [b]) == Ids(bs) + multiset{b.id}
  {
    assert (bs + [b])[..|bs + [b]| - 1] == bs;
  }

  lemma {:induction false} IdsPrefix(bs: seq<LogBuffer>, k: nat)
    requires k <= |bs|
    ensures Ids(bs[..k]) <= Ids(bs)
    decreases |bs|
  {
    if k < |bs| {
      IdsPrefix(bs[..|bs| - 1], k);
      assert bs[..|bs| - 1][..k] == bs[..k];
    } else {
      assert bs[..k] == bs;
    }
  }

  lemma FatedConcat(f: seq<Fate>, g: seq<Fate>)
    ensures Fated(f + g) == Fated(f) + Fated(g)
  {
  }

  lemma {:induction false} WrittenConcat(f: seq<Fate>, g: seq<Fate>)
    ensures WrittenLines(f + g) == WrittenLines(f) + WrittenLines(g)
    decreases |g|
  {
    if g == [] {
      assert f + g == f;
    } else {
      WrittenConcat(f, g[..|g| - 1]);
      assert (f + g)[..|f + g| - 1] == f + g[..|g| - 1];
    }
  }

  lemma {:induction false} FileConcat(f: seq<Record>, g: seq<Record>)
    ensures FileLines(f + g) == FileLines(f) + FileLines(g)
    decreases |g|
  {
    if g == [] {
      assert f + g == f;
    } else {
      FileConcat(f, g[..|g| - 1]);
      assert (f + g)[..|f + g| - 1] == f + g[..|g| - 1];
    }
  }

  lemma LabelledLines(lines: seq<Line>)
    ensures WrittenLines(AllWritten(lines)) == lines && WrittenLines(AllLost(lines)) == []
    ensures FileLines(Records(lines)) == lines
    ensures Fated(AllWritten(lines)) == lines && Fated(AllLost(lines)) == lines
  {
    hide WrittenLines, FileLines;
    WrittenOfWritten(lines);
    WrittenOfLost(lines);
    FileOfRecords(lines);
  }

  lemma {:induction false} WrittenOfWritten(lines: seq<Line>)
    ensures WrittenLines(AllWritten(lines)) == lines
  {
    if lines != [] {
      WrittenOfWritten(lines[..|lines| - 1]);
      assert AllWritten(lines)[..|lines| - 1] == AllWritten(lines[..|lines| - 1]);
    }
  }

  lemma {:induction false} WrittenOfLost(lines: seq<Line>)
    ensures WrittenLines(AllLost(lines)) == []
  {
    if lines != [] {
      WrittenOfLost(lines[..|lines| - 1]);
      assert AllLost(lines)[..|lines| - 1] == AllLost(lines[..|lines| - 1]);
    }
  }

  lemma {:induction false} FileOfRecords(lines: seq<Line>)
    ensures FileLines(Records(lines)) == lines
  {
    if lines != [] {
      FileOfRecords(lines[..|lines| - 1]);
      assert Records(lines)[..|lines| - 1] == Records(lines[..|lines| - 1]);
    }
  }

  lemma BytesPush(lines: seq<Line>, line: Line)
    ensures Bytes(lines + [line]) == Bytes(lines) + line
  {
    assert (lines + [line])[..|lines + [line]| - 1] == lines;
  }

  /** The line model of a buffer is the byte model of FixedBuffer: a line goes in whole or not at all. */
  lemma PutIsAppend(b: LogBuffer, line: Line)
    ensures Bytes(Put(b, line).lines) == Appended(Bytes(b.lines), line, LARGE_BUFFER)
  {
    hide Bytes;
    BytesPush(b.lines, line);
  }

  // ---------- Each step keeps the invariants ----------

  lemma OwnersShrink(s: State, t: State)
    requires OwnerInv(s) && Owners(t) <= Owners(s) && t.freshId == s.freshId
    ensures OwnerInv(t)
  {
    hide Owners;
  }

  lemma HandOverOwners(s: State)
    requires OwnerInv(s)
    ensures OwnerInv(HandOver(s))
  {
    hide Ids;
    IdsPush(s.buffers, s.current);
    var t := HandOver(s);
    if s.next.None? {
      assert s.freshId !in Owners(s);
      assert Owners(t) == Owners(s) + multiset{s.freshId};
    } else {
      assert Owners(t) == Owners(s);
    }
  }

  lemma SwapOwners(s: State)
    requires OwnerInv(s) && SpareInv(s) && (s.pc.Entering? || s.pc.Waiting?)
    ensures OwnerInv(SwapStep(s))
  {
    hide Ids, OwnerInv;
    IdsPush(s.buffers, s.current);
    IdsNone();
    assert Owners(SwapStep(s)) == Owners(s);
    OwnersShrink(s, SwapStep(s));
  }

  lemma IdsNone()
    ensures Ids([]) == multiset{}
  {
  }

  lemma WriteOwners(s: State)
    requires OwnerInv(s)
    ensures OwnerInv(WriteStep(s))
  {
    hide Ids, OwnerInv, LinesOf;
    var t := WriteStep(s);
    assert t.batch == s.batch[..|t.batch|];
    IdsPrefix(s.batch, |t.batch|);
    assert Owners(t) <= Owners(s);
    OwnersShrink(s, t);
  }

  lemma IdsPop(bs: seq<LogBuffer>)
    requires bs != []
    ensures Ids(bs) == Ids(bs[..|bs| - 1]) + multiset{Last(bs).id}
  {
  }

  lemma RefillNew1Owners(s: State)
    requires OwnerInv(s)
    ensures OwnerInv(RefillNew1(s))
  {
    hide Ids, OwnerInv;
    var t := RefillNew1(s);
    if s.new1.None? && s.batch != [] {
      IdsPop(s.batch);
      assert Id(t.new1) + Ids(t.batch) == Ids(s.batch) && Id(s.new1) == multiset{};
    }
    assert Id(t.new1) + Ids(t.batch) == Id(s.new1) + Ids(s.batch);
    assert Owners(t) == Owners(s);
    OwnersShrink(s, t);
  }

  lemma RefillNew2Owners(s: State)
    requires OwnerInv(s)
    ensures OwnerInv(RefillNew2(s))
  {
    hide Ids, OwnerInv;
    var t := RefillNew2(s);
    if s.new2.None? && s.batch != [] {
      IdsPop(s.batch);
      assert Id(t.new2) + Ids(t.batch) == Ids(s.batch) && Id(s.new2) == multiset{};
    }
    assert Id(t.new2) + Ids(t.batch) == Id(s.new2) + Ids(s.batch);
    assert Owners(t) == Owners(s);
    OwnersShrink(s, t);
  }

  lemma RecycleOwners(s: State)
    requires OwnerInv(s)
    ensures OwnerInv(RecycleStep(s))
  {
    hide Ids, OwnerInv, RefillNew1, RefillNew2;
    RefillNew1Owners(s);
    RefillNew2Owners(RefillNew1(s));
    var u := RefillNew2(RefillNew1(s));
    IdsNone();
    assert Owners(u.(pc := AtHead, batch := [])) <= Owners(u);
    OwnersShrink(u, u.(pc := AtHead, batch := []));
  }

  lemma HandOverAccounts(s: State)
    requires AccountInv(s)
    requires Blank(s.next)
    ensures AccountInv(HandOver(s)) && HandOver(s).current.lines == []
  {
    hide LinesOf, Fated, FileLines, WrittenLines;
    var t := HandOver(s);
    LinesOfPush(s.buffers, s.current);
    assert t.accepted == Fated(t.fates) + InHand(t) + LinesOf(t.buffers) + t.current.lines;
  }

  lemma PutCurrentAccounts(s: State, line: Line)
    requires AccountInv(s)
    ensures AccountInv(PutCurrent(s, line))
  {
    hide LinesOf, Fits, Fated, FileLines, WrittenLines;
    var t := PutCurrent(s, line);
    if Fits(s.current, line) {
      assert t.accepted == Fated(t.fates) + InHand(t) + LinesOf(t.buffers) + t.current.lines;
    }
  }

  lemma PutCurrentOwners(s: State, line: Line)
    requires OwnerInv(s)
    ensures OwnerInv(PutCurrent(s, line))
  {
    hide Ids, OwnerInv, Fits;
    assert Owners(PutCurrent(s, line)) == Owners(s);
    OwnersShrink(s, PutCurrent(s, line));
  }

  lemma AppendKeeps(s: State, line: Line)
    requires Inv(s)
    ensures Inv(AppendStep(s, line))
  {
    hide OwnerInv, AccountInv, Fits, Put;
    if Fits(s.current, line) {
      PutCurrentAccounts(s, line);
      PutCurrentOwners(s, line);
    } else {
      HandOverAccounts(s);
      HandOverOwners(s);
      PutCurrentAccounts(HandOver(s), line);
      PutCurrentOwners(HandOver(s), line);
    }
  }

  lemma SwapAccounts(s: State)
    requires AccountInv(s) && WriterInv(s) && (s.pc.Entering? || s.pc.Waiting?)
    ensures AccountInv(SwapStep(s))
  {
    hide LinesOf, Fated, FileLines, WrittenLines;
    var t := SwapStep(s);
    LinesOfPush(s.buffers, s.current);
    LinesOfNone();
    assert t.accepted == Fated(t.fates) + InHand(t) + LinesOf(t.buffers) + t.current.lines;
  }

  lemma SwapKeeps(s: State)
    requires Inv(s) && (s.pc.Entering? || s.pc.Waiting?)
    ensures Inv(SwapStep(s))
  {
    hide OwnerInv, AccountInv;
    SwapAccounts(s);
    SwapOwners(s);
  }

  lemma KeptAndDropped(batch: seq<LogBuffer>)
    ensures LinesOf(batch) == LinesOf(Kept(batch)) + LinesOf(Dropped(batch))
  {
    hide LinesOf;
    LinesOfConcat(Kept(batch), Dropped(batch));
    assert batch == Kept(batch) + Dropped(batch);
  }

  lemma WriteAccounts(s: State)
    requires AccountInv(s) && s.pc.HasBatch?
    ensures AccountInv(WriteStep(s))
  {
    hide LinesOf, AllWritten, AllLost, Records, Fated, WrittenLines, FileLines, Kept, Dropped, Notice, FirstTwo;
    var t := WriteStep(s);
    var kept, dropped := LinesOf(Kept(s.batch)), LinesOf(Dropped(s.batch));
    KeptAndDropped(s.batch);
    LabelledLines(kept);
    LabelledLines(dropped);
    FatedConcat(s.fates, AllWritten(kept));
    FatedConcat(s.fates + AllWritten(kept), AllLost(dropped));
    assert t.accepted == Fated(t.fates) + InHand(t) + LinesOf(t.buffers) + t.current.lines;
    WrittenConcat(s.fates, AllWritten(kept));
    WrittenConcat(s.fates + AllWritten(kept), AllLost(dropped));
    FileConcat(s.output, Notice(s.batch));
    FileConcat(s.output + Notice(s.batch), Records(kept));
    NoticeIsNoLine(s.batch);
    assert FileLines(t.output) == WrittenLines(t.fates);
    LossOnlyWithNotice(s);
  }

  lemma NoticeIsNoLine(batch: seq<LogBuffer>)
    ensures FileLines(Notice(batch)) == []
  {
  }

  lemma LossOnlyWithNotice(s: State)
    requires AccountInv(s)
    ensures var t := WriteStep(s);
            (forall i :: 0 <= i < |t.output| ==> t.output[i].LogLine?) ==>
            forall i :: 0 <= i < |t.fates| ==> t.fates[i].Written?
  {
    hide Fated, WrittenLines, FileLines;
    var t := WriteStep(s);
    assert forall i :: 0 <= i < |s.output| ==> s.output[i] == t.output[i];
    if |s.batch| > MAX_BATCH {
      assert t.output[|s.output|] == DropNotice(|s.batch| - 2);
    } else {
      assert Dropped(s.batch) == [];
      LinesOfNone();
    }
  }

  lemma WriteKeeps(s: State)
    requires Inv(s) && s.pc.HasBatch?
    ensures Inv(WriteStep(s))
  {
    hide OwnerInv, AccountInv, LinesOf;
    WriteAccounts(s);
    WriteOwners(s);
  }

  lemma RecycleKeeps(s: State)
    requires Inv(s) && s.pc.WroteBatch?
    ensures Inv(RecycleStep(s)) && RecycleStep(s).pc == AtHead
  {
    hide OwnerInv;
    RecycleOwners(s);
  }

  /** Steps that move only the writer's program counter or the running flag. */
  lemma ControlKeeps(s: State, running: bool, pc: Pc)
    requires Inv(s) && (s.pc == pc || !(s.pc.HasBatch? || pc.HasBatch?))
    requires SpareInv(s.(pc := pc))
    ensures Inv(s.(running := running, pc := pc))
  {
    var t := s.(running := running, pc := pc);
    assert Owners(t) == Owners(s);
  }

  lemma BlankIsReady(b: LogBuffer)
    requires b.lines == []
    ensures Length(b) == 0
  {
  }

  lemma WriterKeeps(s: State)
    requires Inv(s)
    ensures Inv(WriterStep(s))
  {
    hide OwnerInv, AccountInv, RecycleStep, SwapStep, WriteStep, Length;
    match s.pc
    case AtHead =>
      BlankIsReady(s.new1.value);
      BlankIsReady(s.new2.value);
      ControlKeeps(s, s.running, WriterStep(s).pc);
    case Entering =>
      if s.buffers != [] { SwapKeeps(s); } else { ControlKeeps(s, s.running, Waiting); }
    case Waiting => SwapKeeps(s);
    case HasBatch => WriteKeeps(s);
    case WroteBatch => RecycleKeeps(s);
    case Finished =>
  }

  lemma StepKeeps(s: State, e: Event)
    requires Inv(s)
    ensures Inv(Step(s, e))
  {
    hide Inv, AppendStep, WriterStep;
    match e
    case Append(line) => AppendKeeps(s, line);
    case Stop => StopKeeps(s);
    case Writer => WriterKeeps(s);
  }

  lemma StopKeeps(s: State)
    requires Inv(s)
    ensures Inv(s.(running := false))
  {
    ControlKeeps(s, false, s.pc);
  }

  // ---------- Main results ----------

  lemma InitialInv()
    ensures Inv(Initial())
  {
    var s := Initial();
    assert Owners(s) == multiset{0, 1, 2, 3};
    assert s.accepted == Fated(s.fates) + InHand(s) + LinesOf(s.buffers) + s.current.lines;
  }

  /** In every interleaving, every invariant holds. */
  lemma {:induction false} RunKeeps(es: seq<Event>)
    ensures Inv(Run(Initial(), es))
    decreases |es|
  {
    hide Inv;
    if es == [] {
      InitialInv();
    } else {
      RunKeeps(es[..|es| - 1]);
      StepKeeps(Run(Initial(), es[..|es| - 1]), es[|es| - 1]);
    }
  }

  /** No assert of the writer ever fails and no null buffer is ever used; every buffer has one owner. */
  lemma NeverCrashes(es: seq<Event>)
    ensures !Run(Initial(), es).pc.Crashed?
    ensures var s := Run(Initial(), es);
            && (s.next.None? ==> s.buffers != [])
            && (forall x :: x in Owners(s) ==> Owners(s)[x] == 1)
  {
    RunKeeps(es);
  }

  /** The lines given to append in a run that are shorter than a buffer, in order. */
  function Appendable(es: seq<Event>): seq<Line> {
    if es == [] then []
    else
      var e := es[|es| - 1];
      Appendable(es[..|es| - 1]) + if e.Append? && |e.line| < LARGE_BUFFER then [e.line] else []
  }

  lemma FitsIffShorter(s: State, line: Line)
    requires FrontInv(s)
    ensures AppendStep(s, line).accepted == s.accepted + if |line| < LARGE_BUFFER then [line] else []
  {
  }

  lemma WriterAcceptsNothing(s: State)
    ensures WriterStep(s).accepted == s.accepted
  {
  }

  /** append takes exactly the lines shorter than a buffer. */
  lemma {:induction false} AcceptsExactlyTheShort(es: seq<Event>)
    ensures Run(Initial(), es).accepted == Appendable(es)
    decreases |es|
  {
    hide AppendStep, WriterStep, OwnerInv, WriterInv, AccountInv;
    if es != [] {
      var front, e := es[..|es| - 1], es[|es| - 1];
      AcceptsExactlyTheShort(front);
      RunKeeps(front);
      var s := Run(Initial(), front);
      match e
      case Append(line) => FitsIffShorter(s, line);
      case Stop =>
      case Writer => WriterAcceptsNothing(s);
    }
  }

  lemma LinesAccounted(es: seq<Event>)
    ensures var s := Run(Initial(), es);
            && Appendable(es) == Fated(s.fates) + InHand(s) + LinesOf(s.buffers) + s.current.lines
            && FileLines(s.output) == WrittenLines(s.fates)
  {
    hide Run, Appendable, LinesOf;
    RunKeeps(es);
    AcceptsExactlyTheShort(es);
  }

  // ---------- Exactly when lines are lost ----------

  ghost predicate AnyLost(fates: seq<Fate>) {
    exists i :: 0 <= i < |fates| && fates[i].Lost?
  }

  /** The writer is about to write a batch of more than 25 buffers with lines after its second. */
  ghost predicate Loses(s: State, e: Event) {
    e.Writer? && s.pc.HasBatch? && |s.batch| > MAX_BATCH && LinesOf(s.batch[2..]) != []
  }

  ghost predicate RunLoses(es: seq<Event>) {
    exists k :: 0 <= k < |es| && Loses(Run(Initial(), es[..k]), es[k])
  }

  lemma LostConcat(f: seq<Fate>, written: seq<Line>, lost: seq<Line>)
    ensures AnyLost(f + AllWritten(written) + AllLost(lost)) <==> AnyLost(f) || lost != []
  {
    var g := f + AllWritten(written) + AllLost(lost);
    if AnyLost(f) {
      var i :| 0 <= i < |f| && f[i].Lost?;
      assert g[i] == f[i];
    }
    if lost != [] { assert g[|f| + |written|] == Lost(lost[0]); }
  }

  lemma StepLossIff(s: State, e: Event)
    requires Inv(s)
    ensures AnyLost(Step(s, e).fates) <==> AnyLost(s.fates) || Loses(s, e)
  {
    hide AnyLost, OwnerInv, AccountInv, LinesOf, AllWritten, AllLost, Fits, Put;
    LinesOfNone();
    if e.Writer? && s.pc.HasBatch? {
      LostConcat(s.fates, LinesOf(Kept(s.batch)), LinesOf(Dropped(s.batch)));
    }
  }

  lemma RunLosesSnoc(es: seq<Event>, n: nat)
    requires |es| == n + 1
    ensures RunLoses(es) <==> RunLoses(es[..n]) || Loses(Run(Initial(), es[..n]), es[n])
  {
    hide Run, Loses;
    assert forall k :: 0 <= k < n ==> es[..n][..k] == es[..k] && es[..n][k] == es[k];
    if RunLoses(es) {
      var k :| 0 <= k < |es| && Loses(Run(Initial(), es[..k]), es[k]);
      if k < n { assert Loses(Run(Initial(), es[..n][..k]), es[..n][k]); }
    }
    if RunLoses(es[..n]) {
      var k :| 0 <= k < n && Loses(Run(Initial(), es[..n][..k]), es[..n][k]);
      assert Loses(Run(Initial(), es[..k]), es[k]);
    }
  }

  /** A run has lost a line if and only if some write step found lines after the second buffer of
      a batch of more than 25. */
  lemma {:induction false} LostIff(es: seq<Event>)
    ensures AnyLost(Run(Initial(), es).fates) <==> RunLoses(es)
    decreases |es|
  {
    hide Inv, Step, Loses;
    if es != [] {
      var n := |es| - 1;
      LostIff(es[..n]);
      RunKeeps(es[..n]);
      StepLossIff(Run(Initial(), es[..n]), es[n]);
      hide RunLoses;
      RunLosesSnoc(es, n);
    }
  }

  lemma {:induction false} WrittenIsFatedIff(fates: seq<Fate>)
    ensures |WrittenLines(fates)| <= |fates|
    ensures |WrittenLines(fates)| == |fates| <==> !AnyLost(fates)
    ensures !AnyLost(fates) ==> WrittenLines(fates) == Fated(fates)
  {
    if fates != [] {
      var front, f := fates[..|fates| - 1], fates[|fates| - 1];
      WrittenIsFatedIff(front);
      assert Fated(fates) == Fated(front) + [f.line];
      if AnyLost(front) {
        var i :| 0 <= i < |front| && front[i].Lost?;
        assert fates[i].Lost?;
      }
    }
  }

  /** In every interleaving the accepted lines are, in order and without repetition: those settled,
      those in the writer's hands, those in full buffers and those in the current one. The file
      holds exactly the settled lines that were not lost, and none was lost if and only if no write
      step found lines after the second buffer of a batch of more than 25. A loss leaves a notice. */
  lemma EveryLineAccounted(es: seq<Event>)
    ensures var s := Run(Initial(), es);
            && Appendable(es) == Fated(s.fates) + InHand(s) + LinesOf(s.buffers) + s.current.lines
            && FileLines(s.output) == WrittenLines(s.fates)
            && (Appendable(es) == FileLines(s.output) + InHand(s) + LinesOf(s.buffers) + s.current.lines <==>
                  !RunLoses(es))
            && ((forall i :: 0 <= i < |s.output| ==> s.output[i].LogLine?) ==> !RunLoses(es))
  {
    hide Run, Appendable, LinesOf, RunLoses, FileLines, WrittenLines, FrontInv, WriterInv, OwnerInv, InHand;
    LinesAccounted(es);
    RunKeeps(es);
    LostIff(es);
    var s := Run(Initial(), es);
    WrittenIsFatedIff(s.fates);
    var rest := InHand(s) + LinesOf(s.buffers) + s.current.lines;
    assert Appendable(es) == Fated(s.fates) + rest;
    assert FileLines(s.output) + InHand(s) + LinesOf(s.buffers) + s.current.lines == FileLines(s.output) + rest;
  }

  /** In particular while no batch exceeds 25 buffers. */
  lemma SmallBatchesLoseNothing(es: seq<Event>)
    requires forall k :: 0 <= k < |es| ==>
               var s := Run(Initial(), es[..k]); es[k].Writer? && s.pc.HasBatch? ==> |s.batch| <= 25
    ensures var s := Run(Initial(), es);
            Appendable(es) == FileLines(s.output) + InHand(s) + LinesOf(s.buffers) + s.current.lines
  {
    hide Run, Appendable, LinesOf, FileLines, InHand;
    EveryLineAccounted(es);
  }

  lemma StepKeepsFates(s: State, e: Event)
    ensures s.fates <= Step(s, e).fates
  {
    hide Fits, Put, LinesOf, AllWritten, AllLost;
  }

  /** What has become of a line is settled for good. */
  lemma {:induction false} FatesOnlyGrow(s: State, es: seq<Event>)
    ensures s.fates <= Run(s, es).fates
    decreases |es|
  {
    hide Step;
    if es != [] {
      FatesOnlyGrow(s, es[..|es| - 1]);
      StepKeepsFates(Run(s, es[..|es| - 1]), es[|es| - 1]);
    }
  }

  /** A batch of more than 25 buffers: its first two reach the file, and everything after them is
      lost whatever happens later. */
  lemma OversizedBatch(es: seq<Event>, later: seq<Event>)
    requires var s := Run(Initial(), es); s.pc.HasBatch? && |s.batch| > MAX_BATCH
    ensures var s := Run(Initial(), es);
            var t := Step(s, Writer);
            && InHand(s) == LinesOf(s.batch[..2]) + LinesOf(s.batch[2..])
            && FileLines(t.output) == FileLines(s.output) + LinesOf(s.batch[..2])
            && s.fates + AllWritten(LinesOf(s.batch[..2])) + AllLost(LinesOf(s.batch[2..])) <= Run(t, later).fates
  {
    hide *;
    var s := Run(Initial(), es);
    SettleOversized(s);
    FatesOnlyGrow(Step(s, Writer), later);
  }

  lemma SettleOversized(s: State)
    requires s.pc.HasBatch? && |s.batch| > MAX_BATCH
    ensures var t := Step(s, Writer);
            && InHand(s) == LinesOf(s.batch[..2]) + LinesOf(s.batch[2..])
            && t.fates == s.fates + AllWritten(LinesOf(s.batch[..2])) + AllLost(LinesOf(s.batch[2..]))
            && FileLines(t.output) == FileLines(s.output) + LinesOf(s.batch[..2])
            && |s.output| < |t.output| && t.output[|s.output|] == DropNotice(|s.batch| - 2)
  {
    hide LinesOf, FileLines;
    KeptAndDropped(s.batch);
    var kept := LinesOf(s.batch[..2]);
    LabelledLines(kept);
    FileConcat(s.output, Notice(s.batch));
    FileConcat(s.output + Notice(s.batch), Records(kept));
    NoticeIsNoLine(s.batch);
  }

  /** Once the writer has returned, nothing more is ever written or lost: what the front end
      holds then, and whatever is appended later, stays there. */
  lemma {:induction false} NothingAfterFinished(s: State, es: seq<Event>)
    requires s.pc.Finished?
    ensures var t := Run(s, es);
            t.pc.Finished? && t.output == s.output && t.fates == s.fates
    decreases |es|
  {
    hide Fits, Put;
    if es != [] {
      NothingAfterFinished(s, es[..|es| - 1]);
    }
  }

  /** The writer is about to take over all buffers of the front end. */
  predicate Collects(s: State) {
    s.pc.Waiting? || (s.pc.Entering? && s.buffers != [])
  }

  /** The lines shorter than a buffer that were appended since the writer last collected. */
  function SinceCollected(es: seq<Event>): seq<Line> {
    if es == [] then []
    else
      var front, e := es[..|es| - 1], es[|es| - 1];
      match e
      case Append(line) => SinceCollected(front) + if |line| < LARGE_BUFFER then [line] else []
      case Stop => SinceCollected(front)
      case Writer => if Collects(Run(Initial(), front)) then [] else SinceCollected(front)
  }

  function FrontLines(s: State): seq<Line> {
    LinesOf(s.buffers) + s.current.lines
  }

  lemma AppendFront(s: State, line: Line)
    requires FrontInv(s)
    ensures FrontLines(AppendStep(s, line)) == FrontLines(s) + if |line| < LARGE_BUFFER then [line] else []
  {
    hide LinesOf;
    LinesOfPush(s.buffers, s.current);
  }

  lemma WriterFront(s: State)
    requires WriterInv(s)
    ensures FrontLines(WriterStep(s)) == if Collects(s) then [] else FrontLines(s)
  {
    hide LinesOf, Kept, Dropped, Notice, Records, AllWritten, AllLost;
    LinesOfNone();
  }

  /** The front end holds exactly what was appended since the writer last collected. */
  lemma {:induction false} FrontIsSinceCollected(es: seq<Event>)
    ensures FrontLines(Run(Initial(), es)) == SinceCollected(es)
    decreases |es|
  {
    hide AppendStep, WriterStep, OwnerInv, AccountInv, FrontInv, WriterInv, Collects, FrontLines;
    if es == [] {
      NothingInFront();
    } else {
      var front, e := es[..|es| - 1], es[|es| - 1];
      FrontIsSinceCollected(front);
      RunKeeps(front);
      var s := Run(Initial(), front);
      match e
      case Append(line) => AppendFront(s, line);
      case Stop => SameFront(s);
      case Writer => WriterFront(s);
    }
  }

  lemma NothingInFront()
    ensures FrontLines(Initial()) == []
  {
  }

  lemma SameFront(s: State)
    ensures FrontLines(s.(running := false)) == FrontLines(s)
  {
  }

  /** When the writer has returned, the file holds every appended line if and only if none was lost
      on the way and none was appended since the writer last collected: it does not collect again
      when it stops. */
  lemma FinishedFileIff(es: seq<Event>)
    requires Run(Initial(), es).pc.Finished?
    ensures FileLines(Run(Initial(), es).output) == Appendable(es) <==> !RunLoses(es) && SinceCollected(es) == []
  {
    hide Run, Appendable, LinesOf, RunLoses, FileLines, WrittenLines, AnyLost, SinceCollected;
    LinesAccounted(es);
    LostIff(es);
    FrontIsSinceCollected(es);
    var s := Run(Initial(), es);
    WrittenIsFatedIff(s.fates);
    assert |Appendable(es)| == |s.fates| + |LinesOf(s.buffers)| + |s.current.lines|;
    assert |SinceCollected(es)| == |LinesOf(s.buffers)| + |s.current.lines|;
    assert Fated(s.fates) + [] + [] + [] == Fated(s.fates);
  }

  // ---------- The writer gets round to everything ----------

  function Repeat<T>(x: T, n: nat): seq<T> {
    seq(n, _ => x)
  }

  lemma RunSnoc(s: State, es: seq<Event>, e: Event)
    ensures Run(s, es + [e]) == Step(Run(s, es), e)
  {
    hide Step;
    assert (es + [e])[..|es + [e]| - 1] == es;
  }

  lemma {:induction false} WriterCompose(s: State, m: nat, n: nat)
    ensures Run(Run(s, Repeat(Writer, m)), Repeat(Writer, n)) == Run(s, Repeat(Writer, m + n))
    decreases n
  {
    hide Step;
    if n == 0 {
      assert Repeat(Writer, 0) == [];
    } else {
      WriterCompose(s, m, n - 1);
      assert Repeat(Writer, n) == Repeat(Writer, n - 1) + [Writer];
      assert Repeat(Writer, m + n) == Repeat(Writer, m + (n - 1)) + [Writer];
      RunSnoc(Run(s, Repeat(Writer, m)), Repeat(Writer, n - 1), Writer);
      RunSnoc(s, Repeat(Writer, m + (n - 1)), Writer);
    }
  }

  lemma WriterFirst(s: State, n: nat)
    ensures Run(WriterStep(s), Repeat(Writer, n)) == Run(s, Repeat(Writer, n + 1))
  {
    hide WriterStep;
    assert Repeat(Writer, 1) == [] + [Writer] && Repeat(Writer, 0) == [];
    RunSnoc(s, [], Writer);
    RunOfNone(s);
    WriterCompose(s, 1, n);
  }

  /** The step keeps the invariants, the stop flag and the account. */
  lemma WriterOn(s: State)
    requires Inv(s)
    ensures var t := WriterStep(s);
            Inv(t) && !t.pc.Crashed? && t.running == s.running && t.accepted == s.accepted
  {
    hide AccountInv, OwnerInv, Kept, Dropped, Notice, Records, AllWritten, AllLost, LinesOf;
    WriterKeeps(s);
  }

  /** Every accepted line has been written or lost. */
  ghost predicate AllSettled(s: State) {
    Fated(s.fates) == s.accepted
  }

  /** A batch taken over from the front end, written with the front end still empty. */
  lemma SettleBatch(s: State)
    requires Inv(s) && s.pc.HasBatch? && FrontLines(s) == []
    ensures AllSettled(WriterStep(s))
  {
    hide OwnerInv, LinesOf, Fated, WrittenLines, FileLines, WriterStep;
    WriterOn(s);
    WriterFront(s);
    WritesNext(s);
    var t := WriterStep(s);
    assert t.accepted == Fated(t.fates) + InHand(t) + LinesOf(t.buffers) + t.current.lines;
    assert LinesOf(t.buffers) == [] && t.current.lines == [];
    assert Fated(t.fates) + [] + [] + [] == Fated(t.fates);
  }

  lemma WritesNext(s: State)
    requires Inv(s) && s.pc.HasBatch?
    ensures WriterStep(s).pc.WroteBatch?
  {
    hide AccountInv, OwnerInv, Kept, Dropped, Notice, Records, AllWritten, AllLost, LinesOf;
  }

  lemma CollectsNext(s: State)
    requires Inv(s) && Collects(s)
    ensures var t := WriterStep(s); t.pc.HasBatch? && FrontLines(t) == []
  {
    hide AccountInv, OwnerInv, LinesOf;
    WriterFront(s);
  }

  lemma SettleFromCollecting(s: State) returns (n: nat)
    requires Inv(s) && Collects(s)
    ensures AllSettled(Run(s, Repeat(Writer, n))) && Run(s, Repeat(Writer, n)).accepted == s.accepted
  {
    hide *;
    var t := WriterStep(s);
    CollectsNext(s);
    WriterOn(s);
    SettleBatch(t);
    WriterOn(t);
    NoWriterSteps(WriterStep(t));
    WriterFirst(t, 0);
    WriterFirst(s, 1);
    n := 2;
  }

  lemma NoWriterSteps(s: State)
    ensures Run(s, Repeat(Writer, 0)) == s
  {
    assert Repeat(Writer, 0) == [];
  }

  lemma EntersNext(s: State)
    requires Inv(s)
    ensures s.pc.AtHead? && s.running ==> WriterStep(s).pc.Entering?
    ensures s.pc.AtHead? && !s.running ==> WriterStep(s).pc.Finished?
    ensures s.pc.Entering? && !Collects(s) ==> WriterStep(s).pc.Waiting?
  {
    hide AccountInv, OwnerInv, LinesOf;
  }

  lemma RecyclesNext(s: State)
    requires Inv(s) && s.pc.WroteBatch?
    ensures WriterStep(s).pc.AtHead?
  {
    hide AccountInv, OwnerInv, LinesOf;
  }

  /** How far the writer is from collecting, while it is running. */
  function ToCollecting(pc: Pc): nat {
    match pc
    case HasBatch => 4
    case WroteBatch => 3
    case AtHead => 2
    case Entering => 1
    case _ => 0
  }

  lemma {:induction false} Settle(s: State) returns (n: nat)
    requires Inv(s) && s.running && !s.pc.Finished?
    ensures AllSettled(Run(s, Repeat(Writer, n))) && Run(s, Repeat(Writer, n)).accepted == s.accepted
    decreases ToCollecting(s.pc)
  {
    hide AllSettled, Inv, WriterStep, Run, Repeat, Collects;
    if Collects(s) {
      n := SettleFromCollecting(s);
    } else {
      NotCollecting(s);
      WriterOn(s);
      n := Settle(WriterStep(s));
      WriterFirst(s, n);
      n := n + 1;
    }
  }

  /** A running writer that is not about to collect gets nearer to it. */
  lemma NotCollecting(s: State)
    requires Inv(s) && s.running && !s.pc.Finished? && !Collects(s)
    ensures ToCollecting(WriterStep(s).pc) < ToCollecting(s.pc)
    ensures !WriterStep(s).pc.Finished?
  {
    hide AccountInv, OwnerInv, LinesOf, WriterStep;
    EntersNext(s);
    if s.pc.HasBatch? { WritesNext(s); }
    if s.pc.WroteBatch? { RecyclesNext(s); }
  }

  /** running_ is cleared by stop alone, and only then does the writer return. */
  lemma {:induction false} RunningIff(es: seq<Event>)
    ensures var s := Run(Initial(), es);
            && (s.running <==> forall i :: 0 <= i < |es| ==> !es[i].Stop?)
            && (s.pc.Finished? ==> !s.running)
    decreases |es|
  {
    hide AppendStep, WriterStep, Inv;
    if es != [] {
      var front, e := es[..|es| - 1], es[|es| - 1];
      RunningIff(front);
      RunKeeps(front);
      var s := Run(Initial(), front);
      match e
      case Append(line) => AppendLeavesWriter(s, line);
      case Stop => assert es[|es| - 1].Stop?;
      case Writer =>
        WriterOn(s);
        FinishesOnlyStopped(s);
    }
  }

  lemma AppendLeavesWriter(s: State, line: Line)
    ensures AppendStep(s, line).running == s.running && AppendStep(s, line).pc == s.pc
  {
    hide Fits, Put;
  }

  lemma FinishesOnlyStopped(s: State)
    requires s.pc.Finished? ==> !s.running
    ensures WriterStep(s).pc.Finished? ==> !s.running
  {
    hide Kept, Dropped, Notice, Records, AllWritten, AllLost, LinesOf;
  }

  /** Until stop is called, whatever the writer was doing: after a few more of its steps every line
      appended so far has been written or lost. */
  lemma EveryLineGetsSettled(es: seq<Event>) returns (n: nat)
    requires forall i :: 0 <= i < |es| ==> !es[i].Stop?
    ensures Fated(Run(Run(Initial(), es), Repeat(Writer, n)).fates) == Appendable(es)
  {
    hide Run, Appendable, Repeat, Inv, Fated;
    RunKeeps(es);
    RunningIff(es);
    AcceptsExactlyTheShort(es);
    n := Settle(Run(Initial(), es));
  }

  function ToFinish(pc: Pc): nat {
    match pc
    case Entering => 5
    case Waiting => 4
    case HasBatch => 3
    case WroteBatch => 2
    case AtHead => 1
    case _ => 0
  }

  lemma NearsFinish(s: State)
    requires Inv(s) && !s.running && !s.pc.Finished?
    ensures ToFinish(WriterStep(s).pc) < ToFinish(s.pc)
  {
    hide AccountInv, OwnerInv, LinesOf, WriterStep, Collects;
    EntersNext(s);
    if s.pc.HasBatch? { WritesNext(s); }
    if s.pc.WroteBatch? { RecyclesNext(s); }
    if Collects(s) { CollectsNext(s); }
    WaitingCollects(s);
  }

  lemma WaitingCollects(s: State)
    ensures s.pc.Waiting? ==> Collects(s)
    ensures Collects(s) ==> s.pc.Waiting? || s.pc.Entering?
  {
  }

  lemma {:induction false} Finish(s: State) returns (n: nat)
    requires Inv(s) && !s.running
    ensures Run(s, Repeat(Writer, n)).pc.Finished?
    decreases ToFinish(s.pc)
  {
    hide Inv, WriterStep, Run, Repeat;
    if s.pc.Finished? {
      n := 0;
      NoWriterSteps(s);
    } else {
      NearsFinish(s);
      WriterOn(s);
      n := Finish(WriterStep(s));
      WriterFirst(s, n);
      n := n + 1;
    }
  }

  /** Once stop has been called the writer returns after a few of its own steps. */
  lemma StopFinishes(es: seq<Event>) returns (n: nat)
    requires exists i :: 0 <= i < |es| && es[i].Stop?
    ensures Run(Run(Initial(), es), Repeat(Writer, n)).pc.Finished?
  {
    hide Run, Repeat, Inv;
    RunKeeps(es);
    RunningIff(es);
    n := Finish(Run(Initial(), es));
  }

  // ---------- Buffers are filled before they are handed over ----------

  ghost predicate AllShort(es: seq<Event>) {
    forall i :: 0 <= i < |es| && es[i].Append? ==> |es[i].line| < LARGE_BUFFER
  }

  /** Each buffer was left because the first line of the next did not fit behind it. */
  ghost predicate Packed(bs: seq<LogBuffer>) {
    forall i :: 0 < i < |bs| ==> bs[i].lines != [] && Length(bs[i - 1]) + |bs[i].lines[0]| >= LARGE_BUFFER
  }

  ghost predicate PackInv(s: State) {
    Packed(s.buffers + [s.current]) && (s.pc.HasBatch? ==> Packed(s.batch))
  }

  lemma PutStaysPacked(bs: seq<LogBuffer>, b: LogBuffer, line: Line)
    requires Packed(bs + [b])
    ensures bs == [] || b.lines != [] ==> Packed(bs + [b.(lines := b.lines + [line])])
    ensures b.lines == [] ==> bs == []
  {
    var x, y := bs + [b], bs + [b.(lines := b.lines + [line])];
    assert bs != [] ==> x[|bs|] == b;
    assert forall i :: 0 <= i < |bs| ==> x[i] == bs[i] && y[i] == bs[i];
  }

  lemma PushStaysPacked(bs: seq<LogBuffer>, b: LogBuffer)
    requires Packed(bs)
    requires bs != [] ==> b.lines != [] && Length(bs[|bs| - 1]) + |b.lines[0]| >= LARGE_BUFFER
    ensures Packed(bs + [b])
  {
    assert forall i :: 0 <= i < |bs| ==> (bs + [b])[i] == bs[i];
  }

  lemma AppendPacks(s: State, line: Line)
    requires FrontInv(s) && PackInv(s) && |line| < LARGE_BUFFER
    ensures PackInv(AppendStep(s, line))
  {
    hide Packed, Length;
    EmptyHasRoom();
    if Fits(s.current, line) {
      PutStaysPacked(s.buffers, s.current, line);
    } else {
      var t := AppendStep(s, line);
      assert t.current.lines == [] + [line];
      PushStaysPacked(s.buffers + [s.current], t.current);
    }
  }

  lemma EmptyHasRoom()
    ensures forall b: LogBuffer :: b.lines == [] ==> Length(b) == 0
  {
  }

  lemma WriterPacks(s: State)
    requires PackInv(s)
    ensures PackInv(WriterStep(s))
  {
    hide Kept, Dropped, Notice, Records, AllWritten, AllLost, LinesOf, Length, Packed;
    OneIsPacked(WriterStep(s).current);
  }

  lemma {:induction false} RunPacks(es: seq<Event>)
    requires AllShort(es)
    ensures PackInv(Run(Initial(), es))
    decreases |es|
  {
    hide AppendStep, WriterStep, WriterInv, OwnerInv, AccountInv, Packed;
    if es == [] {
      OneIsPacked(Initial().current);
    } else {
      var front, e := es[..|es| - 1], es[|es| - 1];
      RunPacks(front);
      RunKeeps(front);
      var s := Run(Initial(), front);
      match e
      case Append(line) => AppendPacks(s, line);
      case Stop =>
      case Writer => WriterPacks(s);
    }
  }

  lemma OneIsPacked(b: LogBuffer)
    ensures Packed([] + [b])
  {
  }

  lemma {:induction false} BytesConcat(a: seq<Line>, b: seq<Line>)
    ensures |Bytes(a + b)| == |Bytes(a)| + |Bytes(b)|
    decreases |b|
  {
    if b == [] {
      assert a + b == a;
    } else {
      var front := b[..|b| - 1];
      BytesConcat(a, front);
      assert (a + b)[..|a + b| - 1] == a + front && (a + b)[|a + b| - 1] == b[|b| - 1];
    }
  }

  lemma FirstLineCounts(b: LogBuffer)
    requires b.lines != []
    ensures Length(b) >= |b.lines[0]|
  {
    assert b.lines == b.lines[..1] + b.lines[1..];
    BytesConcat(b.lines[..1], b.lines[1..]);
    assert b.lines[..1][..0] == [];
    assert |Bytes(b.lines[..1])| == |b.lines[0]|;
  }

  lemma LastTwo(bs: seq<LogBuffer>)
    requires |bs| >= 2
    ensures |Bytes(LinesOf(bs))| ==
            |Bytes(LinesOf(bs[..|bs| - 2]))| + Length(bs[|bs| - 2]) + Length(bs[|bs| - 1])
  {
    hide Bytes;
    var n := |bs|;
    assert bs[..n - 1][..n - 2] == bs[..n - 2];
    BytesConcat(LinesOf(bs[..n - 1]), bs[n - 1].lines);
    BytesConcat(LinesOf(bs[..n - 2]), bs[n - 2].lines);
  }

  /** Any two neighbours hold a buffer's worth of bytes between them. */
  lemma {:induction false} PairsFill(bs: seq<LogBuffer>, k: nat)
    requires Packed(bs) && |bs| >= 2 * k
    ensures |Bytes(LinesOf(bs))| >= k * LARGE_BUFFER
    decreases k
  {
    hide Bytes, LinesOf, Length;
    if k > 0 {
      var n := |bs|;
      PairsFill(bs[..n - 2], k - 1);
      LastTwo(bs);
      FirstLineCounts(bs[n - 1]);
    }
  }

  /** When all lines are shorter than a buffer, each buffer was handed over because the next line did
      not fit behind it; in particular no buffer is handed over while less than a buffer's worth of
      bytes has been appended since the writer last collected. */
  lemma BuffersAreFilled(es: seq<Event>)
    requires AllShort(es)
    ensures var s := Run(Initial(), es);
            && Packed(s.buffers + [s.current]) && (s.pc.HasBatch? ==> Packed(s.batch))
            && (|Bytes(SinceCollected(es))| < LARGE_BUFFER ==> s.buffers == [])
  {
    hide Run, Bytes, LinesOf, Packed, SinceCollected;
    RunPacks(es);
    FrontIsSinceCollected(es);
    var s := Run(Initial(), es);
    var front := s.buffers + [s.current];
    LinesOfPush(s.buffers, s.current);
    if s.buffers != [] { PairsFill(front, 1); }
  }

  lemma {:induction false} AppendableGrows(es: seq<Event>, k: nat)
    requires k <= |es|
    ensures |Bytes(Appendable(es[..k]))| <= |Bytes(Appendable(es))|
    decreases |es|
  {
    if k == |es| {
      assert es[..k] == es;
    } else {
      hide Bytes;
      var front, e := es[..|es| - 1], es[|es| - 1];
      AppendableGrows(front, k);
      assert front[..k] == es[..k];
      BytesConcat(Appendable(front), if e.Append? && |e.line| < LARGE_BUFFER then [e.line] else []);
    }
  }

  /** When all lines are shorter than a buffer, lines are lost only after at least thirteen buffers'
      worth of bytes has been appended. */
  lemma LossNeedsBytes(es: seq<Event>)
    requires AllShort(es) && RunLoses(es)
    ensures |Bytes(Appendable(es))| >= 13 * LARGE_BUFFER
  {
    hide Run, Bytes, LinesOf, Packed, Appendable, Fated;
    var k :| 0 <= k < |es| && Loses(Run(Initial(), es[..k]), es[k]);
    var s := Run(Initial(), es[..k]);
    RunPacks(es[..k]);
    PairsFill(s.batch, 13);
    LinesAccounted(es[..k]);
    var front := LinesOf(s.buffers) + s.current.lines;
    assert Appendable(es[..k]) == Fated(s.fates) + (LinesOf(s.batch) + front);
    BytesConcat(Fated(s.fates), LinesOf(s.batch) + front);
    BytesConcat(LinesOf(s.batch), front);
    AppendableGrows(es, k);
  }

  /** In every run append hands the current buffer over exactly when the line does not fit behind its
      bytes; a line as long as a buffer leaves the new one empty. */
  lemma HandsOverIff(es: seq<Event>, line: Line)
    ensures var s, t := Run(Initial(), es), Run(Initial(), es + [Append(line)]);
            if |Bytes(s.current.lines)| + |line| < LARGE_BUFFER then
              t.buffers == s.buffers && t.current.lines == s.current.lines + [line]
            else
              && t.buffers == s.buffers + [s.current]
              && t.current.lines == if |line| < LARGE_BUFFER then [line] else []
  {
    hide Run, WriterInv, OwnerInv, AccountInv, Bytes;
    RunSnoc(Initial(), es, Append(line));
    RunKeeps(es);
    EmptyHasRoom();
    var s := Run(Initial(), es);
    assert Length(s.current) == |Bytes(s.current.lines)|;
  }

  // ---------- How many buffers there are ----------

  /** A second buffer has to be handed over before the writer collects. */
  ghost predicate Allocates(s: State, e: Event) {
    e.Append? && !Fits(s.current, e.line) && s.buffers != []
  }

  ghost predicate SpareIff(s: State) {
    s.next.None? <==> s.buffers != []
  }

  lemma StepAllocates(s: State, e: Event)
    requires Inv(s) && SpareIff(s)
    ensures var t := Step(s, e);
            && SpareIff(t)
            && t.freshId == s.freshId + (if Allocates(s, e) then 1 else 0)
            && (Allocates(s, e) ==> |t.buffers| > 1)
            && (!Allocates(s, e) ==> |t.buffers| <= 1 || t.buffers == s.buffers)
  {
    hide AccountInv, OwnerInv, FrontInv, Fits, Put, Kept, Dropped, Notice, Records, AllWritten, AllLost, LinesOf,
         FirstTwo, Last, Ready;
  }

  lemma {:induction false} RunSpare(es: seq<Event>)
    ensures SpareIff(Run(Initial(), es)) && Run(Initial(), es).freshId >= 4
    decreases |es|
  {
    hide Step, Inv, Allocates;
    if es != [] {
      RunSpare(es[..|es| - 1]);
      RunKeeps(es[..|es| - 1]);
      StepAllocates(Run(Initial(), es[..|es| - 1]), es[|es| - 1]);
    }
  }

  /** The four buffers there are at the start suffice, all others being recycled, if and only if never
      more than one full buffer waits for the writer. */
  lemma {:induction false} FourBuffersIff(es: seq<Event>)
    ensures Run(Initial(), es).freshId == 4 <==>
            forall k :: 0 <= k <= |es| ==> |Run(Initial(), es[..k]).buffers| <= 1
    decreases |es|
  {
    hide Step, Inv, Allocates, SpareIff;
    assert es[..|es|] == es;
    if es == [] {
      assert forall k :: 0 <= k <= |es| ==> es[..k] == [];
    } else {
      var n := |es| - 1;
      var front := es[..n];
      FourBuffersIff(front);
      RunSpare(front);
      RunKeeps(front);
      StepAllocates(Run(Initial(), front), es[n]);
      assert forall k :: 0 <= k <= n ==> front[..k] == es[..k];
      assert front[..n] == front;
    }
  }

  // ---------- Runs that lose lines ----------

  /** A line that fills a buffer by itself. */
  function FullLine(c: char): Line {
    seq(LARGE_BUFFER - 1, _ => c)
  }

  ghost predicate AllHold(bs: seq<LogBuffer>, x: Line) {
    forall i :: 0 <= i < |bs| ==> bs[i].lines == [x]
  }

  lemma {:induction false} LinesOfAllHold(bs: seq<LogBuffer>, x: Line)
    requires AllHold(bs, x)
    ensures LinesOf(bs) == Repeat(x, |bs|)
    decreases |bs|
  {
    if bs != [] { LinesOfAllHold(bs[..|bs| - 1], x); }
  }

  lemma FullLineFits(b: LogBuffer, c: char)
    ensures b.lines == [] ==> Fits(b, FullLine(c))
    ensures b.lines == [FullLine(c)] ==> !Fits(b, FullLine(c))
  {
    BytesPush([], FullLine(c));
    assert [] + [FullLine(c)] == [FullLine(c)];
  }

  /** The state after n + 1 such lines: n full buffers and a full current one. */
  ghost predicate Filled(s: State, x: Line, n: nat) {
    && s.pc == AtHead && s.running && s.fates == [] && s.output == []
    && |s.buffers| == n && AllHold(s.buffers, x) && s.current.lines == [x]
  }

  lemma FillOneMore(s: State, c: char, n: nat)
    requires FrontInv(s) && Filled(s, FullLine(c), n)
    ensures Filled(AppendStep(s, FullLine(c)), FullLine(c), n + 1)
  {
    hide Fits, FullLine;
    var x := FullLine(c);
    var t := HandOver(s);
    FullLineFits(s.current, c);
    FullLineFits(t.current, c);
    assert t.current.lines == [] && t.buffers == s.buffers + [s.current];
    assert AppendStep(s, x).current.lines == [] + [x];
  }

  lemma {:induction false} FillBuffers(c: char, n: nat)
    ensures Filled(Run(Initial(), Repeat(Append(FullLine(c)), n + 1)), FullLine(c), n)
    decreases n
  {
    hide Fits, FullLine, Run, WriterInv, OwnerInv, AccountInv, FrontInv;
    var e := Append(FullLine(c));
    var before := Repeat(e, n);
    assert Repeat(e, n + 1) == before + [e];
    RunSnoc(Initial(), before, e);
    if n == 0 {
      assert before == [];
      RunOfNone(Initial());
      FullLineFits(Initial().current, c);
      assert [] + [FullLine(c)] == [FullLine(c)];
    } else {
      hide AppendStep, Filled;
      FillBuffers(c, n - 1);
      RunKeeps(before);
      FillOneMore(Run(Initial(), before), c, n - 1);
    }
  }

  lemma RunOfNone(s: State)
    ensures Run(s, []) == s
  {
  }

  /** n lines each the size of a buffer, appended before the writer gets to run, with n > 25: two
      reach the file and n - 2 are lost. */
  lemma BurstLosesLines(c: char, n: nat)
    requires n > 25
    ensures var s := Run(Initial(), Repeat(Append(FullLine(c)), n) + [Writer] + [Writer] + [Writer]);
            && s.fates == AllWritten(Repeat(FullLine(c), 2)) + AllLost(Repeat(FullLine(c), n - 2))
            && FileLines(s.output) == Repeat(FullLine(c), 2)
  {
    hide FullLine, Run, FileLines, LinesOf, OwnerInv, AccountInv, Length, AllWritten, AllLost;
    var x := FullLine(c);
    var es := Repeat(Append(x), n);
    FillBuffers(c, n - 1);
    RunKeeps(es);
    var s := Run(Initial(), es);
    RunSnoc(Initial(), es, Writer);
    RunSnoc(Initial(), es + [Writer], Writer);
    RunSnoc(Initial(), es + [Writer] + [Writer], Writer);
    BlankIsReady(s.new1.value);
    BlankIsReady(s.new2.value);
    var t := Step(Step(s, Writer), Writer);
    assert t.pc == HasBatch && t.batch == s.buffers + [s.current] && t.fates == [] && t.output == [];
    assert AllHold(t.batch, x) && |t.batch| == n;
    LinesOfAllHold(t.batch[..2], x);
    LinesOfAllHold(t.batch[2..], x);
    SettleOversized(t);
    NoLinesInFile();
    assert [] + AllWritten(Repeat(x, 2)) == AllWritten(Repeat(x, 2)) && [] + Repeat(x, 2) == Repeat(x, 2);
  }

  lemma NoLinesInFile()
    ensures FileLines([]) == []
  {
  }

  /** A line appended before stop that the writer never comes round to: it stays out of the file. */
  lemma StopLeavesLineBehind(x: Line, later: seq<Event>)
    requires |x| < LARGE_BUFFER
    ensures var s := Run(Initial(), [Append(x), Stop, Writer]);
            && s.pc.Finished? && s.current.lines == [x]
            && Run(s, later).output == []
  {
    var es := [Append(x), Stop, Writer];
    assert es == [] + [Append(x)] + [Stop] + [Writer];
    RunSnoc(Initial(), [], Append(x));
    RunSnoc(Initial(), [] + [Append(x)], Stop);
    RunSnoc(Initial(), [] + [Append(x)] + [Stop], Writer);
    assert Run(Initial(), []) == Initial() && Fits(Initial().current, x);
    var s := Run(Initial(), es);
    assert s.current.lines == [] + [x];
    NothingAfterFinished(s, later);
  }

  // ---------- The object whose steps these are ----------

  class AsyncLogger {
    var running: bool
    var currentBuffer: LogBuffer
    var nextBuffer: Option<LogBuffer>
    var buffers: seq<LogBuffer>
    // The locals of threadFunc.
    var newBuffer1: Option<LogBuffer>
    var newBuffer2: Option<LogBuffer>
    var buffersToWrite: seq<LogBuffer>
    var output: seq<Record>
    var allocations: nat
    ghost var pc: Pc
    ghost var fates: seq<Fate>
    ghost var accepted: seq<Line>

    ghost function Model(): State
      reads this
    {
      State(running, pc, currentBuffer, nextBuffer, buffers, newBuffer1, newBuffer2,
            buffersToWrite, output, fates, accepted, allocations)
    }

    constructor ()
      ensures Model() == Initial()
    {
      running, pc := true, AtHead;
      currentBuffer, nextBuffer, buffers := LogBuffer(0, []), Some(LogBuffer(1, [])), [];
      newBuffer1, newBuffer2, buffersToWrite := Some(LogBuffer(2, [])), Some(LogBuffer(3, [])), [];
      output, fates, accepted, allocations := [], [], [], 4;
    }

    method AppendLine(logline: Line)
      requires Inv(Model())
      modifies this
      ensures Inv(Model()) && Model() == Step(old(Model()), Append(logline))
    {
      hide Length, Inv;
      StepKeeps(Model(), Append(logline));
      if LARGE_BUFFER - Length(currentBuffer) > |logline| {
        currentBuffer := Put(currentBuffer, logline);
        accepted := accepted + [logline];
      } else {
        buffers := buffers + [currentBuffer];
        if nextBuffer.Some? {
          currentBuffer := nextBuffer.value;
          nextBuffer := None;
        } else {
          currentBuffer := LogBuffer(allocations, []);
          allocations := allocations + 1;
        }
        if Fits(currentBuffer, logline) { accepted := accepted + [logline]; }
        currentBuffer := Put(currentBuffer, logline);
      }
    }

    method StopLogging()
      requires Inv(Model())
      modifies this`running
      ensures Inv(Model()) && Model() == Step(old(Model()), Stop)
    {
      hide Inv;
      StepKeeps(Model(), Stop);
      running := false;
    }

    /** The loop condition and the asserts below it. */
    method LoopHead() returns (continues: bool)
      requires Inv(Model()) && pc.AtHead?
      modifies this`pc
      ensures Inv(Model()) && Model() == Step(old(Model()), Writer) && continues == pc.Entering?
    {
      hide OwnerInv, AccountInv;
      StepKeeps(Model(), Writer);
      if !running {
        pc := Finished;
        return false;
      }
      BlankIsReady(newBuffer1.value);
      BlankIsReady(newBuffer2.value);
      assert newBuffer1.Some? && Length(newBuffer1.value) == 0;
      assert newBuffer2.Some? && Length(newBuffer2.value) == 0;
      assert buffersToWrite == [];
      pc := Entering;
      return true;
    }

    /** Taking the lock: the writer waits if there is nothing to collect. */
    method Enter() returns (waits: bool)
      requires Inv(Model()) && pc.Entering?
      modifies this
      ensures Inv(Model()) && Model() == Step(old(Model()), Writer) && waits == pc.Waiting?
    {
      hide OwnerInv, AccountInv;
      StepKeeps(Model(), Writer);
      if buffers == [] {
        pc := Waiting;
        return true;
      }
      Swap();
      return false;
    }

    method Swap()
      requires Inv(Model()) && (pc.Waiting? || (pc.Entering? && buffers != []))
      modifies this
      ensures Inv(Model()) && Model() == Step(old(Model()), Writer) && pc.HasBatch?
    {
      hide OwnerInv, AccountInv, RecycleStep, WriteStep;
      StepKeeps(Model(), Writer);
      buffers := buffers + [currentBuffer];
      currentBuffer, newBuffer1 := newBuffer1.value, None;
      buffersToWrite, buffers := buffers, buffersToWrite;
      if nextBuffer.None? {
        nextBuffer, newBuffer2 := newBuffer2, None;
      }
      assert buffersToWrite != [];
      pc := HasBatch;
    }

    /** The drop of an oversized batch, the write loop and the resize. */
    method WriteOut()
      requires Inv(Model()) && pc.HasBatch?
      modifies this
      ensures Inv(Model()) && Model() == Step(old(Model()), Writer)
    {
      hide OwnerInv, AccountInv, LinesOf, Records;
      StepKeeps(Model(), Writer);
      ghost var batch := buffersToWrite;
      ghost var start := output;
      if |buffersToWrite| > MAX_BATCH {
        output := output + [DropNotice(|buffersToWrite| - 2)];
        buffersToWrite := buffersToWrite[..2];
      }
      assert buffersToWrite == Kept(batch) && output == start + Notice(batch);
      WriteAll();
      fates := fates + AllWritten(LinesOf(Kept(batch))) + AllLost(LinesOf(Dropped(batch)));
      if |buffersToWrite| > 2 {
        buffersToWrite := buffersToWrite[..2];
      }
      pc := WroteBatch;
    }

    method WriteAll()
      modifies this`output
      ensures output == old(output) + Records(LinesOf(buffersToWrite))
    {
      hide LinesOf, Records;
      RecordsNone();
      for i := 0 to |buffersToWrite|
        invariant output == old(output) + Records(LinesOf(buffersToWrite[..i]))
      {
        RecordsPush(buffersToWrite[..i], buffersToWrite[i]);
        assert buffersToWrite[..i + 1] == buffersToWrite[..i] + [buffersToWrite[i]];
        output := output + Records(buffersToWrite[i].lines);
      }
      assert buffersToWrite[..|buffersToWrite|] == buffersToWrite;
    }

    method Recycle()
      requires Inv(Model()) && pc.WroteBatch?
      modifies this
      ensures Inv(Model()) && Model() == Step(old(Model()), Writer) && pc.AtHead?
    {
      hide OwnerInv, AccountInv;
      StepKeeps(Model(), Writer);
      if newBuffer1.None? {
        assert buffersToWrite != [];
        newBuffer1 := Some(Last(buffersToWrite));
        buffersToWrite := buffersToWrite[..|buffersToWrite| - 1];
      }
      if newBuffer2.None? {
        assert buffersToWrite != [];
        newBuffer2 := Some(Last(buffersToWrite));
        buffersToWrite := buffersToWrite[..|buffersToWrite| - 1];
      }
      buffersToWrite := [];
      pc := AtHead;
    }
  }

  lemma RecordsNone()
    ensures Records(LinesOf([])) == []
  {
  }

  lemma RecordsPush(bs: seq<LogBuffer>, b: LogBuffer)
    ensures Records(LinesOf(bs + [b])) == Records(LinesOf(bs)) + Records(b.lines)
  {
    hide LinesOf;
    LinesOfPush(bs, b);
  }
}
