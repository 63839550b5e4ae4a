/** The bounded pipe between two COPY commands: a source goroutine, an unbuffered pipe, a hash and a target. */
module BinaryCopy {
  import opened Basics

  type Byte = x: int | 0 <= x < 256

  /** What an endpoint returns: its row count, and whether it returned an error. */
  datatype Report = Report(rows: int, err: bool)

  datatype SourcePc =
    | Producing(failed: bool)
    // A write in progress: `sent` bytes were taken, and `taken` says whether any read met it.
    | Offering(chunk: seq<Byte>, sent: nat, taken: bool)
    | SourceHung
    | ClosingWriter(report: Report)
    | Sending(report: Report)
    | SourceDone

  datatype TargetPc =
    | Consuming(ended: bool)
    | Reading(capacity: nat)
    | TargetHung
    | Cancelling(report: Report)
    | ClosingReader(report: Report)
    | Waiting(report: Report)
    | Finished(outcome: Outcome)

  /** `digested` is the text whose SHA-256 the evidence carries. */
  datatype Outcome = Evidence(rows: int, digested: seq<Byte>) | SourceFailed | TargetFailed | RowsDiffer

  /** The history variables `written`, `cut` and `faults` record what the source offered, the part
      of a write that was taken before the pipe closed under it, and how many writes failed. */
  datatype State = State(
    source: SourcePc, target: TargetPc, cancelled: bool, writerClosed: bool, readerClosed: bool,
    channel: Option<Report>, consumed: seq<Byte>, hashed: seq<Byte>, written: seq<Byte>, cut: seq<Byte>, faults: nat)

  const START := State(Producing(false), Consuming(false), false, false, false, None, [], [], [], [], 0)

  datatype Event =
    | SourceWrites(chunk: seq<Byte>)
    | Transfer
    | WriteFails
    | SourceHangs
    | SourceReturns(source: Report)
    | WriterCloses
    | SourceSends
    | TargetReads(capacity: nat)
    | ReadEnds
    | TargetHangs
    | TargetReturns(target: Report)
    | Cancels
    | ReaderCloses
    | Receives
    | ParentCancels

  /** An endpoint may do anything between its calls; a hung one only notices cancellation. */
  predicate Enabled(s: State, e: Event) {
    match e
    case SourceWrites(_) => s.source.Producing?
    case Transfer => s.source.Offering? && s.source.sent <= |s.source.chunk| && s.target.Reading?
    case WriteFails => s.source.Offering? && s.source.sent <= |s.source.chunk| && (s.readerClosed || s.writerClosed)
    case SourceHangs => s.source.Producing?
    case SourceReturns(report) => s.source.Producing? || (s.source.SourceHung? && s.cancelled && report.err)
    case WriterCloses => s.source.ClosingWriter?
    case SourceSends => s.source.Sending? && s.channel.None?
    case TargetReads(_) => s.target.Consuming?
    case ReadEnds => s.target.Reading? && (s.readerClosed || s.writerClosed)
    case TargetHangs => s.target.Consuming?
    case TargetReturns(report) => s.target.Consuming? || (s.target.TargetHung? && s.cancelled && report.err)
    case Cancels => s.target.Cancelling?
    case ReaderCloses => s.target.ClosingReader?
    case Receives => s.target.Waiting? && s.channel.Some?
    case ParentCancels => !s.cancelled
  }

  function Min(a: nat, b: nat): nat { if a <= b then a else b }

  /** The writer hands over what fits; once the chunk is used up the hash takes all of it. */
  function Transferred(s: State): State
    requires Enabled(s, Transfer)
  {
    var chunk, sent := s.source.chunk, s.source.sent;
    var n := Min(s.target.capacity, |chunk| - sent);
    var s' := s.(target := Consuming(false), consumed := s.consumed + chunk[sent..sent + n]);
    if sent + n == |chunk| then s'.(source := Producing(false), hashed := s.hashed + chunk)
    else s'.(source := Offering(chunk, sent + n, true))
  }

  function Judge(source: Report, target: Report, hashed: seq<Byte>): Outcome {
    if source.err then SourceFailed
    else if target.err then TargetFailed
    else if source.rows < 0 || target.rows < 0 || source.rows != target.rows then RowsDiffer
    else Evidence(target.rows, hashed)
  }

  function Next(s: State, e: Event): State
    requires Enabled(s, e)
  {
    match e
    case SourceWrites(chunk) => s.(source := Offering(chunk, 0, false), written := s.written + chunk)
    case Transfer => Transferred(s)
    case WriteFails =>
      s.(source := Producing(true), cut := s.cut + s.source.chunk[..s.source.sent], faults := s.faults + 1)
    case SourceHangs => s.(source := SourceHung)
    case SourceReturns(report) => s.(source := ClosingWriter(report))
    case WriterCloses => s.(source := Sending(s.source.report), writerClosed := true)
    case SourceSends => s.(source := SourceDone, channel := Some(s.source.report))
    case TargetReads(capacity) => s.(target := Reading(capacity))
    case ReadEnds => s.(target := Consuming(true))
    case TargetHangs => s.(target := TargetHung)
    case TargetReturns(report) => s.(target := if report.err then Cancelling(report) else ClosingReader(report))
    case Cancels => s.(target := ClosingReader(s.target.report), cancelled := true)
    case ReaderCloses => s.(target := Waiting(s.target.report), readerClosed := true)
    case Receives => s.(target := Finished(Judge(s.channel.value, s.target.report, s.hashed)), cancelled := true)
    case ParentCancels => s.(cancelled := true)
  }

  /** The events can happen one after the other. */
  ghost predicate Possible(s: State, events: seq<Event>)
    decreases |events|
  {
    events != [] ==> Enabled(s, events[0]) && Possible(Next(s, events[0]), events[1..])
  }

  ghost function Exec(s: State, events: seq<Event>): State
    requires Possible(s, events)
    decreases |events|
  {
    if events == [] then s else Exec(Next(s, events[0]), events[1..])
  }

  // ----- what every schedule keeps, whatever the endpoints do -----

  predicate AtWork(target: TargetPc) {
    target.Consuming? || target.Reading? || target.TargetHung? || target.Cancelling? || target.ClosingReader?
  }

  predicate Stopped(source: SourcePc) { source.Sending? || source.SourceDone? }

  /** The bytes of the write in progress that the target already has. */
  function InFlight(s: State): seq<Byte> {
    if s.source.Offering? && s.source.sent <= |s.source.chunk| then s.source.chunk[..s.source.sent] else []
  }

  ghost predicate Bytes(s: State) {
    && (s.source.Offering? ==> s.source.sent <= |s.source.chunk|)
    && s.consumed == s.hashed + s.cut + InFlight(s)
    && (s.cut != [] ==> s.readerClosed && InFlight(s) == [])
    && (s.faults == 0 ==> s.cut == [])
    && (s.faults == 0 ==> s.written == s.hashed + (if s.source.Offering? then s.source.chunk else []))
    && (s.faults > 0 ==> s.readerClosed)
  }

  ghost predicate Ends(s: State) {
    && s.writerClosed == Stopped(s.source)
    && s.readerClosed == !AtWork(s.target)
    && s.channel.Some? == s.source.SourceDone?
    && (s.target.Finished? ==> s.source.SourceDone? && s.cancelled)
    && ((s.target.ClosingReader? || s.target.Waiting?) && s.target.report.err ==> s.cancelled)
    && (s.target.Finished? && s.target.outcome.Evidence? ==>
          && !s.channel.value.err
          && 0 <= s.channel.value.rows == s.target.outcome.rows
          && s.target.outcome.digested == s.hashed)
  }

  ghost predicate Inv(s: State) { Bytes(s) && Ends(s) }

  lemma TakenBytes(consumed: seq<Byte>, hashed: seq<Byte>, chunk: seq<Byte>, sent: nat, n: nat)
    requires sent + n <= |chunk| && consumed == hashed + chunk[..sent]
    ensures consumed + chunk[sent..sent + n] == hashed + chunk[..sent + n]
    ensures sent + n == |chunk| ==> chunk[..sent + n] == chunk
  {
  }

  lemma TransferKeepsBytes(s: State)
    requires Bytes(s) && !s.readerClosed && Enabled(s, Transfer)
    ensures Bytes(Transferred(s))
  {
    var n := Min(s.target.capacity, |s.source.chunk| - s.source.sent);
    assert s.cut == [] && s.faults == 0;
    assert s.hashed + [] == s.hashed;
    TakenBytes(s.consumed, s.hashed, s.source.chunk, s.source.sent, n);
  }

  lemma SourceKeepsBytes(s: State, e: Event)
    requires Bytes(s) && Ends(s) && Enabled(s, e)
    requires e.SourceWrites? || e.WriteFails? || e.SourceHangs? || e.SourceReturns? || e.WriterCloses? || e.SourceSends?
    ensures Bytes(Next(s, e))
  {
  }

  lemma TargetKeepsBytes(s: State, e: Event)
    requires Bytes(s) && Ends(s) && Enabled(s, e) && !e.Transfer?
    requires !(e.SourceWrites? || e.WriteFails? || e.SourceHangs? || e.SourceReturns? || e.WriterCloses?
               || e.SourceSends?)
    ensures Bytes(Next(s, e))
  {
  }

  lemma NextKeepsEnds(s: State, e: Event)
    requires Bytes(s) && Ends(s) && Enabled(s, e)
    ensures Ends(Next(s, e))
  {
  }

  lemma NextKeepsInv(s: State, e: Event)
    requires Inv(s) && Enabled(s, e)
    ensures Inv(Next(s, e))
  {
    hide Bytes, Ends, Next;
    NextKeepsEnds(s, e);
    if e.Transfer? {
      TransferStep(s);
    } else if e.SourceWrites? || e.WriteFails? || e.SourceHangs? || e.SourceReturns? || e.WriterCloses?
        || e.SourceSends? {
      SourceKeepsBytes(s, e);
    } else {
      TargetKeepsBytes(s, e);
    }
  }

  lemma TransferStep(s: State)
    requires Bytes(s) && Ends(s) && Enabled(s, Transfer)
    ensures Bytes(Next(s, Transfer))
  {
    hide Bytes;
    assert !s.readerClosed by { ReadingIsOpen(s); }
    TransferKeepsBytes(s);
  }

  lemma ReadingIsOpen(s: State)
    requires Ends(s) && Enabled(s, Transfer)
    ensures !s.readerClosed
  {
  }

  lemma {:induction false} ExecKeepsInv(s: State, events: seq<Event>)
    requires Inv(s) && Possible(s, events)
    ensures Inv(Exec(s, events))
    decreases |events|
  {
    hide Inv, Enabled, Next;
    if events != [] {
      NextKeepsInv(s, events[0]);
      ExecKeepsInv(Next(s, events[0]), events[1..]);
    }
  }

  lemma RunKeepsInv(events: seq<Event>)
    requires Possible(START, events)
    ensures Inv(Exec(START, events))
  {
    ExecKeepsInv(START, events);
  }

  // ----- what a successful copy proves -----

  /** On success, in every schedule and whatever the endpoints did, both counts agree, the digest is
      that of every completed write, and the target consumed exactly those bytes plus the part of a
      write that was taken before the target stopped reading. */
  lemma SuccessMeans(events: seq<Event>)
    requires Possible(START, events) && Exec(START, events).target.Finished?
    requires Exec(START, events).target.outcome.Evidence?
    ensures var s := Exec(START, events);
            && s.channel.Some? && !s.channel.value.err
            && s.channel.value.rows == s.target.outcome.rows >= 0
            && s.target.outcome.digested == s.hashed
            && s.consumed == s.target.outcome.digested + s.cut
            && (s.consumed == s.target.outcome.digested <==> s.cut == [])
  {
    RunKeepsInv(events);
    var s := Exec(START, events);
    assert InFlight(s) == [];
    assert |s.consumed| == |s.hashed| + |s.cut|;
    if s.cut == [] { assert s.hashed + [] == s.hashed; }
  }

  // ----- when a copy succeeds, and which failure it reports -----

  /** What the source, and the target, returned in a schedule. */
  function SourceSaid(events: seq<Event>): Option<Report> {
    if events == [] then None
    else if events[0].SourceReturns? then Some(events[0].source)
    else SourceSaid(events[1..])
  }

  function TargetSaid(events: seq<Event>): Option<Report> {
    if events == [] then None
    else if events[0].TargetReturns? then Some(events[0].target)
    else TargetSaid(events[1..])
  }

  /** The report that a state still carries. */
  function SourceReport(s: State): Option<Report> {
    match s.source
    case ClosingWriter(report) => Some(report)
    case Sending(report) => Some(report)
    case SourceDone => s.channel
    case _ => None
  }

  function TargetReport(s: State): Option<Report> {
    match s.target
    case Cancelling(report) => Some(report)
    case ClosingReader(report) => Some(report)
    case Waiting(report) => Some(report)
    case _ => None
  }

  function Earlier(known: Option<Report>, later: Option<Report>): Option<Report> {
    if known.Some? then known else later
  }

  /** Success needs two reports without an error and with the same count, which is not negative; the
      source's error comes before the target's. */
  ghost predicate Judged(source: Report, target: Report, outcome: Outcome) {
    && (outcome.SourceFailed? <==> source.err)
    && (outcome.TargetFailed? <==> target.err && !source.err)
    && (outcome.Evidence? <==> !source.err && !target.err && 0 <= source.rows == target.rows)
    && (outcome.RowsDiffer? <==> !source.err && !target.err && !(0 <= source.rows == target.rows))
    && (outcome.Evidence? ==> outcome.rows == source.rows == target.rows)
  }

  /** A finished copy was judged by these reports. */
  ghost predicate EndsJudged(t: State, source: Option<Report>, target: Option<Report>) {
    t.target.Finished? ==> source.Some? && target.Some? && Judged(source.value, target.value, t.target.outcome)
  }

  lemma NextReports(s: State, e: Event)
    requires Ends(s) && Enabled(s, e) && !s.target.Finished?
    ensures var t := Next(s, e);
            && SourceReport(t) == Earlier(SourceReport(s), SourceSaid([e]))
            && (!t.target.Finished? ==> TargetReport(t) == Earlier(TargetReport(s), TargetSaid([e])))
            && EndsJudged(t, SourceReport(s), TargetReport(s))
  {
    hide Transferred;
    if e.Transfer? { TransferGoesOn(s); }
  }

  lemma TransferGoesOn(s: State)
    requires Enabled(s, Transfer)
    ensures var t := Transferred(s);
            t.channel == s.channel && t.target.Consuming? && (t.source.Producing? || t.source.Offering?)
  {
  }

  /** Nothing can happen any more once the copy is over. */
  lemma NothingFollows(s: State, e: Event)
    requires Ends(s) && s.target.Finished?
    ensures !Enabled(s, e)
  {
  }

  lemma {:induction false} ExecReports(s: State, events: seq<Event>, source: Option<Report>, target: Option<Report>)
    requires Inv(s) && Possible(s, events)
    requires if s.target.Finished? then EndsJudged(s, source, target)
             else source == Earlier(SourceReport(s), SourceSaid(events))
                  && target == Earlier(TargetReport(s), TargetSaid(events))
    ensures EndsJudged(Exec(s, events), source, target)
    decreases |events|
  {
    hide Bytes, Ends, Enabled, Next, Judged;
    if events != [] {
      var e, rest := events[0], events[1..];
      if s.target.Finished? {
        NothingFollows(s, e);
      } else {
        NextKeepsInv(s, e);
        NextReports(s, e);
        assert SourceSaid(events) == Earlier(SourceSaid([e]), SourceSaid(rest));
        assert TargetSaid(events) == Earlier(TargetSaid([e]), TargetSaid(rest));
        ExecReports(Next(s, e), rest, source, target);
      }
    }
  }

  /** In every schedule, a copy that is over reports success exactly if both endpoints returned without an
      error and with the same count, not below zero; otherwise the source's error if it had one, then the
      target's, and a difference in rows only if neither had one. */
  lemma OutcomeIsThatOfTheReports(events: seq<Event>)
    requires Possible(START, events) && Exec(START, events).target.Finished?
    ensures && SourceSaid(events).Some? && TargetSaid(events).Some?
            && var source, target := SourceSaid(events).value, TargetSaid(events).value;
               var outcome := Exec(START, events).target.outcome;
               && (outcome.Evidence? <==> !source.err && !target.err && 0 <= source.rows == target.rows)
               && (outcome.Evidence? ==> outcome.rows == source.rows)
               && (outcome.SourceFailed? <==> source.err)
               && (outcome.TargetFailed? <==> target.err && !source.err)
               && (outcome.RowsDiffer? <==>
                     !source.err && !target.err && (source.rows < 0 || target.rows < 0 || source.rows != target.rows))
  {
    hide Possible, Exec;
    ExecReports(START, events, SourceSaid(events), TargetSaid(events));
  }

  /** The source returns an error once one of its writes failed. */
  ghost predicate ReportsFaults(s: State, events: seq<Event>)
    requires Possible(s, events)
    decreases |events|
  {
    events != [] ==>
      && (events[0].SourceReturns? && s.faults > 0 ==> events[0].source.err)
      && ReportsFaults(Next(s, events[0]), events[1..])
  }

  /** What a source that reports failed writes has said so far. */
  ghost predicate Honest(s: State) {
    match s.source
    case ClosingWriter(report) => s.faults > 0 ==> report.err
    case Sending(report) => s.faults > 0 ==> report.err
    case SourceDone => s.channel.Some? && (s.faults > 0 ==> s.channel.value.err)
    case _ => true
  }

  lemma NextKeepsHonest(s: State, e: Event)
    requires Honest(s) && Enabled(s, e) && (e.SourceReturns? && s.faults > 0 ==> e.source.err)
    ensures Honest(Next(s, e))
  {
  }

  lemma {:induction false} ExecKeepsHonest(s: State, events: seq<Event>)
    requires Honest(s) && Possible(s, events) && ReportsFaults(s, events)
    ensures Honest(Exec(s, events))
    decreases |events|
  {
    hide Honest, Enabled, Next;
    if events != [] {
      NextKeepsHonest(s, events[0]);
      ExecKeepsHonest(Next(s, events[0]), events[1..]);
    }
  }

  /** With a source that reports failed writes, success means that the bytes the source wrote, the
      bytes the target consumed and the bytes that were hashed are the same. */
  lemma SuccessCopiesEveryByte(events: seq<Event>)
    requires Possible(START, events) && ReportsFaults(START, events)
    requires Exec(START, events).target.Finished? && Exec(START, events).target.outcome.Evidence?
    ensures var s := Exec(START, events);
            s.written == s.consumed == s.target.outcome.digested
  {
    hide Possible, Exec, ReportsFaults;
    SuccessMeans(events);
    RunKeepsInv(events);
    ExecKeepsHonest(START, events);
    var s := Exec(START, events);
    assert s.hashed + [] == s.hashed;
  }

  // ----- exactly when a successful copy is faithful -----

  /** Part of a write was taken before the pipe closed under it. */
  predicate WasCut(s: State) { s.cut != [] }

  function Held(s: State): seq<Byte> { if s.source.Offering? then s.source.chunk else [] }

  /** A write that was not empty has failed. */
  predicate HasLost(s: State) { |s.written| > |s.hashed| + |Held(s)| }

  /** A source that returns an error if this has happened by the time it returns. */
  ghost predicate Reports(bad: State -> bool, s: State, events: seq<Event>)
    requires Possible(s, events)
    decreases |events|
  {
    events != [] ==>
      && (events[0].SourceReturns? && bad(s) ==> events[0].source.err)
      && Reports(bad, Next(s, events[0]), events[1..])
  }

  predicate Settled(source: SourcePc) { source.ClosingWriter? || source.Sending? || source.SourceDone? }

  /** What the source said when it returned, wherever that stands by now. */
  function Said(s: State): Option<Report> {
    if s.source.ClosingWriter? || s.source.Sending? then Some(s.source.report) else s.channel
  }

  /** Nothing that happens once the source returns changes this. */
  ghost predicate Fixed(bad: State -> bool) {
    forall s: State, e: Event ::
      Enabled(s, e) && (Settled(s.source) || e.SourceReturns?) ==> bad(Next(s, e)) == bad(s)
  }

  lemma {:induction false} SettledStays(bad: State -> bool, s: State, events: seq<Event>)
    requires Fixed(bad) && Possible(s, events) && Settled(s.source)
    ensures Settled(Exec(s, events).source) && Said(Exec(s, events)) == Said(s)
    ensures bad(Exec(s, events)) == bad(s) && Reports(bad, s, events)
    decreases |events|
  {
    if events != [] { SettledStays(bad, Next(s, events[0]), events[1..]); }
  }

  /** A source that ends without an error reported this exactly if it never happened. */
  lemma {:induction false} ReportedExactly(bad: State -> bool, s: State, events: seq<Event>)
    requires Fixed(bad) && Possible(s, events) && !Settled(s.source)
    requires var t := Exec(s, events); t.source.SourceDone? && t.channel.Some? && !t.channel.value.err
    ensures Reports(bad, s, events) <==> !bad(Exec(s, events))
    decreases |events|
  {
    if events != [] {
      var next := Next(s, events[0]);
      if events[0].SourceReturns? {
        SettledStays(bad, next, events[1..]);
      } else {
        ReportedExactly(bad, next, events[1..]);
      }
    }
  }

  /** What was written is what was hashed and is being offered, unless something was lost. */
  ghost predicate Accounted(s: State) {
    && |s.hashed| + |Held(s)| + |s.cut| <= |s.written|
    && (!HasLost(s) ==> s.written == s.hashed + Held(s))
  }

  lemma NextKeepsAccounted(s: State, e: Event)
    requires Accounted(s) && Enabled(s, e)
    ensures Accounted(Next(s, e))
  {
    assert s.hashed + [] == s.hashed;
    if e.SourceWrites? { assert Next(s, e).source.chunk == e.chunk; }
  }

  lemma {:induction false} ExecKeepsAccounted(s: State, events: seq<Event>)
    requires Accounted(s) && Possible(s, events)
    ensures Accounted(Exec(s, events))
    decreases |events|
  {
    hide Accounted, Enabled, Next;
    if events != [] {
      NextKeepsAccounted(s, events[0]);
      ExecKeepsAccounted(Next(s, events[0]), events[1..]);
    }
  }

  /** Whatever the endpoints do, a successful copy is faithful exactly if the source behaves: what the
      target consumed is what was hashed exactly if the source returns an error once a write of its was
      cut short, and both are what the source wrote exactly if it does so once a write failed that was
      not empty. */
  lemma SuccessExactlyWhenReported(events: seq<Event>)
    requires Possible(START, events) && Exec(START, events).target.Finished?
    requires Exec(START, events).target.outcome.Evidence?
    ensures var s := Exec(START, events);
            && (s.consumed == s.target.outcome.digested <==> Reports(WasCut, START, events))
            && (s.written == s.consumed == s.target.outcome.digested <==> Reports(HasLost, START, events))
  {
    hide Possible, Exec, Reports, Inv, Accounted, Fixed, Held;
    SuccessMeans(events);
    LostExactly(events);
    CutIsFixed();
    LossIsFixed();
    ReportedExactly(WasCut, START, events);
    ReportedExactly(HasLost, START, events);
  }

  lemma CutIsFixed()
    ensures Fixed(WasCut)
  {
  }

  lemma LossIsFixed()
    ensures Fixed(HasLost)
  {
  }

  /** A successful copy wrote what it consumed and hashed exactly when no write was lost or cut. */
  lemma LostExactly(events: seq<Event>)
    requires Possible(START, events) && Exec(START, events).target.Finished?
    requires Exec(START, events).target.outcome.Evidence?
    ensures var s := Exec(START, events);
            && (s.written == s.consumed == s.target.outcome.digested <==> !HasLost(s))
            && (s.consumed == s.target.outcome.digested <==> !WasCut(s)) && s.source.SourceDone?
  {
    hide Possible, Exec;
    SuccessMeans(events);
    RunKeepsInv(events);
    ExecKeepsAccounted(START, events);
    var s := Exec(START, events);
    assert s.hashed + [] == s.hashed;
  }

  lemma {:induction false} ExecConcat(s: State, early: seq<Event>, late: seq<Event>)
    requires Possible(s, early) && Possible(Exec(s, early), late)
    ensures Possible(s, early + late) && Exec(s, early + late) == Exec(Exec(s, early), late)
    decreases |early|
  {
    hide Enabled, Next;
    if early == [] {
      assert early + late == late;
    } else {
      ExecConcat(Next(s, early[0]), early[1..], late);
      assert (early + late)[1..] == early[1..] + late;
    }
  }

  lemma Extend(run: seq<Event>, s: State, e: Event) returns (longer: seq<Event>, t: State)
    requires Possible(START, run) && Exec(START, run) == s && Enabled(s, e)
    ensures longer == run + [e] && t == Next(s, e)
    ensures Possible(START, longer) && Exec(START, longer) == t
  {
    hide Enabled, Next;
    longer, t := run + [e], Next(s, e);
    assert [e][1..] == [];
    assert Exec(t, []) == t;
    ExecConcat(START, run, [e]);
  }

  const UNREPORTED: seq<Event> := [
    SourceWrites([7, 7]), TargetReads(1), Transfer, TargetReturns(Report(1, false)), ReaderCloses,
    WriteFails, SourceReturns(Report(1, false)), WriterCloses, SourceSends, Receives]

  /** Without that assumption the digest can miss a byte: a source that ignores a write cut short
      and a target that stops early agree on the row count. */
  lemma UnreportedFaultSucceeds()
    ensures Possible(START, UNREPORTED)
    ensures var s := Exec(START, UNREPORTED);
            s.target == Finished(Evidence(1, [])) && s.consumed == [7]
  {
    hide Possible, Exec, Enabled, Next;
    var run, s := FaultHidden();
    run, s := ExtendByReturn(run, s);
    assert run == UNREPORTED;
  }

  /** The target takes one byte of two and stops; the write fails. */
  lemma FaultHidden() returns (run: seq<Event>, s: State)
    ensures run == [SourceWrites([7, 7]), TargetReads(1), Transfer, TargetReturns(Report(1, false)), ReaderCloses,
                    WriteFails]
    ensures Possible(START, run) && Exec(START, run) == s
    ensures s == State(Producing(true), Waiting(Report(1, false)), false, false, true, None, [7], [], [7, 7], [7], 1)
  {
    hide Possible, Exec;
    run, s := [], START;
    NoEvents(s);
    run, s := Extend(run, s, SourceWrites([7, 7]));
    run, s := Extend(run, s, TargetReads(1));
    run, s := Extend(run, s, Transfer);
    assert s == State(Offering([7, 7], 1, true), Consuming(false), false, false, false, None, [7], [], [7, 7], [], 0);
    run, s := Extend(run, s, TargetReturns(Report(1, false)));
    run, s := Extend(run, s, ReaderCloses);
    run, s := Extend(run, s, WriteFails);
  }

  lemma ExtendByReturn(run: seq<Event>, s: State) returns (longer: seq<Event>, t: State)
    requires Possible(START, run) && Exec(START, run) == s
    requires s == State(Producing(true), Waiting(Report(1, false)), false, false, true, None, [7], [], [7, 7], [7], 1)
    ensures longer == run + [SourceReturns(Report(1, false)), WriterCloses, SourceSends, Receives]
    ensures Possible(START, longer) && Exec(START, longer) == t
    ensures t.target == Finished(Evidence(1, [])) && t.consumed == [7]
  {
    hide Possible, Exec;
    longer, t := Extend(run, s, SourceReturns(Report(1, false)));
    longer, t := Extend(longer, t, WriterCloses);
    longer, t := Extend(longer, t, SourceSends);
    longer, t := Extend(longer, t, Receives);
  }

  lemma NoEvents(s: State)
    ensures Possible(s, []) && Exec(s, []) == s
  {
  }

  // ----- no schedule leaves anything blocked -----

  /** Endpoints that stop on a failed write, on the end of the stream or on a read error, and read
      into a buffer that has room. */
  predicate WellBehaved(s: State, e: Event) {
    match e
    case SourceWrites(_) => s.source.Producing? && !s.source.failed
    case SourceReturns(report) => s.source.Producing? && s.source.failed ==> report.err
    case TargetReads(capacity) => s.target.Consuming? && !s.target.ended && capacity > 0
    case _ => true
  }

  ghost predicate AllWellBehaved(s: State, events: seq<Event>)
    requires Possible(s, events)
    decreases |events|
  {
    events != [] ==> WellBehaved(s, events[0]) && AllWellBehaved(Next(s, events[0]), events[1..])
  }

  /** Nothing but an outside cancellation can happen any more. */
  ghost predicate Blocked(s: State) {
    forall e :: Enabled(s, e) && WellBehaved(s, e) ==> e.ParentCancels?
  }

  predicate Over(s: State) { s.target.Finished? && s.source.SourceDone? }

  /** An endpoint waits on its own connection and nothing has cancelled it. */
  predicate Hung(s: State) {
    !s.cancelled && (s.source.SourceHung? || s.target.TargetHung?)
  }

  /** A step of the pipe, the goroutine or the main function that can be taken now, if any. */
  function Ready(s: State): Event {
    match s.source
    case Producing(_) => SourceReturns(Report(0, true))
    case ClosingWriter(_) => WriterCloses
    case Sending(_) => SourceSends
    case SourceHung => if s.cancelled then SourceReturns(Report(0, true)) else ReadyTarget(s)
    case Offering(_, _, _) => if s.readerClosed then WriteFails else ReadyTarget(s)
    case SourceDone => ReadyTarget(s)
  }

  function ReadyTarget(s: State): Event {
    match s.target
    case Consuming(_) => TargetReturns(Report(0, true))
    case Reading(_) => if s.source.Offering? then Transfer else ReadEnds
    case TargetHung => TargetReturns(Report(0, true))
    case Cancelling(_) => Cancels
    case ClosingReader(_) => ReaderCloses
    case Waiting(_) => Receives
    case Finished(_) => Receives
  }

  /** A reachable state is blocked only when the copy is over or an endpoint hangs on its own
      connection; the pipe and the channel never block anyone for good. */
  lemma BlockedOnlyWhenOverOrHung(events: seq<Event>)
    requires Possible(START, events) && Blocked(Exec(START, events))
    ensures Over(Exec(START, events)) || Hung(Exec(START, events))
  {
    hide Possible, Exec, Bytes;
    var s := Exec(START, events);
    RunKeepsInv(events);
    OfferingFits(s);
    assert Enabled(s, Ready(s)) && WellBehaved(s, Ready(s)) ==> Ready(s).ParentCancels?;
  }

  lemma OfferingFits(s: State)
    requires Bytes(s)
    ensures s.source.Offering? ==> s.source.sent <= |s.source.chunk|
  {
  }

  /** A finished copy has always outlived its source goroutine, and its context is cancelled. */
  lemma NoGoroutineIsLeft(events: seq<Event>)
    requires Possible(START, events) && Exec(START, events).target.Finished?
    ensures Exec(START, events).source.SourceDone? && Exec(START, events).cancelled
  {
    RunKeepsInv(events);
  }

  lemma {:induction false} CancelledStays(s: State, events: seq<Event>)
    requires Possible(s, events) && (s.cancelled || exists k :: 0 <= k < |events| && events[k].ParentCancels?)
    ensures Exec(s, events).cancelled
    decreases |events|
  {
    hide Enabled;
    if events != [] {
      var k: int :| s.cancelled || (0 <= k < |events| && events[k].ParentCancels?);
      assert k > 0 ==> !s.cancelled ==> events[1..][k - 1].ParentCancels?;
      CancelledStays(Next(s, events[0]), events[1..]);
    }
  }

  /** Once the target returned an error, or the caller cancelled, not even a source that hangs on its own
      connection can hold up the copy: it is over before nothing can happen any more. */
  lemma ErrorsAndCancellationEndTheCopy(events: seq<Event>)
    requires Possible(START, events) && Blocked(Exec(START, events))
    requires || (TargetSaid(events).Some? && TargetSaid(events).value.err)
             || exists k :: 0 <= k < |events| && events[k].ParentCancels?
    ensures Over(Exec(START, events))
  {
    hide Possible, Exec, Bytes;
    var s := Exec(START, events);
    BlockedOnlyWhenOverOrHung(events);
    RunKeepsInv(events);
    if k :| 0 <= k < |events| && events[k].ParentCancels? {
      CancelledStays(START, events);
    } else {
      NoEvents(START);
      RunKeepsInv([]);
      ReportIsKept(START, events, TargetSaid(events).value);
      assert Enabled(s, Cancels) && WellBehaved(s, Cancels) ==> Cancels.ParentCancels?;
    }
  }

  /** The target's report is in its state until the copy is over. */
  lemma {:induction false} ReportIsKept(s: State, events: seq<Event>, report: Report)
    requires Inv(s) && Possible(s, events)
    requires s.target.Finished? || Earlier(TargetReport(s), TargetSaid(events)) == Some(report)
    ensures Exec(s, events).target.Finished? || TargetReport(Exec(s, events)) == Some(report)
    decreases |events|
  {
    hide Bytes, Ends, Enabled, Next, Judged;
    if events != [] {
      var e := events[0];
      if s.target.Finished? {
        NothingFollows(s, e);
      } else {
        NextKeepsInv(s, e);
        NextReports(s, e);
        assert TargetSaid(events) == Earlier(TargetSaid([e]), TargetSaid(events[1..]));
        ReportIsKept(Next(s, e), events[1..], report);
      }
    }
  }

  // ----- every schedule comes to an end -----

  function SourceWeight(source: SourcePc): int {
    match source
    case Producing(failed) => if failed then 5 else 6
    case Offering(chunk, sent, taken) => 6 + 4 * (|chunk| - sent + if taken then 0 else 1)
    case SourceHung => 4
    case ClosingWriter(_) => 3
    case Sending(_) => 2
    case SourceDone => 1
  }

  function TargetWeight(target: TargetPc): int {
    match target
    case Consuming(ended) => if ended then 6 else 8
    case Reading(_) => 7
    case TargetHung => 5
    case Cancelling(_) => 4
    case ClosingReader(_) => 3
    case Waiting(_) => 2
    case Finished(_) => 1
  }

  function Weight(s: State): int {
    SourceWeight(s.source) + TargetWeight(s.target) + if s.cancelled then 0 else 1
  }

  /** What the source asked for in all: bytes, and one per write. */
  function Offered(events: seq<Event>): nat {
    if events == [] then 0
    else (if events[0].SourceWrites? then |events[0].chunk| + 1 else 0) + Offered(events[1..])
  }

  lemma StepWeighsDown(s: State, e: Event)
    requires Inv(s) && Enabled(s, e) && WellBehaved(s, e)
    requires s.source.Offering? && s.source.taken ==> s.source.sent < |s.source.chunk|
    requires s.target.Reading? ==> s.target.capacity > 0
    ensures Weight(Next(s, e)) < Weight(s) + if e.SourceWrites? then 5 * (|e.chunk| + 1) else 0
    ensures var t := Next(s, e);
            && (t.source.Offering? && t.source.taken ==> t.source.sent < |t.source.chunk|)
            && (t.target.Reading? ==> t.target.capacity > 0)
  {
    hide Bytes, Ends;
  }

  lemma {:induction false} RunWeighsDown(s: State, events: seq<Event>)
    requires Inv(s) && Possible(s, events) && AllWellBehaved(s, events)
    requires s.source.Offering? && s.source.taken ==> s.source.sent < |s.source.chunk|
    requires s.target.Reading? ==> s.target.capacity > 0
    ensures |events| + Weight(Exec(s, events)) <= Weight(s) + 5 * Offered(events)
    decreases |events|
  {
    hide Inv, Enabled, Next, Weight, WellBehaved;
    if events != [] {
      NextKeepsInv(s, events[0]);
      StepWeighsDown(s, events[0]);
      RunWeighsDown(Next(s, events[0]), events[1..]);
    }
  }

  /** No schedule of well-behaved endpoints goes on for ever: its length is bounded by what the
      source wrote. */
  lemma EveryScheduleEnds(events: seq<Event>)
    requires Possible(START, events) && AllWellBehaved(START, events)
    ensures |events| < 15 + 5 * Offered(events)
  {
    RunWeighsDown(START, events);
    RunKeepsInv(events);
    var s := Exec(START, events);
    assert s.source.Offering? ==> s.source.sent <= |s.source.chunk|;
  }

  function LateWeight(s: State): int {
    (match s.source
     case Producing(failed) => if failed then 5 else 7
     case Offering(_, _, _) => 6
     case _ => SourceWeight(s.source))
    + TargetWeight(s.target) + if s.cancelled then 0 else 1
  }

  lemma {:induction false} RunEndsSoon(s: State, events: seq<Event>)
    requires Inv(s) && s.readerClosed && Possible(s, events) && AllWellBehaved(s, events)
    ensures |events| + LateWeight(Exec(s, events)) <= LateWeight(s)
    decreases |events|
  {
    hide Bytes, WellBehaved, Next, Enabled, LateWeight;
    if events != [] {
      NextKeepsInv(s, events[0]);
      StepEndsSoon(s, events[0]);
      RunEndsSoon(Next(s, events[0]), events[1..]);
    }
  }

  lemma StepEndsSoon(s: State, e: Event)
    requires Inv(s) && s.readerClosed && Enabled(s, e) && WellBehaved(s, e)
    ensures Next(s, e).readerClosed && LateWeight(Next(s, e)) < LateWeight(s)
  {
    hide Bytes;
  }

  /** Once the target has stopped, for whatever reason, at most eight more steps happen in all,
      however much the source still has to write. */
  lemma TargetStopEndsTheCopy(before: seq<Event>, after: seq<Event>)
    requires Possible(START, before) && Exec(START, before).readerClosed
    requires Possible(Exec(START, before), after) && AllWellBehaved(Exec(START, before), after)
    ensures |after| <= 8
  {
    RunKeepsInv(before);
    RunEndsSoon(Exec(START, before), after);
  }
}
