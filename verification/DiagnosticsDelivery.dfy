/**
 Delivery of diagnostics (book_smartz/web/diagnostics.rs): producers behind a
 gate, a bounded queue, and a worker that writes records and loss summaries.
 Every access to shared state is a step of its own, and the steps of the
 producers, of the worker and of shutdown interleave in any order.
 */
module DiagnosticsDelivery {
  import Outcomes

  /** How many records the queue holds. */
  const CAPACITY: nat := 256

  /** An ordinary record, a shutdown record that passes the gate, or the marker of a drain. */
  datatype Item = Ordinary | Terminal | Barrier

  /** What became of an item the worker took from the queue. */
  datatype Fate = Busy | WrittenOut | Failed | Discarded | Acknowledged

  datatype Phase =
    | Waiting | Received | Delivering | Writing | CountFailure
    | LoadDrops | LoadFailures(drops: nat) | Compare(drops: nat, failures: nat) | Summarize(drops: nat, failures: nat)
    | Exited

  datatype Summary = Summary(drops: nat, failures: nat)

  /** The two counters of losses. */
  datatype Losses = Losses(drops: nat, failures: nat)

  /** What happened to the records that were offered; bookkeeping that the program does not do. */
  datatype Tally = Tally(offered: nat, refused: nat, returned: nat, full: nat, disconnected: nat,
                         uncountedDrops: nat, summaryFailures: nat, uncountedFailures: nat)

  /**
   The queue is the part of the accepted items that has no fate yet. closedAt
   remembers how many items had been accepted when the gate closed.
   */
  datatype State = State(accepted: seq<Item>, fates: seq<Fate>, connected: bool, running: bool,
                         accepting: bool, closedAt: nat, discarding: bool,
                         counters: Losses, phase: Phase, reported: Losses, summaries: seq<Summary>, tally: Tally)

  function Start(): State {
    State([], [], true, true, true, 0, false, Losses(0, 0), Waiting, Losses(0, 0), [], Tally(0, 0, 0, 0, 0, 0, 0, 0))
  }

  datatype Action =
    | Offer | OfferInitialization | OfferTerminal | CountDrop
    | CloseGate | SubmitBarrier | PassDeadline | Work(ok: bool) | Crash

  function Saturated(x: nat): nat {
    if x > Outcomes.U64_MAX then Outcomes.U64_MAX else x
  }

  function Increment(counter: nat): nat {
    Saturated(counter + 1)
  }

  function Less(current: nat, reported: nat): nat {
    if current > reported then current - reported else 0
  }

  // ---------- Producers ----------

  predicate Full(s: State) {
    |s.accepted| >= |s.fates| + CAPACITY
  }

  /** Submission to the queue; only some callers take a record back from a stopped worker. */
  function Submit(s: State, item: Item, takesBack: bool): State {
    var t := s.tally;
    if !s.connected then
      s.(running := false,
         tally := if takesBack then t.(returned := t.returned + 1)
                  else t.(disconnected := t.disconnected + 1, uncountedDrops := t.uncountedDrops + 1))
    else if Full(s) then s.(tally := t.(full := t.full + 1, uncountedDrops := t.uncountedDrops + 1))
    else s.(accepted := s.accepted + [item])
  }

  function Offered(s: State): State {
    s.(tally := s.tally.(offered := s.tally.offered + 1))
  }

  /** The gate stays locked while an ordinary record is submitted. */
  function TrySend(s: State, takesBack: bool): State {
    if !s.accepting then s.(tally := s.tally.(refused := s.tally.refused + 1)) else Submit(s, Ordinary, takesBack)
  }

  function SendInitialization(s: State): State {
    if !s.running then s.(tally := s.tally.(returned := s.tally.returned + 1)) else TrySend(s, true)
  }

  function AddBarrier(s: State): State {
    if s.connected && !Full(s) then s.(accepted := s.accepted + [Barrier]) else s
  }

  function CountOneDrop(s: State): State {
    if s.tally.uncountedDrops == 0 then s else
      s.(counters := s.counters.(drops := Increment(s.counters.drops)),
         tally := s.tally.(uncountedDrops := s.tally.uncountedDrops - 1))
  }

  // ---------- The worker ----------

  function Settle(fates: seq<Fate>, fate: Fate): seq<Fate> {
    if fates == [] then [] else fates[|fates| - 1 := fate]
  }

  function Take(s: State): State {
    if |s.fates| < |s.accepted| then s.(fates := s.fates + [Busy], phase := Received) else s
  }

  function Receive(s: State): State
    requires 0 < |s.fates| <= |s.accepted|
  {
    if s.discarding then s.(fates := Settle(s.fates, Discarded), phase := Waiting)
    else if s.accepted[|s.fates| - 1] == Barrier then s.(fates := Settle(s.fates, Acknowledged), phase := Waiting)
    else s.(phase := Delivering)
  }

  function StartWrite(s: State): State {
    if s.discarding then s.(fates := Settle(s.fates, Discarded), phase := Waiting) else s.(phase := Writing)
  }

  function Write(s: State, ok: bool): State {
    if ok then s.(fates := Settle(s.fates, WrittenOut), phase := LoadDrops)
    else s.(fates := Settle(s.fates, Failed), phase := CountFailure,
            tally := s.tally.(uncountedFailures := s.tally.uncountedFailures + 1))
  }

  function CountOneFailure(s: State): State {
    if s.tally.uncountedFailures == 0 then s else
      s.(counters := s.counters.(failures := Increment(s.counters.failures)), phase := Waiting,
         tally := s.tally.(uncountedFailures := s.tally.uncountedFailures - 1))
  }

  function CompareLosses(s: State, drops: nat, failures: nat): State {
    if Less(drops, s.reported.drops) == 0 && Less(failures, s.reported.failures) == 0 then s.(phase := Waiting)
    else if s.discarding then s.(phase := Waiting)
    else s.(phase := Summarize(drops, failures))
  }

  function WriteSummary(s: State, drops: nat, failures: nat, ok: bool): State {
    if ok then
      s.(summaries := s.summaries + [Summary(Less(drops, s.reported.drops), Less(failures, s.reported.failures))],
         reported := Losses(drops, failures), phase := Waiting)
    else
      s.(phase := CountFailure,
         tally := s.tally.(summaryFailures := s.tally.summaryFailures + 1,
                           uncountedFailures := s.tally.uncountedFailures + 1))
  }

  function WorkerStep(s: State, ok: bool): State
    requires Shaped(s)
  {
    match s.phase
    case Waiting => Take(s)
    case Received => Receive(s)
    case Delivering => StartWrite(s)
    case Writing => Write(s, ok)
    case CountFailure => CountOneFailure(s)
    case LoadDrops => s.(phase := LoadFailures(s.counters.drops))
    case LoadFailures(drops) => s.(phase := Compare(drops, s.counters.failures))
    case Compare(drops, failures) => CompareLosses(s, drops, failures)
    case Summarize(drops, failures) => WriteSummary(s, drops, failures, ok)
    case Exited => s
  }

  function Step(s: State, action: Action): State
    requires Shaped(s)
  {
    match action
    case Offer => TrySend(Offered(s), false)
    case OfferInitialization => SendInitialization(Offered(s))
    case OfferTerminal => Submit(Offered(s), Terminal, false)
    case CountDrop => CountOneDrop(s)
    case CloseGate => if s.accepting then s.(accepting := false, closedAt := |s.accepted|) else s
    case SubmitBarrier => AddBarrier(s)
    case PassDeadline => s.(discarding := true)
    case Work(ok) => WorkerStep(s, ok)
    case Crash => s.(connected := false, running := false, phase := Exited)
  }

  // ---------- What every state keeps ----------

  predicate Handling(phase: Phase) {
    phase.Received? || phase.Delivering? || phase.Writing?
  }

  /** Only the item in the worker's hands has no final fate, and the queue keeps within its capacity. */
  predicate QueueShaped(accepted: seq<Item>, fates: seq<Fate>, phase: Phase) {
    && |fates| <= |accepted| <= |fates| + CAPACITY
    && (Handling(phase) ==> fates != [] && fates[|fates| - 1] == Busy)
    && (phase.Delivering? || phase.Writing? ==> accepted[|fates| - 1] != Barrier)
  }

  predicate Shaped(s: State) {
    QueueShaped(s.accepted, s.fates, s.phase)
  }

  function CountRecords(items: seq<Item>): nat {
    if items == [] then 0 else
      CountRecords(items[..|items| - 1]) + if items[|items| - 1] == Barrier then 0 else 1
  }

  function CountFailed(fates: seq<Fate>): nat {
    if fates == [] then 0 else CountFailed(fates[..|fates| - 1]) + if fates[|fates| - 1] == Failed then 1 else 0
  }

  function SummedDrops(summaries: seq<Summary>): nat {
    if summaries == [] then 0 else SummedDrops(summaries[..|summaries| - 1]) + summaries[|summaries| - 1].drops
  }

  function SummedFailures(summaries: seq<Summary>): nat {
    if summaries == [] then 0 else SummedFailures(summaries[..|summaries| - 1]) + summaries[|summaries| - 1].failures
  }

  /** Each offered record is refused, taken back, dropped, or accepted. */
  predicate Conserved(t: Tally, accepted: seq<Item>) {
    t.offered == t.refused + t.returned + t.full + t.disconnected + CountRecords(accepted)
  }

  predicate DropsTrue(t: Tally, drops: nat) {
    && t.uncountedDrops <= t.full + t.disconnected
    && drops == Saturated(t.full + t.disconnected - t.uncountedDrops)
  }

  predicate FailuresTrue(t: Tally, failures: nat, failed: nat) {
    && t.uncountedFailures <= failed + t.summaryFailures
    && failures == Saturated(failed + t.summaryFailures - t.uncountedFailures)
  }

  predicate Between(low: Losses, drops: nat, failures: nat, high: Losses) {
    low.drops <= drops <= high.drops && low.failures <= failures <= high.failures
  }

  /** The summaries that were written add up to what is reported, which is never more than what was counted. */
  predicate ReportsTrue(reported: Losses, summaries: seq<Summary>, counters: Losses) {
    && reported.drops == SummedDrops(summaries) <= counters.drops
    && reported.failures == SummedFailures(summaries) <= counters.failures
    && forall i :: 0 <= i < |summaries| ==> summaries[i].drops > 0 || summaries[i].failures > 0
  }

  /** What the worker has loaded lies between what it has reported and the counters. */
  predicate LoadedTrue(phase: Phase, reported: Losses, counters: Losses) {
    match phase
    case LoadFailures(drops) => reported.drops <= drops <= counters.drops
    case Compare(drops, failures) => Between(reported, drops, failures, counters)
    case Summarize(drops, failures) =>
      Between(reported, drops, failures, counters) && (drops > reported.drops || failures > reported.failures)
    case _ => true
  }

  /** The worker still counts a failure exactly while it is about to. */
  predicate FailurePending(phase: Phase, uncounted: nat) {
    phase != Exited ==> uncounted == if phase == CountFailure then 1 else 0
  }

  /** Nothing is discarded before the deadline, and after the first discarded item no marker is acknowledged. */
  predicate DiscardsLast(discarding: bool, fates: seq<Fate>) {
    && (!discarding ==> forall i :: 0 <= i < |fates| ==> fates[i] != Discarded)
    && (forall i, j :: 0 <= i < j < |fates| && fates[i] == Discarded ==> fates[j] != Acknowledged)
  }

  /** Only the last item taken can be without a final fate. */
  predicate OnlyLastBusy(phase: Phase, fates: seq<Fate>) {
    && (forall i :: 0 <= i < |fates| - 1 ==> fates[i] != Busy)
    && (phase != Exited && !Handling(phase) && fates != [] ==> fates[|fates| - 1] != Busy)
  }

  /** Behind the gate no ordinary record is accepted. */
  predicate GateHolds(accepting: bool, closedAt: nat, accepted: seq<Item>) {
    !accepting ==> forall i :: closedAt <= i < |accepted| ==> accepted[i] != Ordinary
  }

  predicate OnlyMarkersAcknowledged(accepted: seq<Item>, fates: seq<Fate>) {
    |fates| <= |accepted| && forall i :: 0 <= i < |fates| && fates[i] == Acknowledged ==> accepted[i] == Barrier
  }

  predicate Sound(s: State) {
    && Shaped(s) && Conserved(s.tally, s.accepted)
    && DropsTrue(s.tally, s.counters.drops) && FailuresTrue(s.tally, s.counters.failures, CountFailed(s.fates))
    && ReportsTrue(s.reported, s.summaries, s.counters) && LoadedTrue(s.phase, s.reported, s.counters)
    && FailurePending(s.phase, s.tally.uncountedFailures)
    && DiscardsLast(s.discarding, s.fates) && OnlyLastBusy(s.phase, s.fates)
    && GateHolds(s.accepting, s.closedAt, s.accepted) && OnlyMarkersAcknowledged(s.accepted, s.fates)
  }

  lemma AppendedRecord(items: seq<Item>, item: Item)
    ensures CountRecords(items + [item]) == CountRecords(items) + if item == Barrier then 0 else 1
  {
    assert (items + [item])[..|items|] == items;
  }

  lemma SettledFate(fates: seq<Fate>, fate: Fate)
    requires fates != [] && fates[|fates| - 1] == Busy
    ensures CountFailed(Settle(fates, fate)) == CountFailed(fates) + if fate == Failed then 1 else 0
  {
    assert Settle(fates, fate)[..|fates| - 1] == fates[..|fates| - 1];
  }

  lemma TakenFate(fates: seq<Fate>)
    ensures CountFailed(fates + [Busy]) == CountFailed(fates)
  {
    assert (fates + [Busy])[..|fates|] == fates;
  }

  lemma AppendedSummary(summaries: seq<Summary>, summary: Summary)
    ensures SummedDrops(summaries + [summary]) == SummedDrops(summaries) + summary.drops
    ensures SummedFailures(summaries + [summary]) == SummedFailures(summaries) + summary.failures
  {
    assert (summaries + [summary])[..|summaries|] == summaries;
  }

  /** An item is added to the queue. */
  lemma AcceptKeepsSound(s: State, item: Item)
    requires Sound(s) && !Full(s) && (s.accepting || item != Ordinary)
    ensures var t := s.(accepted := s.accepted + [item]);
            if item == Barrier then Sound(t) else Sound(Offered(t))
  {
    AppendedRecord(s.accepted, item);
  }

  /** A record that is not accepted is tallied. */
  lemma TallyKeepsSound(s: State, t: State)
    requires Sound(s)
    requires t == s.(running := t.running, tally := t.tally)
    requires Conserved(t.tally, s.accepted) && DropsTrue(t.tally, s.counters.drops)
    requires t.tally.summaryFailures == s.tally.summaryFailures
    requires t.tally.uncountedFailures == s.tally.uncountedFailures
    ensures Sound(t)
  {
  }

  lemma SubmitKeepsSound(s: State, item: Item, takesBack: bool)
    requires Sound(s) && item != Barrier && (s.accepting || item != Ordinary)
    ensures Sound(Submit(Offered(s), item, takesBack))
  {
    if s.connected && !Full(s) {
      AcceptKeepsSound(s, item);
    } else {
      TallyKeepsSound(s, Submit(Offered(s), item, takesBack));
    }
  }

  lemma TrySendKeepsSound(s: State, takesBack: bool)
    requires Sound(s)
    ensures Sound(TrySend(Offered(s), takesBack))
  {
    if s.accepting {
      SubmitKeepsSound(s, Ordinary, takesBack);
    } else {
      TallyKeepsSound(s, TrySend(Offered(s), takesBack));
    }
  }

  lemma SendInitializationKeepsSound(s: State)
    requires Sound(s)
    ensures Sound(SendInitialization(Offered(s)))
  {
    if s.running {
      TrySendKeepsSound(s, true);
    } else {
      TallyKeepsSound(s, SendInitialization(Offered(s)));
    }
  }

  lemma TakeKeepsSound(s: State)
    requires Sound(s) && s.phase == Waiting
    ensures Sound(Take(s))
  {
    TakenFate(s.fates);
  }

  lemma DiscardKeepsSound(s: State)
    requires Sound(s) && Handling(s.phase) && s.discarding
    ensures Sound(s.(fates := Settle(s.fates, Discarded), phase := Waiting))
  {
    SettledFate(s.fates, Discarded);
  }

  lemma AcknowledgeKeepsSound(s: State)
    requires Sound(s) && s.phase == Received && !s.discarding && s.accepted[|s.fates| - 1] == Barrier
    ensures Sound(s.(fates := Settle(s.fates, Acknowledged), phase := Waiting))
  {
    SettledFate(s.fates, Acknowledged);
    assert DiscardsLast(s.discarding, Settle(s.fates, Acknowledged));
    assert OnlyMarkersAcknowledged(s.accepted, Settle(s.fates, Acknowledged));
  }

  lemma DeliveryKeepsSound(s: State)
    requires Sound(s) && s.phase == Received && !s.discarding && s.accepted[|s.fates| - 1] != Barrier
    ensures Sound(s.(phase := Delivering))
  {
  }

  lemma ReceiveKeepsSound(s: State)
    requires Sound(s) && s.phase == Received
    ensures Sound(Receive(s))
  {
    if s.discarding {
      DiscardKeepsSound(s);
    } else if s.accepted[|s.fates| - 1] == Barrier {
      AcknowledgeKeepsSound(s);
    } else {
      DeliveryKeepsSound(s);
    }
  }

  lemma StartWriteKeepsSound(s: State)
    requires Sound(s) && s.phase == Delivering
    ensures Sound(StartWrite(s))
  {
    if s.discarding { DiscardKeepsSound(s); }
  }

  lemma WriteKeepsSound(s: State, ok: bool)
    requires Sound(s) && s.phase == Writing
    ensures Sound(Write(s, ok))
  {
    SettledFate(s.fates, if ok then WrittenOut else Failed);
  }

  lemma WriteSummaryKeepsSound(s: State, ok: bool)
    requires Sound(s) && s.phase.Summarize?
    ensures Sound(WriteSummary(s, s.phase.drops, s.phase.failures, ok))
  {
    AppendedSummary(s.summaries, Summary(Less(s.phase.drops, s.reported.drops), Less(s.phase.failures,
                                                                                     s.reported.failures)));
  }

  lemma CountFailureKeepsSound(s: State)
    requires Sound(s) && s.phase == CountFailure
    ensures Sound(CountOneFailure(s))
  {
  }

  lemma LoadKeepsSound(s: State)
    requires Sound(s) && (s.phase.LoadDrops? || s.phase.LoadFailures?)
    ensures Sound(WorkerStep(s, true))
  {
  }

  lemma CompareKeepsSound(s: State)
    requires Sound(s) && s.phase.Compare?
    ensures Sound(CompareLosses(s, s.phase.drops, s.phase.failures))
  {
  }

  lemma WorkKeepsSound(s: State, ok: bool)
    requires Sound(s)
    ensures Sound(WorkerStep(s, ok))
  {
    match s.phase
    case Waiting => TakeKeepsSound(s);
    case Received => ReceiveKeepsSound(s);
    case Delivering => StartWriteKeepsSound(s);
    case Writing => WriteKeepsSound(s, ok);
    case CountFailure => CountFailureKeepsSound(s);
    case LoadDrops => LoadKeepsSound(s);
    case LoadFailures(drops) => LoadKeepsSound(s);
    case Compare(drops, failures) => CompareKeepsSound(s);
    case Summarize(drops, failures) => WriteSummaryKeepsSound(s, ok);
    case Exited =>
  }

  lemma CountDropKeepsSound(s: State)
    requires Sound(s)
    ensures Sound(CountOneDrop(s))
  {
  }

  lemma ShutdownKeepsSound(s: State, action: Action)
    requires Sound(s) && (action.CloseGate? || action.PassDeadline? || action.Crash?)
    ensures Sound(Step(s, action))
  {
  }

  lemma StepKeepsSound(s: State, action: Action)
    requires Sound(s)
    ensures Sound(Step(s, action))
  {
    match action
    case Offer => TrySendKeepsSound(s, false);
    case OfferInitialization => SendInitializationKeepsSound(s);
    case OfferTerminal => SubmitKeepsSound(s, Terminal, false);
    case CountDrop => CountDropKeepsSound(s);
    case CloseGate => ShutdownKeepsSound(s, action);
    case SubmitBarrier => if s.connected && !Full(s) { AcceptKeepsSound(s, Barrier); }
    case PassDeadline => ShutdownKeepsSound(s, action);
    case Work(ok) => WorkKeepsSound(s, ok);
    case Crash => ShutdownKeepsSound(s, action);
  }

  // ---------- Runs ----------

  /** Any steps of producers, worker and shutdown, from the start. */
  ghost function Run(actions: seq<Action>): (s: State)
    ensures Sound(s)
  {
    if actions == [] then StartIsSound(); Start()
    else SoundStep(Run(actions[..|actions| - 1]), actions[|actions| - 1])
  }

  ghost function SoundStep(s: State, action: Action): (t: State)
    requires Sound(s)
    ensures Sound(t)
  {
    StepKeepsSound(s, action);
    Step(s, action)
  }

  lemma StartIsSound()
    ensures Sound(Start())
  {
  }

  /** In every run the written summaries add up to the reported losses, and nothing is reported that did not happen. */
  lemma LossesAreReportedExactly(actions: seq<Action>)
    ensures var s := Run(actions);
            && SummedDrops(s.summaries) == s.reported.drops <= s.counters.drops <= s.tally.full + s.tally.disconnected
            && SummedFailures(s.summaries) == s.reported.failures <= s.counters.failures
               <= CountFailed(s.fates) + s.tally.summaryFailures
  {
    assert Sound(Run(actions));
  }

  /** Below the range of 64 bits the drop counter lags behind the drops by exactly those still to be counted. */
  lemma EveryDropIsCounted(actions: seq<Action>)
    requires var t := Run(actions).tally; t.full + t.disconnected <= Outcomes.U64_MAX
    ensures var s := Run(actions); s.counters.drops + s.tally.uncountedDrops == s.tally.full + s.tally.disconnected
  {
    assert Sound(Run(actions));
  }

  function CountFate(fates: seq<Fate>, fate: Fate): nat {
    if fates == [] then 0 else CountFate(fates[..|fates| - 1], fate) + if fates[|fates| - 1] == fate then 1 else 0
  }

  lemma {:induction false} FatesAddUp(accepted: seq<Item>, fates: seq<Fate>)
    requires |accepted| == |fates|
    requires forall i :: 0 <= i < |fates| && fates[i] == Acknowledged ==> accepted[i] == Barrier
    ensures |fates| == CountFate(fates, Busy) + CountFate(fates, WrittenOut) + CountFate(fates, Failed)
                       + CountFate(fates, Discarded) + CountFate(fates, Acknowledged)
    ensures CountFate(fates, Failed) == CountFailed(fates)
    decreases |fates|
  {
    if fates != [] { FatesAddUp(accepted[..|fates| - 1], fates[..|fates| - 1]); }
  }

  /**
   Every offered record was refused at the gate, taken back, dropped, or accepted; and every accepted
   item is still queued, in the worker's hands, written, counted as failed, discarded or acknowledged.
   */
  lemma EveryRecordIsAccountedFor(actions: seq<Action>)
    ensures var s := Run(actions);
            && s.tally.offered == s.tally.refused + s.tally.returned + s.tally.full + s.tally.disconnected
                                  + CountRecords(s.accepted)
            && |s.accepted| - |s.fates| <= CAPACITY
            && |s.accepted| == (|s.accepted| - |s.fates|) + CountFate(s.fates, Busy) + CountFate(s.fates, WrittenOut)
                               + CountFate(s.fates, Failed) + CountFate(s.fates, Discarded)
                                 + CountFate(s.fates, Acknowledged)
            && CountFate(s.fates, Failed) == CountFailed(s.fates)
  {
    var s := Run(actions);
    FatesAddUp(s.accepted[..|s.fates|], s.fates);
  }

  /**
   A drain that completes has been preceded by every item accepted before its
   marker, written or counted as failed.
   */
  lemma DrainedMeansConsumed(actions: seq<Action>, p: nat, i: nat)
    requires p < |Run(actions).fates| && Run(actions).fates[p] == Acknowledged && i < p
    ensures var s := Run(actions);
            && s.accepted[p] == Barrier
            && (s.fates[i] == WrittenOut || s.fates[i] == Failed || s.fates[i] == Acknowledged)
            && (s.accepted[i] != Barrier ==> s.fates[i] == WrittenOut || s.fates[i] == Failed)
  {
    assert Sound(Run(actions));
  }

  /**
   Once the gate is closed, a marker behind it that is acknowledged has drained
   every ordinary record ever accepted.
   */
  lemma DrainAfterTheGateIsComplete(actions: seq<Action>, p: nat, i: nat)
    requires !Run(actions).accepting && Run(actions).closedAt <= p < |Run(actions).fates|
    requires Run(actions).fates[p] == Acknowledged
    requires i < |Run(actions).accepted| && Run(actions).accepted[i] == Ordinary
    ensures i < p && (Run(actions).fates[i] == WrittenOut || Run(actions).fates[i] == Failed)
  {
    assert Sound(Run(actions));
    assert i < Run(actions).closedAt;
  }
}
