/** NotificationConsumerWorker: one batch of messages, each dealt with before its offset is committed. */
module ConsumerWorkers {
  import opened Common
  import opened Envelopes
  import opened Consumer

  datatype ConsumerResult = ConsumerResult(received: nat, deadLettered: nat, processed: nat, duplicates: nat,
          committed: nat)

  /** What goes wrong with the i-th message of a batch, if anything does. A call that raises may have taken effect. */
  datatype Fault =
    | NoFault
    | TimedOut
    | DeadLetterRaises(applied: bool)
    | HandlerRaises(applied: bool)
    | MarkRaises(applied: bool)
    | CommitRaises(applied: bool)

  datatype Outcome = Nothing | WasDeadLettered | WasDuplicate | WasProcessed | Raised

  predicate Appends(steps: seq<Step>) {
    forall i :: 0 <= i < |steps| ==> steps[i].Append?
  }

  lemma {:induction false} AppendsOnlyGrow(s: State, steps: seq<Step>)
    requires Appends(steps)
    ensures var e := Run(s, steps);
            e == s.(log := e.log) && |s.log| <= |e.log| && e.log[..|s.log|] == s.log
  {
    if steps != [] {
      var m := Run(s, steps[..|steps| - 1]);
      AppendsOnlyGrow(s, steps[..|steps| - 1]);
      assert Run(s, steps).log[..|m.log|] == m.log;
    }
  }

  class NotificationConsumerWorker {
    var log: seq<Item>
    var committed: nat
    var deadLetters: seq<nat>
    var processed: set<Id>
    var handles: seq<Id>
    var position: nat
    var phase: Phase

    function View(): State
      reads this
    {
      State(log, committed, deadLetters, processed, handles, position, phase)
    }

    constructor (s: State)
      ensures View() == s
    {
      log, committed, deadLetters, processed, handles := s.log, s.committed, s.deadLetters, s.processed, s.handles;
      position, phase := s.position, s.phase;
    }

    /** Producers append to the topic. Callers know only the contract. */
    method Arrivals() returns (ghost steps: seq<Step>)
      modifies this`log
      ensures Appends(steps) && View() == Run(old(View()), steps)
    {
      steps := [];
    }

    method ConsumeOne(timedOut: bool) returns (message: Option<Item>)
      requires phase.Idle?
      modifies this`position, this`phase
      ensures message.Some? <==> !timedOut && old(position) < |log|
      ensures message.Some? ==> View() == Next(old(View()), Poll) && message.value == log[old(position)]
      ensures message.None? ==> View() == old(View())
    {
      if timedOut || position >= |log| {
        return None;
      }
      message := Some(log[position]);
      phase := Holding(position);
      position := position + 1;
    }

    /**
     * _already_processed, the handler, then _mark_processed: the event is recorded only after its handler committed.
     */
    method HandleMessage(message: Message, fault: Fault) returns (outcome: Outcome, ghost steps: seq<Step>)
      requires phase.Holding? && phase.at < |log| && log[phase.at] == Ok(message)
      modifies this`phase, this`handles, this`processed
      ensures View() == Run(old(View()), steps) && Disciplined(steps)
      ensures outcome in {WasDuplicate, WasProcessed, Raised} && !phase.Idle? && phase.at == old(phase).at
      ensures outcome != Raised ==> phase == Settled(old(phase).at)
      ensures outcome == WasDuplicate ==>
                message.eventId in old(processed) && handles == old(handles) && processed == old(processed)
      ensures outcome == WasProcessed ==>
                message.eventId !in old(processed) && handles == old(handles) + [message.eventId]
                                          && processed == old(processed) + {message.eventId}
      ensures outcome == Raised <==> message.eventId !in old(processed) && (fault.HandlerRaises? || fault.MarkRaises?)
      ensures outcome == Raised ==>
                && handles == old(handles) + (if fault == HandlerRaises(false) then [] else [message.eventId])
                && processed == old(processed) + (if fault == MarkRaises(true) then {message.eventId} else {})
    {
      ghost var s := View();
      Run1(s, Check);
      if message.eventId in processed {
        phase := Settled(phase.at);
        return WasDuplicate, [Check];
      }
      phase := New(phase.at);
      if fault == HandlerRaises(false) { return Raised, [Check]; }
      handles := handles + [message.eventId];
      phase := Handled(phase.at);
      Run2(s, Check, Handle);
      if fault == HandlerRaises(true) || fault == MarkRaises(false) { return Raised, [Check, Handle]; }
      processed := processed + {message.eventId};
      phase := Settled(phase.at);
      Run3(s, Check, Handle, Mark);
      if fault == MarkRaises(true) { return Raised, [Check, Handle, Mark]; }
      return WasProcessed, [Check, Handle, Mark];
    }

    /** The dead letter, or the handler: what comes before the commit. */
    method DealWith(message: Item, fault: Fault) returns (outcome: Outcome, ghost steps: seq<Step>)
      requires phase.Holding? && phase.at < |log| && message == log[phase.at]
      modifies this`deadLetters, this`phase, this`handles, this`processed
      ensures View() == Run(old(View()), steps) && Disciplined(steps)
      ensures outcome in {WasDeadLettered, WasDuplicate, WasProcessed, Raised}
      ensures !phase.Idle? && phase.at == old(phase).at
      ensures outcome != Raised ==> phase == Settled(old(phase).at) && SettledAt(View(), old(phase).at)
      ensures outcome != Raised ==> (outcome == WasDeadLettered <==> message.Err?)
      ensures outcome != Raised ==> deadLetters == old(deadLetters) + if message.Err? then [old(phase).at] else []
      ensures outcome != Raised ==>
                handles == old(handles) + if outcome == WasProcessed then [message.value.eventId] else []
      ensures outcome != Raised ==>
                processed == old(processed) + if outcome == WasProcessed then {message.value.eventId} else {}
      ensures outcome in {WasDuplicate, WasProcessed} ==>
                (outcome == WasDuplicate <==> message.value.eventId in old(processed))
      ensures outcome == Raised <==>
              || (message.Err? && fault.DeadLetterRaises?)
              || (message.Ok? && message.value.eventId !in old(processed)
                  && (fault.HandlerRaises? || fault.MarkRaises?))
      ensures outcome == Raised ==>
                && deadLetters == old(deadLetters) + (if fault == DeadLetterRaises(true) then [old(phase).at] else [])
                && (message.Err? ==> handles == old(handles) && processed == old(processed))
                && (message.Ok? ==>
                      && handles == old(handles)
                                    + (if fault == HandlerRaises(false) then [] else [message.value.eventId])
                      && processed == old(processed)
                                      + (if fault == MarkRaises(true) then {message.value.eventId} else {}))
    {
      ghost var s := View();
      if message.Ok? {
        outcome, steps := HandleMessage(message.value, fault);
        return;
      }
      if fault == DeadLetterRaises(false) { return Raised, []; }
      deadLetters := deadLetters + [phase.at];
      phase := Settled(phase.at);
      Run1(s, DeadLetter);
      outcome, steps := if fault == DeadLetterRaises(true) then Raised else WasDeadLettered, [DeadLetter];
    }

    /**
     * Dead-letter or handle the message in hand, and only then commit its offset. A cycle that raises leaves the
     * committed offset as it was, unless it was the commit that raised after it had taken effect.
     */
    method SettleMessage(message: Item, fault: Fault) returns (outcome: Outcome, ghost steps: seq<Step>)
      requires phase.Holding? && phase.at < |log| && message == log[phase.at]
      modifies this
      ensures View() == Run(old(View()), steps) && Disciplined(steps)
      ensures log == old(log) && position == old(position)
      ensures outcome != Raised ==> phase.Idle? && outcome != Nothing
      ensures outcome == Raised && phase.Idle? ==> fault == CommitRaises(true)
      ensures phase.Idle? ==> committed == position && SettledAt(View(), old(phase).at)
      ensures !phase.Idle? ==> committed == old(committed) && phase.at == old(phase).at
      ensures outcome != Raised ==> (outcome == WasDeadLettered <==> message.Err?)
      ensures outcome != Raised ==> deadLetters == old(deadLetters) + if message.Err? then [old(phase).at] else []
      ensures outcome != Raised ==>
                handles == old(handles) + if outcome == WasProcessed then [message.value.eventId] else []
      ensures outcome != Raised ==>
                processed == old(processed) + if outcome == WasProcessed then {message.value.eventId} else {}
      ensures outcome in {WasDuplicate, WasProcessed} ==>
                (outcome == WasDuplicate <==> message.value.eventId in old(processed))
      ensures outcome == Raised <==>
              || fault.CommitRaises?
              || (message.Err? && fault.DeadLetterRaises?)
              || (message.Ok? && message.value.eventId !in old(processed)
                  && (fault.HandlerRaises? || fault.MarkRaises?))
      ensures outcome == Raised && !fault.CommitRaises? ==>
                && deadLetters == old(deadLetters) + (if fault == DeadLetterRaises(true) then [old(phase).at] else [])
                && (message.Err? ==> handles == old(handles) && processed == old(processed))
                && (message.Ok? ==>
                      && handles == old(handles)
                                    + (if fault == HandlerRaises(false) then [] else [message.value.eventId])
                      && processed == old(processed)
                                      + (if fault == MarkRaises(true) then {message.value.eventId} else {}))
    {
      ghost var s := View();
      outcome, steps := DealWith(message, fault);
      if outcome == Raised || fault == CommitRaises(false) { return Raised, steps; }
      committed := position;
      phase := Idle;
      RunSnoc(s, steps, Commit);
      steps := steps + [Commit];
      if fault == CommitRaises(true) { outcome := Raised; }
    }

    method HandleNext(fault: Fault) returns (outcome: Outcome, ghost steps: seq<Step>)
      requires phase.Idle?
      modifies this
      ensures View() == Run(old(View()), steps) && Disciplined(steps)
      ensures outcome != Raised ==> phase.Idle?
      ensures outcome == Nothing <==> fault == TimedOut || old(position) >= |log|
      ensures outcome == Raised ==> fault != NoFault && fault != TimedOut
      ensures outcome == Raised && phase.Idle? ==> fault == CommitRaises(true) && committed == position
      ensures outcome == Nothing ==> position == old(position) && committed == old(committed)
      ensures outcome in {WasDeadLettered, WasDuplicate, WasProcessed} ==>
                position == old(position) + 1 && committed == position
      ensures outcome == Raised ==> position == old(position) + 1
      ensures !phase.Idle? ==> phase.at == old(position) && committed == old(committed)
      ensures outcome != Raised ==> |deadLetters| == |old(deadLetters)| + (if outcome == WasDeadLettered then 1 else 0)
      ensures outcome != Raised ==> |handles| == |old(handles)| + (if outcome == WasProcessed then 1 else 0)
      ensures outcome != Raised ==> |processed| == |old(processed)| + (if outcome == WasProcessed then 1 else 0)
    {
      ghost var s := View();
      steps := Arrivals();
      AppendsOnlyGrow(s, steps);
      var message := ConsumeOne(fault == TimedOut);
      if message.None? {
        return Nothing, steps;
      }
      RunSnoc(s, steps, Poll);
      steps := steps + [Poll];
      ghost var more;
      outcome, more := SettleMessage(message.value, fault);
      RunConcat(s, steps, more);
      steps := steps + more;
    }

    /**
     * One cycle. Without an exception every received message was committed and is counted once, as dead-lettered,
     * duplicate or processed; the handler ran exactly for the processed ones. With one, every message received before
     * the one in hand was committed, and the one in hand was not,
         unless its commit took effect and raised all the same.
     */
    method RunOnce(batchSize: nat, faults: nat -> Fault)
      returns (result: ConsumerResult, raised: bool, ghost steps: seq<Step>)
      requires phase.Idle?
      modifies this
      ensures View() == Run(old(View()), steps) && Disciplined(steps)
      ensures !phase.Idle? ==> raised
      ensures raised && phase.Idle? ==>
                committed == position && exists i: nat :: i < batchSize && faults(i) == CommitRaises(true)
      ensures raised ==> exists i: nat :: i < batchSize && faults(i) != NoFault && faults(i) != TimedOut
      ensures !raised ==>
                || result.received == batchSize
                || (result.received < batchSize && (faults(result.received) == TimedOut || position >= |log|))
      ensures !raised ==> result.received == position - old(position) == result.committed <= batchSize
      ensures !raised ==> result.received == result.deadLettered + result.processed + result.duplicates
      ensures !raised && result.received > 0 ==> committed == position
      ensures raised ==> result.received == position - old(position) == result.committed + 1 <= batchSize
      ensures !phase.Idle? ==>
                phase.at + 1 == position && committed == if result.committed > 0 then phase.at else old(committed)
      ensures !raised ==> |deadLetters| - |old(deadLetters)| == result.deadLettered
      ensures !raised ==> |handles| - |old(handles)| == |processed| - |old(processed)| == result.processed
      ensures Inv(old(View())) ==> Inv(View())
    {
      ghost var s := View();
      var received, deadLettered, done, duplicates, commits := 0, 0, 0, 0, 0;
      steps := [];
      raised := false;
      var i := 0;
      while i < batchSize
        invariant 0 <= i <= batchSize && phase.Idle?
        invariant committed == if received > 0 then position else s.committed
        invariant View() == Run(s, steps) && Disciplined(steps)
        invariant received == commits == position - s.position <= i
        invariant received == deadLettered + done + duplicates
        invariant |deadLetters| == |s.deadLetters| + deadLettered
        invariant |handles| == |s.handles| + done && |processed| == |s.processed| + done
        invariant received == i
        decreases batchSize - i
      {
        ghost var more;
        var outcome;
        outcome, more := HandleNext(faults(i));
        RunConcat(s, steps, more);
        steps := steps + more;
        if outcome == Raised {
          raised := true;
          result := ConsumerResult(received + 1, deadLettered, done, duplicates, commits);
          InvKept(s, steps);
          return;
        }
        if outcome == Nothing {
          break;
        }
        received := received + 1;
        commits := commits + 1;
        if outcome == WasDeadLettered {
          deadLettered := deadLettered + 1;
        } else if outcome == WasDuplicate {
          duplicates := duplicates + 1;
        } else {
          done := done + 1;
        }
        i := i + 1;
      }
      result := ConsumerResult(received, deadLettered, done, duplicates, commits);
      InvKept(s, steps);
    }
  }

  lemma InvKept(s: State, steps: seq<Step>)
    requires Disciplined(steps)
    ensures Inv(s) ==> Inv(Run(s, steps))
  {
    if Inv(s) { RunKeepsInv(s, steps); }
  }
}
