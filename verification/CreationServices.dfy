/** NotificationCreationService: find, insert, and after a unique violation find again. */
module CreationServices {
  import opened Common
  import opened Windows
  import opened Idempotency
  import opened Creation

  datatype CreateStatus = CREATED | EXISTING

  datatype CreateResult = CreateResult(notificationId: Id, status: CreateStatus, recipientCount: nat,
          deliveryCount: nat)

  datatype CreateError = InvalidWindow | IdempotencyConflict

  predicate About(step: Step, caller: nat) {
    match step
    case Begin(c, _) => c == caller
    case Find(c) => c == caller
    case Insert(c, _, _) => c == caller
    case Refind(c) => c == caller
    case Recount(_, _, _) => false
  }

  predicate ByOthers(steps: seq<Step>, caller: nat) {
    forall i :: 0 <= i < |steps| ==> !About(steps[i], caller)
  }

  lemma {:induction false} OthersLeave(s: State, steps: seq<Step>, caller: nat)
    requires Inv(s) && ByOthers(steps, caller) && caller in s.callers
    ensures caller in Run(s, steps).callers && Run(s, steps).callers[caller] == s.callers[caller]
    ensures Inv(Run(s, steps))
  {
    RunKeepsInv(s, steps);
    if steps != [] {
      var before := steps[..|steps| - 1];
      OthersLeave(s, before, caller);
      OtherLeaves(Run(s, before), steps[|steps| - 1], caller);
    }
  }

  lemma OtherLeaves(s: State, step: Step, caller: nat)
    requires !About(step, caller) && caller in s.callers
    ensures caller in Next(s, step).callers && Next(s, step).callers[caller] == s.callers[caller]
  {
  }

  /** One more step of a run that keeps the invariant. */
  lemma Do(s: State, steps: seq<Step>, step: Step) returns (steps': seq<Step>)
    requires Inv(Run(s, steps))
    ensures steps' == steps + [step] && Run(s, steps') == Next(Run(s, steps), step) && Inv(Run(s, steps'))
  {
    steps' := steps + [step];
    RunSnoc(s, steps, step);
    StepKeepsInv(Run(s, steps), step);
  }

  lemma ViolatedHasRow(s: State, caller: nat, t: Ticket)
    requires IndexOk(s) && caller in s.callers && s.callers[caller] == Violated(t) && CallerOk(s, caller)
    ensures t.identity in s.index && s.index[t.identity] in s.rows
  {
  }

  lemma RefindIs(s: State, caller: nat, t: Ticket)
    requires caller in s.callers && s.callers[caller] == Violated(t)
    requires t.identity in s.index && s.index[t.identity] in s.rows
    ensures Next(s, Refind(caller)) ==
            Moved(s, caller, Done(t, Found(s.rows[s.index[t.identity]], s.index[t.identity], t.fingerprint)))
  {
  }

  /** A unique violation means that the row is there by now, and it stays: the second lookup never fails. */
  lemma RefindSucceeds(s: State, caller: nat, t: Ticket)
    requires Inv(s) && caller in s.callers && s.callers[caller] == Violated(t)
    ensures t.identity in s.index && s.index[t.identity] in s.rows
    ensures Next(s, Refind(caller)) ==
            Moved(s, caller, Done(t, Found(s.rows[s.index[t.identity]], s.index[t.identity], t.fingerprint)))
    ensures Inv(Next(s, Refind(caller)))
  {
    ViolatedHasRow(s, caller, t);
    RefindIs(s, caller, t);
    StepKeepsInv(s, Refind(caller));
  }

  /** The answer of a caller that found this row: its id and current counts, or a conflict over the fingerprint. */
  predicate FoundAs(r: Row, id: Id, t: Ticket, answer: Answer) {
    && (answer == Conflict <==> r.fingerprint != t.fingerprint)
    && (answer != Conflict ==>
          answer.Existing? && answer.id == id && answer.recipientCount == r.recipientCount
          && answer.deliveryCount == r.deliveryCount)
  }

  /** What the service returns for an answer. */
  function ResultOf(a: Answer): Result<CreateResult, CreateError>
    requires !a.Raised?
  {
    match a
    case Created(id) => Ok(CreateResult(id, CREATED, 0, 0))
    case Existing(id, r, d) => Ok(CreateResult(id, EXISTING, r, d))
    case Conflict => Err(IdempotencyConflict)
  }

  class CreationService {
    var rows: map<Id, Row>
    var index: map<Identity, Id>
    var events: map<Id, Id>
    var callers: map<nat, Progress>
    var births: map<Id, Birth>
    const cfg: Config

    function View(): State
      reads this
    {
      State(rows, index, events, callers, births)
    }

    constructor (cfg: Config, s: State)
      ensures View() == s && this.cfg == cfg
    {
      this.cfg := cfg;
      rows, index, events, callers, births := s.rows, s.index, s.events, s.callers, s.births;
    }

    /** What other requests commit between two statements of this one. Callers know only the contract. */
    method Others(caller: nat) returns (ghost steps: seq<Step>)
      modifies this
      ensures ByOthers(steps, caller) && View() == Run(old(View()), steps)
    {
      steps := [];
    }

    /** find_by_explicit_idempotency_key or find_by_fallback_hash: the row with this identity, if there is one. */
    method FindByIdentity(i: Identity) returns (found: Option<Id>)
      ensures found == if i in index then Some(index[i]) else None
    {
      found := if i in index then Some(index[i]) else None;
    }

    /** Others commit, then this caller looks its identity up and answers if it finds a row. */
    method Look(caller: nat, t: Ticket) returns (answer: Option<Answer>, ghost steps: seq<Step>)
      requires Inv(View()) && caller in callers && callers[caller] == Started(t)
      modifies this
      ensures View() == Run(old(View()), steps) && Inv(View())
      ensures caller in callers && callers[caller] == if answer.Some? then Done(t, answer.value) else Missed(t)
      ensures answer.Some? <==> t.identity in index
      ensures answer.Some? ==>
                index[t.identity] in rows && FoundAs(rows[index[t.identity]], index[t.identity], t, answer.value)
    {
      ghost var s := View();
      steps := Others(caller);
      OthersLeave(s, steps, caller);
      steps := Do(s, steps, Find(caller));
      var found := FindByIdentity(t.identity);
      if found.Some? {
        answer := Some(Found(rows[found.value], found.value, t.fingerprint));
        callers := callers[caller := Done(t, answer.value)];
      } else {
        answer := None;
        callers := callers[caller := Missed(t)];
      }
    }

    /** Others commit, then the insert of the request and its outbox event, refused if the identity is taken by now. */
    method TryInsert(caller: nat, t: Ticket) returns (created: Option<Id>, ghost steps: seq<Step>)
      requires Inv(View()) && caller in callers && callers[caller] == Missed(t)
      modifies this
      ensures View() == Run(old(View()), steps) && Inv(View())
      ensures caller in callers
              && callers[caller] == if created.Some? then Done(t, Created(created.value)) else Violated(t)
      ensures created.Some? ==>
                created.value in rows
                && rows[created.value] == Row(t.identity, t.call.request, t.fingerprint, t.call.now, 0, 0)
    {
      ghost var s := View();
      steps := Others(caller);
      OthersLeave(s, steps, caller);
      FreshId(rows.Keys);
      var id: Id :| id !in rows.Keys;
      FreshId(events.Keys);
      var eventId: Id :| eventId !in events.Keys;
      steps := Do(s, steps, Insert(caller, id, eventId));
      var taken := Add(caller, t, id, eventId);
      created := if taken then None else Some(id);
    }

    /** INSERT of the request and its outbox event, both or neither. */
    method Add(caller: nat, t: Ticket, id: Id, eventId: Id) returns (taken: bool)
      requires id !in rows && eventId !in events
      modifies this
      ensures taken <==> t.identity in old(index)
      ensures View() == InsertRow(old(View()), caller, t, id, eventId)
      ensures !taken ==> rows == old(rows)[id := Row(t.identity, t.call.request, t.fingerprint, t.call.now, 0, 0)]
      ensures !taken ==> index == old(index)[t.identity := id] && events == old(events)[eventId := id]
      ensures taken ==> rows == old(rows) && index == old(index) && events == old(events)
    {
      taken := t.identity in index;
      if taken {
        callers := callers[caller := Violated(t)];
      } else {
        rows := rows[id := Row(t.identity, t.call.request, t.fingerprint, t.call.now, 0, 0)];
        index := index[t.identity := id];
        events := events[eventId := id];
        callers := callers[caller := Done(t, Created(id))];
        births := births[id := Birth(caller, eventId)];
      }
    }

    /** After a unique violation: others commit, then the second lookup, which always finds the row. */
    method LookAgain(caller: nat, t: Ticket) returns (answer: Answer, ghost steps: seq<Step>)
      requires Inv(View()) && caller in callers && callers[caller] == Violated(t)
      modifies this
      ensures View() == Run(old(View()), steps) && Inv(View())
      ensures caller in callers && callers[caller] == Done(t, answer)
      ensures t.identity in index && index[t.identity] in rows
      ensures FoundAs(rows[index[t.identity]], index[t.identity], t, answer)
    {
      ghost var s := View();
      steps := Others(caller);
      OthersLeave(s, steps, caller);
      RunSnoc(s, steps, Refind(caller));
      steps := steps + [Refind(caller)];
      RefindSucceeds(View(), caller, t);
      var found := FindByIdentity(t.identity);
      answer := Found(rows[found.value], found.value, t.fingerprint);
      callers := callers[caller := Done(t, answer)];
    }

    /**
     * create_notification, against any number of concurrent callers. It returns an id whose row holds the call's
     * identity and fingerprint, or a conflict because that row's fingerprint is another one; the unique violation
     * never reaches the caller.
     */
    method CreateNotification(caller: nat, source: string, request: Request, key: Option<string>, now: Time)
      returns (res: Result<CreateResult, CreateError>, ghost steps: seq<Step>)
      requires Inv(View()) && ValidRequest(request) && caller !in callers
      modifies this
      ensures View() == Run(old(View()), steps) && Inv(View())
      ensures res == Err(InvalidWindow) <==> key.None? && !ValidWindow(cfg.window)
      ensures res == Err(InvalidWindow) ==> View() == old(View())
      ensures res != Err(InvalidWindow) ==>
                && Answered(View(), caller)
                && callers[caller].ticket == TicketOf(cfg, Call(source, request, key, now))
                && !callers[caller].answer.Raised?
                && res == ResultOf(callers[caller].answer)
      ensures res.Ok? ==> Holder(View(), callers[caller].ticket, res.value.notificationId)
                          && rows[res.value.notificationId].fingerprint == Fingerprint(cfg.hash, request)
      ensures res.Ok? ==>
                && var r := rows[res.value.notificationId];
                   res.value == CreateResult(res.value.notificationId, res.value.status, r.recipientCount,
                                             r.deliveryCount)
      ensures res.Ok? && res.value.status == CREATED ==>
                && var id := res.value.notificationId;
                   && id in births && births[id].caller == caller
                   && rows[id].request == request && rows[id].createdAt == now
                   && rows[id].recipientCount == 0 && rows[id].deliveryCount == 0
      ensures res.Ok? && res.value.status == EXISTING ==>
                && var id := res.value.notificationId; id in births && births[id].caller != caller
      ensures res == Err(IdempotencyConflict) ==>
                && var i := IdentityOf(cfg, Call(source, request, key, now));
                   i in index && index[i] in rows && rows[index[i]].fingerprint != Fingerprint(cfg.hash, request)
    {
      var call := Call(source, request, key, now);
      if key.None? && !ValidWindow(cfg.window) {
        return Err(InvalidWindow), [];
      }
      var t := TicketOf(cfg, call);
      var answer;
      answer, steps := Converse(caller, t);
      res := ResultOf(answer);
      assert CallerOk(View(), caller);
    }

    /** The statements of create_notification, once identity and fingerprint are computed. */
    method Converse(caller: nat, t: Ticket) returns (answer: Answer, ghost steps: seq<Step>)
      requires Inv(View()) && caller !in callers
      modifies this
      ensures View() == Run(old(View()), steps) && Inv(View())
      ensures caller in callers && callers[caller] == Done(t, answer) && !answer.Raised?
      ensures answer.Created? ==>
                && answer.id in rows && answer.id in births && births[answer.id].caller == caller
                && rows[answer.id] == Row(t.identity, t.call.request, t.fingerprint, t.call.now, 0, 0)
      ensures !answer.Created? ==>
                t.identity in index && index[t.identity] in rows
                && FoundAs(rows[index[t.identity]], index[t.identity], t, answer)
    {
      ghost var s := View();
      steps := Do(s, [], Begin(caller, t));
      callers := callers[caller := Started(t)];
      ghost var more;
      var found;
      found, more := Look(caller, t);
      RunConcat(s, steps, more);
      steps := steps + more;
      if found.Some? {
        return found.value, steps;
      }
      var created;
      created, more := TryInsert(caller, t);
      RunConcat(s, steps, more);
      steps := steps + more;
      if created.Some? {
        assert CallerOk(View(), caller);
        return Created(created.value), steps;
      }
      answer, more := LookAgain(caller, t);
      RunConcat(s, steps, more);
      steps := steps + more;
    }
  }
}
