/**
 * Idempotent creation under races: look the identity up, insert, and on a unique violation look it up again.
 * Any number of callers interleave; the two partial unique indexes decide who wins.
 */
module Creation {
  import opened Common
  import opened Envelopes
  import opened Windows
  import opened Idempotency

  /** The hash in use and the fallback window. */
  datatype Config = Config(hash: Json -> string, window: Time)

  /** What the two partial unique indexes are over. */
  datatype Identity = Explicit(source: string, key: string) | Fallback(source: string, hash: string, windowStart: Time)

  datatype Row = Row(identity: Identity, request: Request, fingerprint: string, createdAt: Time,
                     recipientCount: nat, deliveryCount: nat)

  datatype Call = Call(source: string, request: Request, key: Option<string>, now: Time)

  /** A call with what the service computes from it before its first statement. */
  datatype Ticket = Ticket(call: Call, identity: Identity, fingerprint: string)

  datatype Answer = Created(id: Id) | Existing(id: Id, recipientCount: nat, deliveryCount: nat) | Conflict | Raised

  /** Where one caller is between its statements. */
  datatype Progress =
    | Started(ticket: Ticket)
    | Missed(ticket: Ticket)
    | Violated(ticket: Ticket)
    | Done(ticket: Ticket, answer: Answer)

  /** Who created a row and with which outbox event: the run's own record, no column holds it. */
  datatype Birth = Birth(caller: nat, eventId: Id)

  /** `index` is the unique index, `events` the `notification.requested` outbox rows with the request each is about. */
  datatype State = State(
    rows: map<Id, Row>,
    index: map<Identity, Id>,
    events: map<Id, Id>,
    callers: map<nat, Progress>,
    births: map<Id, Birth>)

  const INITIAL := State(map[], map[], map[], map[], map[])

  datatype Step =
    | Begin(caller: nat, ticket: Ticket)
    | Find(caller: nat)
    | Insert(caller: nat, id: Id, eventId: Id)
    | Refind(caller: nat)
    | Recount(id: Id, recipientCount: nat, deliveryCount: nat)

  // ----- what a caller computes ------------------------------------------------------------------

  predicate Acceptable(cfg: Config, call: Call) {
    ValidRequest(call.request) && (call.key.None? ==> ValidWindow(cfg.window))
  }

  function IdentityOf(cfg: Config, call: Call): Identity
    requires Acceptable(cfg, call)
  {
    match call.key
    case Some(key) => Explicit(call.source, key)
    case None => Fallback(call.source, FallbackHash(cfg.hash, call.request, call.source, call.now, cfg.window).value,
                          WindowStart(call.now, cfg.window))
  }

  function TicketOf(cfg: Config, call: Call): Ticket
    requires Acceptable(cfg, call)
  {
    Ticket(call, IdentityOf(cfg, call), Fingerprint(cfg.hash, call.request))
  }

  predicate Genuine(cfg: Config, t: Ticket) {
    Acceptable(cfg, t.call) && t == TicketOf(cfg, t.call)
  }

  // ----- steps -----------------------------------------------------------------------------------

  /** What a caller that found row `id` answers. */
  function Found(row: Row, id: Id, fingerprint: string): Answer {
    if row.fingerprint != fingerprint then Conflict else Existing(id, row.recipientCount, row.deliveryCount)
  }

  function Moved(s: State, caller: nat, p: Progress): State {
    s.(callers := s.callers[caller := p])
  }

  /** A lookup by identity: either there is a row, or the caller moves on to `missed`. */
  function LookUp(s: State, caller: nat, t: Ticket, missed: Progress): State {
    Moved(s, caller,
      if t.identity in s.index && s.index[t.identity] in s.rows
      then Done(t, Found(s.rows[s.index[t.identity]], s.index[t.identity], t.fingerprint)) else missed)
  }

  function Inserted(s: State, caller: nat, t: Ticket, id: Id, eventId: Id): State {
    State(
      s.rows[id := Row(t.identity, t.call.request, t.fingerprint, t.call.now, 0, 0)],
      s.index[t.identity := id],
      s.events[eventId := id],
      s.callers[caller := Done(t, Created(id))],
      s.births[id := Birth(caller, eventId)])
  }

  /** The request and its outbox event in one transaction; the unique index may refuse it. */
  function InsertRow(s: State, caller: nat, t: Ticket, id: Id, eventId: Id): State {
    if t.identity in s.index then Moved(s, caller, Violated(t))
    else if id in s.rows || eventId in s.events then s
    else Inserted(s, caller, t, id, eventId)
  }

  function SetCounts(s: State, id: Id, r: nat, d: nat): State {
    if id in s.rows then s.(rows := s.rows[id := s.rows[id].(recipientCount := r, deliveryCount := d)]) else s
  }

  function Next(s: State, step: Step): State {
    match step
    case Begin(c, t) => if c in s.callers then s else Moved(s, c, Started(t))
    case Find(c) =>
      if c in s.callers && s.callers[c].Started? then LookUp(s, c, s.callers[c].ticket, Missed(s.callers[c].ticket))
        else s
    case Insert(c, id, eventId) =>
      if c in s.callers && s.callers[c].Missed? then InsertRow(s, c, s.callers[c].ticket, id, eventId) else s
    case Refind(c) =>
      if c in s.callers && s.callers[c].Violated?
      then LookUp(s, c, s.callers[c].ticket, Done(s.callers[c].ticket, Raised)) else s
    case Recount(id, r, d) => SetCounts(s, id, r, d)
  }

  function Run(s: State, steps: seq<Step>): State {
    if steps == [] then s else Next(Run(s, steps[..|steps| - 1]), steps[|steps| - 1])
  }

  lemma RunSnoc(s: State, steps: seq<Step>, step: Step)
    ensures Run(s, steps + [step]) == Next(Run(s, steps), step)
  {
  }

  lemma {:induction false} RunConcat(s: State, a: seq<Step>, b: seq<Step>)
    ensures Run(s, a + b) == Run(Run(s, a), b)
  {
    if b == [] {
      assert a + b == a;
    } else {
      RunConcat(s, a, b[..|b| - 1]);
      assert (a + b)[..|a + b| - 1] == a + b[..|b| - 1];
    }
  }

  // ----- invariant -------------------------------------------------------------------------------

  /** The unique index is exactly the rows by identity. */
  predicate IndexOk(s: State) {
    && (forall i :: i in s.index ==> s.index[i] in s.rows && s.rows[s.index[i]].identity == i)
    && (forall id :: id in s.rows ==> s.rows[id].identity in s.index && s.index[s.rows[id].identity] == id)
  }

  /** Row `id` was created by one caller, from its own call. */
  predicate BornRight(s: State, id: Id)
    requires id in s.births
  {
    var c := s.births[id].caller;
    && id in s.rows && c in s.callers && s.callers[c] == Done(s.callers[c].ticket, Created(id))
    && s.rows[id].identity == s.callers[c].ticket.identity
    && s.rows[id].fingerprint == s.callers[c].ticket.fingerprint
    && s.rows[id].request == s.callers[c].ticket.call.request
    && s.rows[id].createdAt == s.callers[c].ticket.call.now
  }

  predicate BirthsOk(s: State) {
    s.births.Keys == s.rows.Keys && forall id :: id in s.births ==> BornRight(s, id)
  }

  /** Requests and `notification.requested` events are in bijection. */
  predicate EventsOk(s: State) {
    && (forall id :: id in s.births ==> s.births[id].eventId in s.events && s.events[s.births[id].eventId] == id)
    && (forall e :: e in s.events ==> s.events[e] in s.births && s.births[s.events[e]].eventId == e)
  }

  predicate Holder(s: State, t: Ticket, id: Id) {
    t.identity in s.index && s.index[t.identity] == id && id in s.rows
  }

  /** What a caller has been told, or is about to find out, agrees with the row that holds its identity. */
  predicate CallerOk(s: State, c: nat)
    requires c in s.callers
  {
    match s.callers[c]
    case Started(_) => true
    case Missed(_) => true
    case Violated(t) => t.identity in s.index
    case Done(t, Created(id)) => Holder(s, t, id) && id in s.births && s.births[id].caller == c
    case Done(t, Existing(id, _, _)) => Holder(s, t, id) && s.rows[id].fingerprint == t.fingerprint
    case Done(t, Conflict) =>
      t.identity in s.index && Holder(s, t, s.index[t.identity])
          && s.rows[s.index[t.identity]].fingerprint != t.fingerprint
    case Done(_, Raised) => false
  }

  predicate CallersOk(s: State) {
    forall c :: c in s.callers ==> CallerOk(s, c)
  }

  predicate Inv(s: State) {
    IndexOk(s) && BirthsOk(s) && EventsOk(s) && CallersOk(s)
  }

  // ----- preservation ----------------------------------------------------------------------------

  /** A caller that moves without creating anything disturbs no row and no other caller. */
  lemma MoveKeeps(s: State, c: nat, p: Progress)
    requires Inv(s) && (c in s.callers ==> !s.callers[c].Done?)
    requires CallerOk(Moved(s, c, p), c) && (p.Done? ==> !p.answer.Created?)
    ensures Inv(Moved(s, c, p))
  {
    MoveKeepsBirths(s, c, p);
    MoveKeepsCallers(s, c, p);
  }

  lemma MoveKeepsBirths(s: State, c: nat, p: Progress)
    requires BirthsOk(s) && (c in s.callers ==> !s.callers[c].Done?)
    ensures BirthsOk(Moved(s, c, p))
  {
  }

  lemma MoveKeepsCallers(s: State, c: nat, p: Progress)
    requires CallersOk(s) && CallerOk(Moved(s, c, p), c)
    ensures CallersOk(Moved(s, c, p))
  {
  }

  lemma InsertKeepsIndex(s: State, c: nat, t: Ticket, id: Id, eventId: Id)
    requires IndexOk(s) && t.identity !in s.index && id !in s.rows
    ensures IndexOk(Inserted(s, c, t, id, eventId))
  {
  }

  lemma InsertKeepsBirth(s: State, c: nat, t: Ticket, id: Id, eventId: Id, x: Id)
    requires BirthsOk(s) && id !in s.rows && c in s.callers && !s.callers[c].Done?
    requires x in s.births || x == id
    ensures BornRight(Inserted(s, c, t, id, eventId), x)
  {
    if x != id { assert BornRight(s, x); }
  }

  lemma InsertKeepsEvents(s: State, c: nat, t: Ticket, id: Id, eventId: Id)
    requires EventsOk(s) && id !in s.births && eventId !in s.events
    ensures EventsOk(Inserted(s, c, t, id, eventId))
  {
  }

  lemma InsertKeepsCaller(s: State, c: nat, t: Ticket, id: Id, eventId: Id, x: nat)
    requires t.identity !in s.index && id !in s.rows
    requires x in s.callers && x != c && CallerOk(s, x)
    ensures CallerOk(Inserted(s, c, t, id, eventId), x)
  {
  }

  lemma InsertKeepsBirths(s: State, c: nat, t: Ticket, id: Id, eventId: Id)
    requires BirthsOk(s) && id !in s.rows && c in s.callers && !s.callers[c].Done?
    ensures BirthsOk(Inserted(s, c, t, id, eventId))
  {
    var s' := Inserted(s, c, t, id, eventId);
    forall x | x in s'.births ensures BornRight(s', x) { InsertKeepsBirth(s, c, t, id, eventId, x); }
    assert s'.births.Keys == s'.rows.Keys;
  }

  lemma InsertKeepsCallers(s: State, c: nat, t: Ticket, id: Id, eventId: Id)
    requires CallersOk(s) && t.identity !in s.index && id !in s.rows
    ensures CallersOk(Inserted(s, c, t, id, eventId))
  {
    var s' := Inserted(s, c, t, id, eventId);
    forall x | x in s'.callers ensures CallerOk(s', x) {
      if x != c { InsertKeepsCaller(s, c, t, id, eventId, x); }
    }
  }

  lemma InsertKeeps(s: State, c: nat, t: Ticket, id: Id, eventId: Id)
    requires Inv(s) && c in s.callers && !s.callers[c].Done?
    requires t.identity !in s.index && id !in s.rows && eventId !in s.events
    ensures Inv(Inserted(s, c, t, id, eventId))
  {
    InsertKeepsIndex(s, c, t, id, eventId);
    InsertKeepsBirths(s, c, t, id, eventId);
    InsertKeepsEvents(s, c, t, id, eventId);
    InsertKeepsCallers(s, c, t, id, eventId);
  }

  lemma RecountKeeps(s: State, id: Id, r: nat, d: nat)
    requires Inv(s)
    ensures Inv(SetCounts(s, id, r, d))
  {
    RecountKeepsRows(s, id, r, d);
    RecountKeepsBirths(s, id, r, d);
    RecountKeepsCallers(s, id, r, d);
  }

  lemma RecountKeepsBirths(s: State, id: Id, r: nat, d: nat)
    requires BirthsOk(s)
    ensures BirthsOk(SetCounts(s, id, r, d))
  {
    var s' := SetCounts(s, id, r, d);
    RecountKeepsRows(s, id, r, d);
    forall x | x in s'.births ensures BornRight(s', x) { assert BornRight(s, x); }
  }

  lemma RecountKeepsCallers(s: State, id: Id, r: nat, d: nat)
    requires CallersOk(s)
    ensures CallersOk(SetCounts(s, id, r, d))
  {
  }

  lemma RecountKeepsRows(s: State, id: Id, r: nat, d: nat)
    ensures IndexOk(s) ==> IndexOk(SetCounts(s, id, r, d))
    ensures SetCounts(s, id, r, d).rows.Keys == s.rows.Keys
  {
  }

  lemma StepKeepsInv(s: State, step: Step)
    requires Inv(s)
    ensures Inv(Next(s, step))
  {
    match step
    case Begin(c, t) => if c !in s.callers { MoveKeeps(s, c, Started(t)); }
    case Find(c) =>
      if c in s.callers && s.callers[c].Started? { MoveKeeps(s, c, Next(s, step).callers[c]); }
    case Insert(c, id, eventId) =>
      if c in s.callers && s.callers[c].Missed? {
        var t := s.callers[c].ticket;
        if t.identity in s.index { MoveKeeps(s, c, Violated(t)); }
        else if !(id in s.rows || eventId in s.events) { InsertKeeps(s, c, t, id, eventId); }
      }
    case Refind(c) =>
      if c in s.callers && s.callers[c].Violated? {
        assert CallerOk(s, c);
        MoveKeeps(s, c, Next(s, step).callers[c]);
      }
    case Recount(id, r, d) => RecountKeeps(s, id, r, d);
  }

  lemma {:induction false} RunKeepsInv(s: State, steps: seq<Step>)
    requires Inv(s)
    ensures Inv(Run(s, steps))
  {
    if steps != [] {
      RunKeepsInv(s, steps[..|steps| - 1]);
      StepKeepsInv(Run(s, steps[..|steps| - 1]), steps[|steps| - 1]);
    }
  }

  // ----- what each statement does, column by column ------------------------------------------------

  /**
   * The insert writes the caller's own call with both counts at zero, with one new event about it, and answers with
   * the new id; if the identity is taken by then, it writes nothing and the caller learns of the violation.
   */
  lemma InsertMeans(s: State, c: nat, t: Ticket, id: Id, eventId: Id)
    requires c in s.callers && s.callers[c] == Missed(t) && id !in s.rows && eventId !in s.events
    ensures var s' := Next(s, Insert(c, id, eventId));
            if t.identity in s.index then s' == s.(callers := s.callers[c := Violated(t)])
            else
              && s'.rows == s.rows[id := Row(t.identity, t.call.request, t.fingerprint, t.call.now, 0, 0)]
              && s'.index == s.index[t.identity := id]
              && s'.events == s.events[eventId := id]
              && s'.callers == s.callers[c := Done(t, Created(id))]
  {
  }

  /**
   * A lookup answers with the row the identity has, and its counts of that moment, or with a conflict if the row
   * was made from another request. It writes nothing.
   */
  lemma LookupMeans(s: State, c: nat, t: Ticket, step: Step)
    requires c in s.callers
    requires (s.callers[c] == Started(t) && step == Find(c)) || (s.callers[c] == Violated(t) && step == Refind(c))
    requires IndexOk(s)
    ensures var s' := Next(s, step);
            && c in s'.callers && s' == s.(callers := s.callers[c := s'.callers[c]])
            && (t.identity !in s.index ==>
                  s'.callers[c] == if step == Find(c) then Missed(t) else Done(t, Raised))
            && (t.identity in s.index ==>
                  && var id := s.index[t.identity];
                     var r := s.rows[id];
                     s'.callers[c] == Done(t, if r.fingerprint == t.fingerprint
                                              then Existing(id, r.recipientCount, r.deliveryCount) else Conflict))
  {
  }

  /** A fanout changes nothing here but the two counts of its request. */
  lemma RecountMeans(s: State, id: Id, recipientCount: nat, deliveryCount: nat)
    requires id in s.rows
    ensures var s', r := Next(s, Recount(id, recipientCount, deliveryCount)), s.rows[id];
            && s' == s.(rows := s'.rows)
            && s'.rows == s.rows[id := Row(r.identity, r.request, r.fingerprint, r.createdAt, recipientCount,
                                           deliveryCount)]
  {
  }

  // ----- theorems over every run -----------------------------------------------------------------

  lemma Reachable(steps: seq<Step>)
    ensures Inv(Run(INITIAL, steps))
  {
    RunKeepsInv(INITIAL, steps);
  }

  /** At most one row per identity, and exactly one outbox event per row. */
  lemma OneRowOneEvent(steps: seq<Step>)
    ensures var s := Run(INITIAL, steps);
            && (forall id, id' ::
                  id in s.rows && id' in s.rows && s.rows[id].identity == s.rows[id'].identity ==> id == id')
            && (forall id :: id in s.rows ==> exists e :: e in s.events && s.events[e] == id)
            && (forall e, e' :: e in s.events && e' in s.events && s.events[e] == s.events[e'] ==> e == e')
            && (forall e :: e in s.events ==> s.events[e] in s.rows)
  {
    Reachable(steps);
    var s := Run(INITIAL, steps);
    forall id | id in s.rows ensures exists e :: e in s.events && s.events[e] == id {
      assert s.births[id].eventId in s.events;
    }
  }

  /** Every row is what its creator asked for, and its creator was told so. */
  lemma RowsAreAsked(steps: seq<Step>, id: Id) returns (creator: nat)
    requires id in Run(INITIAL, steps).rows
    ensures var s := Run(INITIAL, steps);
            && creator in s.callers
            && var t, r := s.callers[creator].ticket, s.rows[id];
               && s.callers[creator] == Done(t, Created(id))
               && r.identity == t.identity && r.fingerprint == t.fingerprint
               && r.request == t.call.request && r.createdAt == t.call.now
  {
    Reachable(steps);
    var s := Run(INITIAL, steps);
    creator := s.births[id].caller;
    assert BornRight(s, id);
  }

  predicate Answered(s: State, c: nat) {
    c in s.callers && s.callers[c].Done?
  }

  predicate Won(s: State, c: nat) {
    Answered(s, c) && s.callers[c].answer.Created?
  }

  predicate SameIdentity(s: State, c: nat, d: nat)
    requires c in s.callers && d in s.callers
  {
    s.callers[c].ticket.identity == s.callers[d].ticket.identity
  }

  /**
   * Among all the callers of one identity, once one of them has its answer, exactly one was told "created";
   * everyone else got that row's id, or a conflict if and only if its fingerprint differs from the winner's.
   * No answer is ever the unique violation itself.
   */
  lemma OneWinner(steps: seq<Step>, c: nat) returns (winner: nat)
    requires Answered(Run(INITIAL, steps), c)
    ensures var s := Run(INITIAL, steps);
            && Won(s, winner) && SameIdentity(s, winner, c)
            && (forall d :: Won(s, d) && SameIdentity(s, d, c) ==> d == winner)
            && (Won(s, c) <==> c == winner)
            && var a := s.callers[c].answer;
               && !a.Raised?
               && (a == Conflict <==> s.callers[c].ticket.fingerprint != s.callers[winner].ticket.fingerprint)
               && (a != Conflict ==> a.id == s.callers[winner].answer.id)
  {
    Reachable(steps);
    var s := Run(INITIAL, steps);
    assert CallerOk(s, c);
    var id := s.index[s.callers[c].ticket.identity];
    assert id in s.rows;
    winner := s.births[id].caller;
    assert BornRight(s, id);
    forall d | Won(s, d) && SameIdentity(s, d, c) ensures d == winner { assert CallerOk(s, d); }
  }

  /** An answer, once given, stands, and so does the row it names. */
  lemma {:induction false} AnswersStand(s: State, steps: seq<Step>, c: nat)
    requires c in s.callers
    ensures c in Run(s, steps).callers && Run(s, steps).callers[c].ticket == s.callers[c].ticket
    ensures s.callers[c].Done? ==> Run(s, steps).callers[c] == s.callers[c]
  {
    if steps != [] {
      AnswersStand(s, steps[..|steps| - 1], c);
      AnswerStands(Run(s, steps[..|steps| - 1]), steps[|steps| - 1], c);
    }
  }

  lemma AnswerStands(s: State, step: Step, c: nat)
    requires c in s.callers
    ensures c in Next(s, step).callers && Next(s, step).callers[c].ticket == s.callers[c].ticket
    ensures s.callers[c].Done? ==> Next(s, step).callers[c] == s.callers[c]
  {
  }

  // ----- what the answers mean for the requests ----------------------------------------------------

  /** Every caller computed its identity and fingerprint as the service does. */
  predicate AllGenuine(cfg: Config, steps: seq<Step>) {
    forall i :: 0 <= i < |steps| && steps[i].Begin? ==> Genuine(cfg, steps[i].ticket)
  }

  predicate TicketsOk(cfg: Config, s: State) {
    forall c :: c in s.callers ==> Genuine(cfg, s.callers[c].ticket)
  }

  /** A step hands out no ticket but the one it begins with. */
  lemma StepTickets(s: State, step: Step, c: nat)
    requires c in Next(s, step).callers
    ensures if c in s.callers then Next(s, step).callers[c].ticket == s.callers[c].ticket
            else step.Begin? && Next(s, step).callers[c].ticket == step.ticket
  {
  }

  lemma {:induction false} TicketsGenuine(cfg: Config, steps: seq<Step>)
    requires AllGenuine(cfg, steps)
    ensures TicketsOk(cfg, Run(INITIAL, steps))
  {
    if steps != [] {
      var before := steps[..|steps| - 1];
      TicketsGenuine(cfg, before);
      var step := steps[|steps| - 1];
      forall c | c in Run(INITIAL, steps).callers ensures Genuine(cfg, Run(INITIAL, steps).callers[c].ticket) {
        StepTickets(Run(INITIAL, before), step, c);
      }
    }
  }

  lemma FingerprintsMean(cfg: Config, t: Ticket, t': Ticket)
    requires Injective(cfg.hash) && Genuine(cfg, t) && Genuine(cfg, t')
    ensures t.fingerprint == t'.fingerprint <==> SameRequest(t.call.request, t'.call.request)
  {
    FingerprintExact(cfg.hash, t.call.request, t'.call.request);
  }

  /**
   * Without a key, two calls share an identity exactly if they ask for the same thing, from one source, in one
   * window.
   */
  lemma FallbackIdentitiesMean(cfg: Config, t: Ticket, t': Ticket)
    requires Injective(cfg.hash) && Genuine(cfg, t) && Genuine(cfg, t') && t.call.key.None? && t'.call.key.None?
    ensures t.identity == t'.identity <==>
            && t.call.source == t'.call.source
            && WindowStart(t.call.now, cfg.window) == WindowStart(t'.call.now, cfg.window)
            && SameRequest(t.call.request, t'.call.request)
  {
    FallbackExact(cfg.hash, t.call.request, t.call.source, t.call.now,
                  t'.call.request, t'.call.source, t'.call.now, cfg.window);
  }

  /**
   * Two calls share an identity exactly if they come from one source and either give the same key, or give none and
   * ask for the same thing in one window.
   */
  lemma IdentitiesMean(cfg: Config, t: Ticket, t': Ticket)
    requires Injective(cfg.hash) && Genuine(cfg, t) && Genuine(cfg, t')
    ensures t.identity == t'.identity <==>
            && t.call.source == t'.call.source && t.call.key == t'.call.key
            && (t.call.key.None? ==>
                  && WindowStart(t.call.now, cfg.window) == WindowStart(t'.call.now, cfg.window)
                  && SameRequest(t.call.request, t'.call.request))
  {
    if t.call.key.None? && t'.call.key.None? { FallbackIdentitiesMean(cfg, t, t'); }
  }

  /** A conflict is reported exactly when the winner of the identity asked for something else. */
  lemma ConflictMeans(cfg: Config, steps: seq<Step>, c: nat) returns (winner: nat)
    requires Injective(cfg.hash) && AllGenuine(cfg, steps) && Answered(Run(INITIAL, steps), c)
    ensures var s := Run(INITIAL, steps);
            && Won(s, winner) && SameIdentity(s, winner, c)
            && (forall d :: Won(s, d) && SameIdentity(s, d, c) ==> d == winner)
            && (s.callers[c].answer == Conflict <==>
                !SameRequest(s.callers[c].ticket.call.request, s.callers[winner].ticket.call.request))
  {
    winner := OneWinner(steps, c);
    TicketsGenuine(cfg, steps);
    FingerprintsMean(cfg, Run(INITIAL, steps).callers[c].ticket, Run(INITIAL, steps).callers[winner].ticket);
  }

  lemma KeyedApart(cfg: Config, t: Ticket, t': Ticket)
    requires Genuine(cfg, t) && Genuine(cfg, t') && t.identity == t'.identity
    ensures t.call.key == t'.call.key
  {
  }

  /** A call without a key is never told that there is a conflict. */
  lemma FallbackNeverConflicts(cfg: Config, steps: seq<Step>, c: nat)
    requires Injective(cfg.hash) && AllGenuine(cfg, steps) && Answered(Run(INITIAL, steps), c)
    requires Run(INITIAL, steps).callers[c].ticket.call.key.None?
    ensures Run(INITIAL, steps).callers[c].answer != Conflict
  {
    var winner := OneWinner(steps, c);
    TicketsGenuine(cfg, steps);
    var t, w := Run(INITIAL, steps).callers[c].ticket, Run(INITIAL, steps).callers[winner].ticket;
    KeyedApart(cfg, t, w);
    FallbackIdentitiesMean(cfg, t, w);
    FingerprintsMean(cfg, t, w);
  }
}
