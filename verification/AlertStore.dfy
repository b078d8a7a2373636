/**
 The alert store: claim, load, commit of the evaluator, and the acknowledge, resolve, edit and
 replace operations that rewrite the same rows.

 Each operation is modelled as its reads and its one conditional transaction, taken as separate
 steps that interleave with every other operation's steps.
 */
module AlertStore {
  import opened Wrappers
  import opened AlertDecide

  const CADENCE := 60

  // ---------------------------------------------------------------- rows

  datatype RuleRow = RuleRow(
    version: int, revision: int, enabled: bool, replaced: bool,
    duration: int, cooldown: nat, channels: seq<Channel>,
    owner: Option<nat>, leaseExpires: Option<int>, epoch: int, nextDue: Option<int>)

  datatype StateRow = StateRow(revision: int, state: State)

  datatype EventRow = EventRow(status: EventStatus, version: int, source: Option<EventId>, indexed: bool)

  datatype OutboxRow = OutboxRow(status: OutboxStatus, dependsOn: Option<OutboxId>)

  datatype Db = Db(
    rules: map<nat, RuleRow>, states: map<nat, StateRow>,
    events: map<EventId, EventRow>, outboxes: map<OutboxId, OutboxRow>)

  /** What a successful claim returns to the evaluator, together with the slot it is for. */
  datatype Work = Work(id: nat, version: int, revision: int, duration: int, cooldown: nat, channels: seq<Channel>,
                       owner: nat, epoch: int, due: int, slot: int)
  {
    function ToRule(): Rule { Rule(id, version, revision, duration, cooldown, channels) }
  }

  // ---------------------------------------------------------------- evaluator

  /** A missing lease epoch reads as 0; `RemoveSchedule` makes it missing again. */
  predicate CanClaim(db: Db, r: nat, owner: nat, now: int, slot: int) {
    && r in db.rules && db.rules[r].enabled && !db.rules[r].replaced
    && db.rules[r].nextDue.Some? && db.rules[r].nextDue.value <= slot
    && (db.rules[r].owner.None? || db.rules[r].leaseExpires.None? || db.rules[r].leaseExpires.value <= now
        || db.rules[r].owner == Some(owner))
  }

  function AfterClaim(db: Db, r: nat, owner: nat, expires: int): Db
    requires r in db.rules
  {
    var leased := db.rules[r].(owner := Some(owner), leaseExpires := Some(expires), epoch := db.rules[r].epoch + 1);
    db.(rules := db.rules[r := leased])
  }

  function ClaimedWork(db: Db, r: nat, owner: nat, slot: int): Work
    requires r in db.rules && db.rules[r].nextDue.Some?
  {
    var row := db.rules[r];
    Work(r, row.version, row.revision, row.duration, row.cooldown, row.channels, owner, row.epoch + 1,
         row.nextDue.value, slot)
  }

  function MissedSlots(due: int, slot: int): nat {
    if slot <= due then 0 else (slot - due) / CADENCE
  }

  function PriorState(prior: Option<StateRow>): State {
    if prior.Some? then prior.value.state else ZERO_STATE
  }

  predicate FenceHolds(db: Db, w: Work) {
    && w.id in db.rules
    && db.rules[w.id].version == w.version && db.rules[w.id].revision == w.revision
    && db.rules[w.id].owner == Some(w.owner) && db.rules[w.id].epoch == w.epoch
    && db.rules[w.id].enabled && !db.rules[w.id].replaced
  }

  /** The state put succeeds on the exact state that was read: its revision, or its absence. */
  predicate StateHolds(db: Db, r: nat, prior: Option<StateRow>) {
    match prior
    case None => r !in db.states
    case Some(p) => r in db.states && db.states[r].revision == p.revision
  }

  predicate Unresolved(db: Db, e: EventId) { e in db.events && db.events[e].status != Resolved }

  predicate EventHolds(db: Db, d: Decision) {
    && (d.Opens() ==> d.event.Some? && d.event.value !in db.events)
    && (d.transition == Recovered ==> d.resolved.Some? && Unresolved(db, d.resolved.value))
    && (d.transition == NoTransition && d.next.mode == Active ==>
          d.next.activeEvent.Some? && Unresolved(db, d.next.activeEvent.value))
  }

  /** No outbox exists yet, and no two puts of the transaction touch the same item. */
  predicate OutboxesHold(db: Db, d: Decision) {
    && (forall i :: 0 <= i < |d.outboxes| ==> d.outboxes[i].id !in db.outboxes)
    && (forall i, j :: 0 <= i < j < |d.outboxes| ==> d.outboxes[i].id != d.outboxes[j].id)
  }

  predicate CanCommit(db: Db, w: Work, prior: Option<StateRow>, d: Decision) {
    FenceHolds(db, w) && StateHolds(db, w.id, prior) && EventHolds(db, d) && OutboxesHold(db, d)
  }

  function CommittedEvents(events: map<EventId, EventRow>, d: Decision): map<EventId, EventRow> {
    if d.Opens() && d.event.Some? && d.next.activeStatus.Some? then
      events[d.event.value :=
             EventRow(d.next.activeStatus.value, 1, d.next.suppressionSource, d.next.activeStatus.value == Open)]
    else if d.transition == Recovered && d.resolved.Some? && d.resolved.value in events then
      events[d.resolved.value := ResolvedEvent(events[d.resolved.value])]
    else events
  }

  function PutOutboxes(outboxes: map<OutboxId, OutboxRow>, puts: seq<OutboxDecision>): map<OutboxId, OutboxRow> {
    if puts == [] then outboxes
    else
      var last := puts[|puts| - 1];
      PutOutboxes(outboxes, puts[..|puts| - 1])[last.id := OutboxRow(last.status, last.dependsOn)]
  }

  function AfterCommit(db: Db, w: Work, prior: Option<StateRow>, d: Decision): Db
    requires w.id in db.rules
  {
    Db(db.rules[w.id := db.rules[w.id].(nextDue := Some(w.slot + CADENCE), owner := None, leaseExpires := None)],
       db.states[w.id := StateRow(if prior.Some? then prior.value.revision + 1 else 1, d.next)],
       CommittedEvents(db.events, d),
       PutOutboxes(db.outboxes, d.outboxes))
  }

  // ---------------------------------------------------------------- users

  predicate CanAcknowledge(db: Db, e: EventId, version: int) {
    e in db.events && db.events[e].version == version && db.events[e].status == Open
  }

  function AfterAcknowledge(db: Db, e: EventId): Db
    requires e in db.events
  {
    db.(events := db.events[e := db.events[e].(status := Acknowledged, version := db.events[e].version + 1)])
  }

  function ResolvedEvent(row: EventRow): EventRow {
    row.(status := Resolved, version := row.version + 1, indexed := false)
  }

  /** `_resolved_state_put`: a state write joins the transaction only if the state read names the
      event as its active incident. */
  function StateToResolve(db: Db, e: EventId): Option<StateRow> {
    if e.rule in db.states && db.states[e.rule].state.mode == Active && db.states[e.rule].state.activeEvent == Some(e)
    then Some(db.states[e.rule]) else None
  }

  predicate CanResolve(db: Db, e: EventId, version: int, op: Option<StateRow>) {
    && Unresolved(db, e) && db.events[e].version == version
    && (op.Some? ==> e.rule in db.states && db.states[e.rule].revision == op.value.revision)
  }

  function AfterResolve(db: Db, e: EventId, op: Option<StateRow>): Db
    requires e in db.events
  {
    db.(events := db.events[e := ResolvedEvent(db.events[e])],
        states := if op.None? then db.states
                  else db.states[e.rule := StateRow(op.value.revision + 1, ResetState(op.value.state))])
  }

  // ---------------------------------------------------------------- rule edits

  /** The fields of a rule that users set. */
  datatype Settings = Settings(enabled: bool, duration: int, cooldown: nat, channels: seq<Channel>)

  /** The fields an `update_rule` request names; the others stay as they are stored. */
  datatype Changes = Changes(
    enabled: Option<bool>, duration: Option<int>, cooldown: Option<nat>, channels: Option<seq<Channel>>)

  /** One `update_rule` or `replace_rule` request.  The rule it was computed from may be stale, so the
      revision and the enabled flag that were read, and whether the change counts as semantic, are taken
      as given.  `settings` are those of the replacement. */
  datatype Edit = Edit(
    id: nat, expectedVersion: int, seenRevision: int, seenEnabled: bool, semantic: bool, replacing: bool,
    changes: Changes, due: int, replacement: nat, settings: Settings)

  function Or<T>(change: Option<T>, stored: T): T { if change.Some? then change.value else stored }

  /** Whether the rule, as it was read and with the changes applied, is to be scheduled. */
  predicate Schedules(edit: Edit) { Or(edit.changes.enabled, edit.seenEnabled) }

  predicate RewritesState(edit: Edit) { edit.semantic || edit.replacing }

  /** The state a semantic edit leaves behind, when it has to write one. */
  predicate AdminWrites(prior: StateRow) {
    prior.state.mode == Pending || (prior.state.activeEvent.Some? && prior.state.mode == Active)
  }

  predicate AdminHolds(db: Db, r: nat, prior: Option<StateRow>, seenRevision: int) {
    && StateHolds(db, r, prior)
    && (prior.Some? && prior.value.state.mode == Active && prior.value.state.activeEvent.Some? ==>
          Unresolved(db, prior.value.state.activeEvent.value)
          && prior.value.state.activeEvent.value.revision == seenRevision)
  }

  function AfterAdmin(db: Db, r: nat, prior: Option<StateRow>): Db {
    if prior.None? || !AdminWrites(prior.value) then db
    else
      var states := db.states[r := StateRow(prior.value.revision + 1, ResetState(prior.value.state))];
      var events := if prior.value.state.mode == Active && prior.value.state.activeEvent.value in db.events
                    then db.events[prior.value.state.activeEvent.value :=
                                   ResolvedEvent(db.events[prior.value.state.activeEvent.value])]
                    else db.events;
      db.(states := states, events := events)
  }

  function NewRule(s: Settings, due: int): RuleRow {
    RuleRow(1, 1, s.enabled, false, s.duration, s.cooldown, s.channels, None, None, 0,
            if s.enabled then Some(due) else None)
  }

  function EditedRule(row: RuleRow, edit: Edit): RuleRow {
    if edit.replacing then
      row.(version := edit.expectedVersion + 1, revision := edit.seenRevision + 1, enabled := false, replaced := true,
           owner := None, leaseExpires := None, epoch := 0, nextDue := None)
    else
      var next := row.(
        version := edit.expectedVersion + 1, revision := edit.seenRevision + (if edit.semantic then 1 else 0),
        enabled := Or(edit.changes.enabled, row.enabled), duration := Or(edit.changes.duration, row.duration),
        cooldown := Or(edit.changes.cooldown, row.cooldown), channels := Or(edit.changes.channels, row.channels));
      if edit.semantic && Schedules(edit) then next.(owner := None, leaseExpires := None, nextDue := Some(edit.due))
      else if edit.semantic then next.(owner := None, leaseExpires := None, epoch := 0, nextDue := None)
      else next
  }

  predicate CanEdit(db: Db, edit: Edit, prior: Option<StateRow>) {
    && edit.id in db.rules && db.rules[edit.id].version == edit.expectedVersion && !db.rules[edit.id].replaced
    && (RewritesState(edit) ==> AdminHolds(db, edit.id, prior, edit.seenRevision))
    && (edit.replacing ==> edit.replacement !in db.rules)
  }

  function AfterEdit(db: Db, edit: Edit, prior: Option<StateRow>): Db
    requires edit.id in db.rules
  {
    var next := if RewritesState(edit) then AfterAdmin(db, edit.id, prior) else db;
    var rules := db.rules[edit.id := EditedRule(db.rules[edit.id], edit)];
    next.(rules := if edit.replacing
                   then rules[edit.replacement := NewRule(edit.settings, edit.due)]
                   else rules)
  }

  // ---------------------------------------------------------------- clients and steps

  datatype Client =
    | Claimed(work: Work)
    | Loaded(work: Work, prior: Option<StateRow>)
    | ResolveReadEvent(event: EventId, version: int)
    | ResolveReadState(event: EventId, version: int, op: Option<StateRow>)
    | EditReadRule(edit: Edit)
    | EditReadState(edit: Edit, prior: Option<StateRow>)

  datatype World = World(db: Db, clients: map<nat, Client>)

  datatype Action =
    | CreateRule(r: nat, settings: Settings, due: int)
    | Reschedule(r: nat, due: int)
    | Claim(c: nat, r: nat, owner: nat, now: int, expires: int, slot: int)
    | LoadState(c: nat)
    | Commit(c: nat, quality: Quality, breached: bool, value: Option<real>)
    | Acknowledge(e: EventId, version: int)
    | ReadEvent(c: nat, e: EventId, version: int)
    | ReadState(c: nat)
    | CommitResolve(c: nat)
    | BeginEdit(c: nat, edit: Edit)
    | ReadEditState(c: nat)
    | CommitEdit(c: nat)
    | IndexEvent(e: EventId)

  function EvaluationOf(w: Work, quality: Quality, breached: bool, value: Option<real>): Evaluation {
    Evaluation(w.slot, quality, breached, value, MissedSlots(w.due, w.slot)).Normalized()
  }

  function DecisionOf(w: Work, prior: Option<StateRow>, quality: Quality, breached: bool, value: Option<real>): Decision
    requires Coherent(PriorState(prior))
  {
    Decide(w.ToRule(), PriorState(prior), EvaluationOf(w, quality, breached, value), CADENCE)
  }

  function StateOf(db: Db, r: nat): Option<StateRow> { if r in db.states then Some(db.states[r]) else None }

  /** A step can be taken; the conditions of its write are evaluated when it is taken. */
  predicate Enabled(w: World, a: Action) {
    match a
    case Claim(_, _, _, _, _, slot) => slot > 0
    case LoadState(c) => c in w.clients && w.clients[c].Claimed?
    case Commit(c, _, _, _) => c in w.clients && w.clients[c].Loaded? && Coherent(PriorState(w.clients[c].prior))
    case ReadState(c) => c in w.clients && w.clients[c].ResolveReadEvent?
    case CommitResolve(c) => c in w.clients && w.clients[c].ResolveReadState?
    case ReadEditState(c) => c in w.clients && w.clients[c].EditReadRule?
    case CommitEdit(c) => c in w.clients && w.clients[c].EditReadState?
    case _ => true
  }

  /** The table after a step; a write whose condition fails changes nothing. */
  function NextDb(w: World, a: Action): Db
    requires Enabled(w, a)
  {
    var db := w.db;
    match a
    case CreateRule(r, settings, due) =>
      if r in db.rules then db else db.(rules := db.rules[r := NewRule(settings, due)])
    case Reschedule(r, due) =>
      if r in db.rules && db.rules[r].enabled && !db.rules[r].replaced
      then db.(rules := db.rules[r := db.rules[r].(nextDue := Some(due))]) else db
    case Claim(_, r, owner, now, expires, slot) =>
      if CanClaim(db, r, owner, now, slot) then AfterClaim(db, r, owner, expires) else db
    case Commit(c, quality, breached, value) =>
      var l := w.clients[c];
      var d := DecisionOf(l.work, l.prior, quality, breached, value);
      if CanCommit(db, l.work, l.prior, d) then AfterCommit(db, l.work, l.prior, d) else db
    case Acknowledge(e, version) => if CanAcknowledge(db, e, version) then AfterAcknowledge(db, e) else db
    case CommitResolve(c) =>
      var q := w.clients[c];
      if CanResolve(db, q.event, q.version, q.op) then AfterResolve(db, q.event, q.op) else db
    case CommitEdit(c) =>
      var q := w.clients[c];
      if CanEdit(db, q.edit, q.prior) then AfterEdit(db, q.edit, q.prior) else db
    case IndexEvent(e) =>
      if Unresolved(db, e) && db.events[e].status != Suppressed
      then db.(events := db.events[e := db.events[e].(indexed := true)]) else db
    case _ => db
  }

  /** What the step leaves the caller with: the next read's result, or nothing once it is done. */
  function NextClients(w: World, a: Action): map<nat, Client>
    requires Enabled(w, a)
  {
    match a
    case Claim(c, r, owner, now, _, slot) =>
      if CanClaim(w.db, r, owner, now, slot) then w.clients[c := Claimed(ClaimedWork(w.db, r, owner, slot))]
      else w.clients - {c}
    case LoadState(c) => w.clients[c := Loaded(w.clients[c].work, StateOf(w.db, w.clients[c].work.id))]
    case Commit(c, _, _, _) => w.clients - {c}
    case ReadEvent(c, e, version) =>
      if Unresolved(w.db, e) then w.clients[c := ResolveReadEvent(e, version)] else w.clients - {c}
    case ReadState(c) =>
      w.clients[c := ResolveReadState(w.clients[c].event, w.clients[c].version,
                                      StateToResolve(w.db, w.clients[c].event))]
    case CommitResolve(c) => w.clients - {c}
    case BeginEdit(c, edit) => w.clients[c := EditReadRule(edit)]
    case ReadEditState(c) => w.clients[c := EditReadState(w.clients[c].edit, StateOf(w.db, w.clients[c].edit.id))]
    case CommitEdit(c) => w.clients - {c}
    case _ => w.clients
  }

  function Apply(w: World, a: Action): World
    requires Enabled(w, a)
  {
    World(NextDb(w, a), NextClients(w, a))
  }

  predicate Legal(w: World, actions: seq<Action>)
    decreases |actions|
  {
    actions == [] || (Enabled(w, actions[0]) && Legal(Apply(w, actions[0]), actions[1..]))
  }

  function Exec(w: World, actions: seq<Action>): World
    requires Legal(w, actions)
    decreases |actions|
  {
    if actions == [] then w else Exec(Apply(w, actions[0]), actions[1..])
  }

  const EMPTY := World(Db(map[], map[], map[], map[]), map[])

  // ---------------------------------------------------------------- what a decision does

  /** The shape of every decision, read off the state it was made from. */
  lemma DecisionShape(rule: Rule, s: State, e: Evaluation, cadence: int)
    requires cadence > 0 && Coherent(s)
    ensures var d := Decide(rule, s, e, cadence);
            && (d.Opens() ==>
                  && s.mode != Active && d.event == Some(EventId(rule.id, rule.version, rule.revision, e.slot))
                  && d.next.mode == Active && d.next.activeEvent == d.event
                  && (d.transition == Opened <==> s.cooldownUntil <= e.slot)
                  && d.next.activeStatus == Some(if d.transition == Opened then Open else Suppressed))
            && (d.transition == Opened ==>
                  && d.next.suppressionSource == None && d.next.lastNotified == d.event
                  && d.next.cooldownUntil == e.slot + rule.cooldown
                  && d.next.openingOutboxes == map c | c in rule.channels :: OutboxId(d.event.value, c, Opening))
            && (d.transition == SuppressedOpening ==>
                  && d.next.suppressionSource == s.lastNotified && d.next.lastNotified == s.lastNotified
                  && d.next.cooldownUntil == s.cooldownUntil && d.next.openingOutboxes == map[] && d.outboxes == [])
            && (d.transition == Recovered ==>
                  && s.mode == Active && d.resolved == s.activeEvent && d.next.mode == Healthy
                     && d.next.activeEvent == None
                  && d.next.openingOutboxes == map[])
            && (d.transition == NoTransition ==>
                  && d.outboxes == [] && (d.next.mode == Active <==> s.mode == Active)
                  && d.next.activeEvent == s.activeEvent && d.next.activeStatus == s.activeStatus
                  && d.next.openingOutboxes == s.openingOutboxes)
            && (d.transition == NoTransition || d.transition == Recovered ==>
                  d.next.cooldownUntil == s.cooldownUntil && d.next.lastNotified == s.lastNotified)
            && d.next.mode != Unset
  {
  }

  /** The outboxes of a decision: one opening per channel of a notified opening, one recovery per
      opening outbox of a notified incident, none otherwise. */
  lemma DecisionOutboxes(rule: Rule, s: State, e: Evaluation, cadence: int)
    requires cadence > 0 && Coherent(s)
    ensures var d := Decide(rule, s, e, cadence);
            && (d.transition == Opened ==>
                  |d.outboxes| == |rule.channels| &&
                  forall i :: 0 <= i < |d.outboxes| ==>
                    d.outboxes[i] == OpeningDecision(d.event.value, rule.channels[i]))
            && (d.transition == Recovered ==>
                  var channels := SortedChannels(s.openingOutboxes);
                  if s.activeStatus == Some(Suppressed) then d.outboxes == []
                  else |d.outboxes| == |channels| &&
                       forall i :: 0 <= i < |d.outboxes| ==>
                         d.outboxes[i] == RecoveryDecision(s.activeEvent.value, channels[i],
                                                           s.openingOutboxes[channels[i]]))
  {
  }
}
