/**
 The backfill that gives notification outboxes and deliveries their relay fields.  It reads a row,
 classifies it, and writes under a condition that repeats what it read.  The model keeps the types of
 the stored attributes, because a condition compares types as well as values.
 */
module RelayBackfill {
  import opened Wrappers

  datatype WorkKind = Intent | Dependency | Delivery

  /** Strings.  Decimal numerals, canonical timestamps and index keys are told apart from other words;
      the previous layout of a sort key had the timestamp before the work kind. */
  datatype Text =
    | Word(letters: string)
    | Numeral(number: int)
    | Stamp(time: int)
    | KindText(kind: WorkKind)
    | PartitionKey(bucket: nat)
    | SortKey(kind: WorkKind, time: int, tenant: Text, item: Text)
    | PreviousSortKey(time: int, kind: WorkKind, tenant: Text, item: Text)

  /** A stored attribute: a string, a number, null, or anything else. */
  datatype Attr = S(text: Text) | N(number: int) | Null | Other

  const EMPTY := Word("")
  const EMAIL := Word("email")
  const TELEGRAM := Word("telegram")
  const PENDING := Word("pending")
  const EXPANDED := Word("expanded")
  const DEFERRED := Word("deferred_unsupported_channel")
  const EMAIL_SCHEMA := 1
  const TELEGRAM_SCHEMA := 2

  datatype Outbox = Outbox(
    sk: Text, tenantId: Option<Attr>, outboxId: Option<Attr>, channel: Option<Attr>, kind: Option<Attr>,
    status: Option<Attr>, createdAt: Option<Attr>, schemaVersion: Option<Attr>, expansion: Option<Attr>,
    availableAt: Option<Attr>, workKind: Option<Attr>, relayPk: Option<Attr>, relaySk: Option<Attr>)

  datatype DeliveryRow = DeliveryRow(
    sk: Text, entityType: Option<Attr>, tenantId: Option<Attr>, outboxId: Option<Attr>, deliveryId: Option<Attr>,
    state: Option<Attr>, revision: Option<Attr>, schemaVersion: Option<Attr>, availableAt: Option<Attr>,
    workKind: Option<Attr>, relayPk: Option<Attr>, relaySk: Option<Attr>)

  /** `telegram` is the target mode that enables Telegram relaying.  Whether a stored number decodes
      into a string field or fails is left open, and the bucket hash is any function. */
  datatype Context = Context(tenant: Text, telegram: bool, numbersAsText: bool, bucket: (WorkKind, Text, Text) -> nat)

  datatype UpdateKind = UpdateEmail | UpdateWorkKind | UpdateRelayIndex | DeferTelegram | EnableTelegram

  datatype Migration = Migration(
    tenant: Text, outbox: Text, channel: Text, status: Text, createdAt: Text,
    expansion: Text, availableAt: Text, workKind: Text, relayPk: Text, relaySk: Text, previousSk: Text)

  datatype Verdict = Failed | Noop | Conflict | Update(kind: UpdateKind, migration: Migration)

  // Reading attributes

  /** A missing or null attribute reads as the empty string. */
  function ReadText(ctx: Context, a: Option<Attr>): Option<Text> {
    match a
    case None => Some(EMPTY)
    case Some(Null) => Some(EMPTY)
    case Some(S(t)) => Some(t)
    case Some(N(n)) => if ctx.numbersAsText then Some(Numeral(n)) else None
    case Some(Other) => None
  }

  function ReadNumber(a: Option<Attr>): Option<int> {
    match a
    case None => Some(0)
    case Some(Null) => Some(0)
    case Some(N(n)) => Some(n)
    case _ => None
  }

  predicate Invalid(t: Text) { t.Word? && (t.letters == "" || '\0' in t.letters) }

  predicate Is(a: Option<Attr>, t: Text) { a == Some(S(t)) }

  predicate IsNumber(a: Option<Attr>, n: int) { a == Some(N(n)) }

  function WorkOf(kind: Text, status: Text): Option<WorkKind> {
    if kind == Word("opening") && status == Word("ready") then Some(Intent)
    else if kind == Word("recovery") && status == Word("blocked") then Some(Dependency)
    else None
  }

  // Outboxes

  predicate HasRelayField(o: Outbox) {
    o.schemaVersion.Some? || o.expansion.Some? || o.availableAt.Some? || o.workKind.Some? || o.relayPk.Some?
    || o.relaySk.Some?
  }

  predicate Canonical(o: Outbox, m: Migration, schema: int) {
    && IsNumber(o.schemaVersion, schema) && Is(o.expansion, m.expansion) && Is(o.availableAt, m.availableAt)
    && Is(o.workKind, m.workKind) && Is(o.relayPk, m.relayPk) && Is(o.relaySk, m.relaySk)
  }

  predicate Expanded(o: Outbox, work: WorkKind, schema: int) {
    && IsNumber(o.schemaVersion, schema) && Is(o.expansion, EXPANDED) && Is(o.workKind, KindText(work))
    && o.availableAt.None? && o.relayPk.None? && o.relaySk.None?
  }

  predicate WithoutWorkKind(o: Outbox, m: Migration) {
    && o.workKind.None? && IsNumber(o.schemaVersion, EMAIL_SCHEMA) && Is(o.expansion, m.expansion)
    && Is(o.availableAt, m.availableAt) && Is(o.relayPk, m.relayPk) && Is(o.relaySk, m.relaySk)
  }

  predicate PreviousLayout(o: Outbox, m: Migration) {
    && IsNumber(o.schemaVersion, EMAIL_SCHEMA) && Is(o.expansion, m.expansion) && Is(o.availableAt, m.availableAt)
    && Is(o.workKind, m.workKind) && Is(o.relayPk, m.relayPk) && Is(o.relaySk, m.previousSk)
  }

  predicate CanonicalTelegram(o: Outbox) {
    && Is(o.expansion, DEFERRED) && o.schemaVersion.None? && o.availableAt.None? && o.workKind.None?
    && o.relayPk.None? && o.relaySk.None?
  }

  /** The decoded columns of an outbox. */
  datatype Fields = Fields(tenant: Text, outbox: Text, channel: Text, kind: Text, status: Text, createdAt: Text)

  function Decode(ctx: Context, o: Outbox): Option<Fields> {
    var tenant, outbox, channel := ReadText(ctx, o.tenantId), ReadText(ctx, o.outboxId), ReadText(ctx, o.channel);
    var kind, status, createdAt := ReadText(ctx, o.kind), ReadText(ctx, o.status), ReadText(ctx, o.createdAt);
    if tenant.Some? && outbox.Some? && channel.Some? && kind.Some? && status.Some? && createdAt.Some?
       && tenant.value == ctx.tenant && outbox.value == o.sk && !Invalid(outbox.value)
    then Some(Fields(tenant.value, outbox.value, channel.value, kind.value, status.value, createdAt.value))
    else None
  }

  function Deferral(f: Fields): Migration {
    Migration(f.tenant, f.outbox, f.channel, f.status, f.createdAt, DEFERRED, EMPTY, EMPTY, EMPTY, EMPTY, EMPTY)
  }

  function Pending(ctx: Context, f: Fields, work: WorkKind): Migration
    requires f.createdAt.Stamp?
  {
    Migration(f.tenant, f.outbox, f.channel, f.status, f.createdAt, PENDING, f.createdAt, KindText(work),
              PartitionKey(ctx.bucket(work, f.tenant, f.outbox)),
              SortKey(work, f.createdAt.time, f.tenant, f.outbox),
              PreviousSortKey(f.createdAt.time, work, f.tenant, f.outbox))
  }

  /** Both Telegram branches accept the same rows as already relayed. */
  predicate TelegramRelayed(ctx: Context, o: Outbox, f: Fields, work: WorkKind)
    requires f.createdAt.Stamp?
  {
    Canonical(o, Pending(ctx, f, work), TELEGRAM_SCHEMA) || Expanded(o, work, TELEGRAM_SCHEMA)
  }

  function ClassifyTelegramTarget(ctx: Context, o: Outbox, f: Fields): Verdict {
    if f.channel != TELEGRAM then Noop
    else
      var work := WorkOf(f.kind, f.status);
      if work.None? || !f.createdAt.Stamp? then Failed
      else if TelegramRelayed(ctx, o, f, work.value) then Noop
      else if !HasRelayField(o) || CanonicalTelegram(o) then Update(EnableTelegram, Pending(ctx, f, work.value))
      else Conflict
  }

  function ClassifyEmail(ctx: Context, o: Outbox, f: Fields): Verdict {
    var work := WorkOf(f.kind, f.status);
    var unusable := if HasRelayField(o) then Conflict else Failed;
    if work.None? then unusable
    else if Expanded(o, work.value, EMAIL_SCHEMA) then Noop
    else if !f.createdAt.Stamp? then unusable
    else
      var m := Pending(ctx, f, work.value);
      if !HasRelayField(o) then Update(UpdateEmail, m)
      else if Canonical(o, m, EMAIL_SCHEMA) then Noop
      else if WithoutWorkKind(o, m) then Update(UpdateWorkKind, m)
      else if PreviousLayout(o, m) then Update(UpdateRelayIndex, m)
      else Conflict
  }

  function ClassifyDefault(ctx: Context, o: Outbox, f: Fields): Verdict {
    if o.schemaVersion.Some? && !IsNumber(o.schemaVersion, EMAIL_SCHEMA) then Conflict
    else if f.channel == TELEGRAM then
      if !HasRelayField(o) then Update(DeferTelegram, Deferral(f))
      else if CanonicalTelegram(o) then Noop
      else Conflict
    else if f.channel != EMAIL then (if HasRelayField(o) then Conflict else Failed)
    else ClassifyEmail(ctx, o, f)
  }

  function Classify(ctx: Context, o: Outbox): Verdict {
    var fields := Decode(ctx, o);
    if fields.None? then Failed
    else
      var f := fields.value;
      if ctx.telegram then ClassifyTelegramTarget(ctx, o, f)
      else if f.channel == TELEGRAM && IsNumber(o.schemaVersion, TELEGRAM_SCHEMA) then
        var work := WorkOf(f.kind, f.status);
        if work.None? || !f.createdAt.Stamp? then Failed
        else if TelegramRelayed(ctx, o, f, work.value) then Noop
        else ClassifyDefault(ctx, o, f)
      else ClassifyDefault(ctx, o, f)
  }

  /** The part of every condition that repeats the identity, status and age of the outbox. */
  predicate SameOutbox(o: Outbox, m: Migration) {
    && Is(o.tenantId, m.tenant) && Is(o.outboxId, m.outbox) && Is(o.channel, m.channel)
    && Is(o.status, m.status) && Is(o.createdAt, m.createdAt)
  }

  predicate Admits(o: Outbox, kind: UpdateKind, m: Migration) {
    && SameOutbox(o, m)
    && match kind
       case UpdateEmail | DeferTelegram => !HasRelayField(o)
       case EnableTelegram =>
         && o.schemaVersion.None? && (o.expansion.None? || Is(o.expansion, DEFERRED)) && o.availableAt.None?
         && o.workKind.None? && o.relayPk.None? && o.relaySk.None?
       case UpdateWorkKind => WithoutWorkKind(o, m)
       case UpdateRelayIndex => PreviousLayout(o, m)
  }

  function Relayed(o: Outbox, m: Migration, schema: int): Outbox {
    o.(schemaVersion := Some(N(schema)), expansion := Some(S(m.expansion)), availableAt := Some(S(m.availableAt)),
       workKind := Some(S(m.workKind)), relayPk := Some(S(m.relayPk)), relaySk := Some(S(m.relaySk)))
  }

  function Written(o: Outbox, kind: UpdateKind, m: Migration): Outbox {
    match kind
    case UpdateEmail => Relayed(o, m, EMAIL_SCHEMA)
    case EnableTelegram => Relayed(o, m, TELEGRAM_SCHEMA)
    case DeferTelegram => o.(expansion := Some(S(m.expansion)))
    case UpdateWorkKind => o.(workKind := Some(S(m.workKind)))
    case UpdateRelayIndex => o.(relaySk := Some(S(m.relaySk)))
  }

  predicate IsString(a: Option<Attr>) { a.Some? && a.value.S? }

  /** The columns a condition repeats are stored as strings. */
  predicate Typed(o: Outbox) {
    IsString(o.tenantId) && IsString(o.outboxId) && IsString(o.status) && IsString(o.createdAt)
  }

  /** The conditional write a classification asks for is accepted on the unchanged row exactly when
      tenant, outbox, status and creation time are stored as strings. */
  lemma UpdateIsAccepted(ctx: Context, o: Outbox)
    requires Classify(ctx, o).Update?
    ensures var v := Classify(ctx, o);
            Admits(o, v.kind, v.migration) <==> Typed(o)
  {
  }

  /** What only a status or creation time of another type can break: deferring a Telegram outbox. */
  lemma OnlyDeferralNeedsTypes(ctx: Context, o: Outbox)
    requires Classify(ctx, o).Update? && !ctx.numbersAsText && !Invalid(ctx.tenant)
    ensures Classify(ctx, o).kind != DeferTelegram ==> Typed(o)
  {
  }

  /** An accepted write leaves a row that needs nothing more. */
  lemma UpdateSettles(ctx: Context, o: Outbox)
    requires Classify(ctx, o).Update? && Typed(o)
    ensures var v := Classify(ctx, o);
            Classify(ctx, Written(o, v.kind, v.migration)) == Noop
  {
    var v := Classify(ctx, o);
    var next := Written(o, v.kind, v.migration);
    assert Decode(ctx, next) == Decode(ctx, o);
  }

  /** A Telegram outbox without a status is offered an update that is then refused. */
  lemma MissingStatusIsRefused(bucket: (WorkKind, Text, Text) -> nat)
    ensures var ctx := Context(Word("t"), false, false, bucket);
            var o := Outbox(Word("o"), Some(S(Word("t"))), Some(S(Word("o"))), Some(S(TELEGRAM)),
                            Some(S(Word("opening"))),
                            None, Some(S(Stamp(0))), None, None, None, None, None, None);
            var v := Classify(ctx, o);
            v.Update? && v.kind == DeferTelegram && !Admits(o, v.kind, v.migration)
  {
  }

  function Settle(ctx: Context, o: Outbox): Outbox {
    var v := Classify(ctx, o);
    if v.Update? && Admits(o, v.kind, v.migration) then Written(o, v.kind, v.migration) else o
  }

  /** One round of the backfill is enough: a second one changes nothing. */
  lemma SettleIsIdempotent(ctx: Context, o: Outbox)
    ensures Settle(ctx, Settle(ctx, o)) == Settle(ctx, o)
    ensures Typed(o) ==> !Classify(ctx, Settle(ctx, o)).Update?
  {
    var v := Classify(ctx, o);
    if v.Update? {
      UpdateIsAccepted(ctx, o);
      if Typed(o) {
        UpdateSettles(ctx, o);
      }
    }
  }

  // Deliveries

  datatype DeliveryVerdict = DeliveryFailed | DeliveryNoop | DeliveryConflict
      | DeliveryUpdate(migration: DeliveryMigration)

  datatype DeliveryMigration = DeliveryMigration(
    tenant: Text, outbox: Text, delivery: Text, revision: int, availableAt: Text,
    relayPk: Text, relaySk: Text, previousSk: Text)

  const DELIVERY_ENTITY := Word("notification_delivery")

  function MigrationOf(ctx: Context, f: Fields, delivery: Text, revision: int, availableAt: Text): DeliveryMigration
    requires availableAt.Stamp?
  {
    DeliveryMigration(f.tenant, f.outbox, delivery, revision, availableAt,
                      PartitionKey(ctx.bucket(Delivery, f.tenant, delivery)),
                      SortKey(Delivery, availableAt.time, f.tenant, delivery),
                      PreviousSortKey(availableAt.time, Delivery, f.tenant, delivery))
  }

  predicate Readable(ctx: Context, d: DeliveryRow) {
    && ReadText(ctx, d.entityType).Some? && ReadText(ctx, d.tenantId).Some? && ReadText(ctx, d.outboxId).Some?
    && ReadText(ctx, d.deliveryId).Some? && ReadText(ctx, d.state).Some? && ReadText(ctx, d.availableAt).Some?
    && ReadText(ctx, d.workKind).Some? && ReadText(ctx, d.relayPk).Some? && ReadText(ctx, d.relaySk).Some?
    && ReadNumber(d.revision).Some? && ReadNumber(d.schemaVersion).Some?
  }

  predicate BelongsTo(ctx: Context, f: Fields, d: DeliveryRow) {
    && ReadText(ctx, d.entityType) == Some(DELIVERY_ENTITY) && ReadText(ctx, d.tenantId) == Some(f.tenant)
    && ReadText(ctx, d.outboxId) == Some(f.outbox) && ReadText(ctx, d.deliveryId) == Some(d.sk) && !Invalid(d.sk)
  }

  function ClassifyDelivery(ctx: Context, f: Fields, d: DeliveryRow): DeliveryVerdict {
    if !Readable(ctx, d) || !BelongsTo(ctx, f, d) then DeliveryFailed
    else if ReadText(ctx, d.state) != Some(PENDING) then DeliveryNoop
    else
      var availableAt := ReadText(ctx, d.availableAt).value;
      if !availableAt.Stamp? then DeliveryFailed
      else
        var m := MigrationOf(ctx, f, d.sk, ReadNumber(d.revision).value, availableAt);
        if ReadNumber(d.schemaVersion) != Some(EMAIL_SCHEMA) || ReadText(ctx, d.workKind) != Some(KindText(Delivery))
           || ReadText(ctx, d.relayPk) != Some(m.relayPk) || m.revision < 1 then DeliveryConflict
        else if ReadText(ctx, d.relaySk) == Some(m.relaySk) then DeliveryNoop
        else if ReadText(ctx, d.relaySk) == Some(m.previousSk) then DeliveryUpdate(m)
        else DeliveryConflict
  }

  predicate AdmitsDelivery(d: DeliveryRow, m: DeliveryMigration) {
    && Is(d.entityType, DELIVERY_ENTITY) && Is(d.tenantId, m.tenant) && Is(d.outboxId, m.outbox)
    && Is(d.deliveryId, m.delivery) && Is(d.state, PENDING) && IsNumber(d.revision, m.revision)
    && IsNumber(d.schemaVersion, EMAIL_SCHEMA) && Is(d.availableAt, m.availableAt) && Is(d.workKind, KindText(Delivery))
    && Is(d.relayPk, m.relayPk) && Is(d.relaySk, m.previousSk)
  }

  function WrittenDelivery(d: DeliveryRow, m: DeliveryMigration): DeliveryRow {
    d.(relaySk := Some(S(m.relaySk)))
  }

  predicate TypedDelivery(d: DeliveryRow) { IsString(d.tenantId) && IsString(d.outboxId) && IsString(d.deliveryId) }

  lemma DeliveryUpdateIsAccepted(ctx: Context, f: Fields, d: DeliveryRow)
    requires ClassifyDelivery(ctx, f, d).DeliveryUpdate?
    ensures AdmitsDelivery(d, ClassifyDelivery(ctx, f, d).migration) <==> TypedDelivery(d)
  {
  }

  lemma DeliveryUpdateSettles(ctx: Context, f: Fields, d: DeliveryRow)
    requires ClassifyDelivery(ctx, f, d).DeliveryUpdate?
    ensures ClassifyDelivery(ctx, f, WrittenDelivery(d, ClassifyDelivery(ctx, f, d).migration)) == DeliveryNoop
  {
  }

  function SettleDelivery(ctx: Context, f: Fields, d: DeliveryRow): DeliveryRow {
    var v := ClassifyDelivery(ctx, f, d);
    if v.DeliveryUpdate? && AdmitsDelivery(d, v.migration) then WrittenDelivery(d, v.migration) else d
  }

  // A whole pass

  datatype Entry = Entry(outbox: Outbox, deliveries: seq<DeliveryRow>)

  datatype Summary = Summary(
    queried: nat, needing: nat, wouldUpdate: nat, updated: nat, noop: nat, conflicts: nat,
    concurrent: nat, updateFailures: nat, decodeFailures: nat, rowFailures: nat, stopped: bool)

  /** Every row is counted under one verdict, and every row that needs an update under one outcome,
      except the one whose update was cut off when the pass stopped. */
  ghost predicate Balanced(s: Summary, apply: bool) {
    && s.queried == s.needing + s.noop + s.conflicts + s.decodeFailures
    && (|| s.needing == s.wouldUpdate + s.updated + s.concurrent + s.updateFailures
        || (s.stopped && apply && s.needing == s.wouldUpdate + s.updated + s.concurrent + s.updateFailures + 1))
    && s.rowFailures == s.conflicts + s.decodeFailures + s.concurrent + s.updateFailures
    && (if apply then s.wouldUpdate == 0 else s.updated == 0 && s.concurrent == 0 && s.updateFailures == 0)
  }

  /** The pass went through to its end and no update failed for a reason of its own. */
  predicate Clean(s: Summary) { !s.stopped && s.updateFailures == 0 }

  /** Deliveries are visited for email outboxes that classified, unless Telegram is the target. */
  predicate Visits(ctx: Context, o: Outbox) {
    !ctx.telegram && Classify(ctx, o) != Failed && Decode(ctx, o).Some? && Decode(ctx, o).value.channel == EMAIL
  }

  function OutboxWrites(ctx: Context, o: Outbox): nat {
    var v := Classify(ctx, o);
    if v.Update? && Admits(o, v.kind, v.migration) then 1 else 0
  }

  function DeliveryWrites(ctx: Context, f: Fields, ds: seq<DeliveryRow>): nat {
    if ds == [] then 0
    else
      var last := ds[|ds| - 1];
      var v := ClassifyDelivery(ctx, f, last);
      DeliveryWrites(ctx, f, ds[..|ds| - 1]) + (if v.DeliveryUpdate? && AdmitsDelivery(last, v.migration) then 1 else 0)
  }

  function SettleDeliveries(ctx: Context, f: Fields, ds: seq<DeliveryRow>): (r: seq<DeliveryRow>)
    ensures |r| == |ds|
  {
    if ds == [] then [] else SettleDeliveries(ctx, f, ds[..|ds| - 1]) + [SettleDelivery(ctx, f, ds[|ds| - 1])]
  }

  function EntryWrites(ctx: Context, e: Entry): nat {
    OutboxWrites(ctx, e.outbox)
    + (if Visits(ctx, e.outbox) then DeliveryWrites(ctx, Decode(ctx, e.outbox).value, e.deliveries) else 0)
  }

  function SettleEntry(ctx: Context, e: Entry): Entry {
    Entry(Settle(ctx, e.outbox),
          if Visits(ctx, e.outbox) then SettleDeliveries(ctx, Decode(ctx, e.outbox).value, e.deliveries)
          else e.deliveries)
  }

  function Writes(ctx: Context, es: seq<Entry>): nat {
    if es == [] then 0 else Writes(ctx, es[..|es| - 1]) + EntryWrites(ctx, es[|es| - 1])
  }

  function SettleAll(ctx: Context, es: seq<Entry>): (r: seq<Entry>)
    ensures |r| == |es|
  {
    if es == [] then [] else SettleAll(ctx, es[..|es| - 1]) + [SettleEntry(ctx, es[|es| - 1])]
  }

  /** How an update ends: it is made, its condition fails, it fails for another reason, or time runs
      out during it.  In the last two cases it may have been made all the same. */
  datatype Attempt = Made | Refused | Broke(made: bool) | CutOff(made: bool)
  {
    predicate Wrote() { Made? || (Broke? && made) || (CutOff? && made) }

    /** An update can only be made where its condition holds. */
    predicate Fits(admitted: bool) { (Made? ==> admitted) && (Refused? ==> !admitted) && (Wrote() ==> admitted) }
  }

  method TryUpdate(admitted: bool) returns (attempt: Attempt)
    ensures attempt.Fits(admitted)
  {
    attempt := if admitted then Made else Refused;
    if * {
      var made: bool := *;
      attempt := Broke(made && admitted);
    } else if * {
      var made: bool := *;
      attempt := CutOff(made && admitted);
    }
  }

  /** Counting a row that needs an update. */
  function Count(s: Summary, attempt: Attempt): Summary {
    var t := s.(needing := s.needing + 1);
    match attempt
    case Made => t.(updated := t.updated + 1)
    case Refused => t.(concurrent := t.concurrent + 1, rowFailures := t.rowFailures + 1)
    case Broke(_) => t.(updateFailures := t.updateFailures + 1, rowFailures := t.rowFailures + 1)
    case CutOff(_) => t.(stopped := true)
  }

  function CountDry(s: Summary): Summary { s.(needing := s.needing + 1, wouldUpdate := s.wouldUpdate + 1) }

  /** Updating one row that needs it, or only counting it in a dry run. */
  method UpdateRow(start: Summary, apply: bool, admitted: bool) returns (s: Summary, wrote: bool)
    requires Balanced(start, apply) && !start.stopped
    ensures Balanced(s, apply) && start.updateFailures <= s.updateFailures && s.needing <= start.needing + 1
    ensures wrote ==> apply && admitted
    ensures apply && !s.stopped && s.updateFailures == start.updateFailures ==>
              wrote == admitted && s.updated == start.updated + (if admitted then 1 else 0)
  {
    s, wrote := start.(queried := start.queried + 1), false;
    if !apply {
      s := CountDry(s);
    } else {
      var attempt := TryUpdate(admitted);
      s, wrote := Count(s, attempt), attempt.Wrote();
    }
  }

  /** Each row is as it was or settled. */
  ghost predicate PartlySettled(ctx: Context, f: Fields, ds: seq<DeliveryRow>, after: seq<DeliveryRow>) {
    |after| == |ds| && forall i :: 0 <= i < |ds| ==> after[i] == ds[i] || after[i] == SettleDelivery(ctx, f, ds[i])
  }

  method BackfillDelivery(ctx: Context, f: Fields, d: DeliveryRow, apply: bool, start: Summary)
    returns (after: DeliveryRow, s: Summary)
    requires Balanced(start, apply) && !start.stopped
    ensures Balanced(s, apply) && start.updateFailures <= s.updateFailures && s.needing <= start.needing + 1
    ensures after == d || (apply && after == SettleDelivery(ctx, f, d))
    ensures apply && !s.stopped && s.updateFailures == start.updateFailures ==>
              after == SettleDelivery(ctx, f, d) && s.updated == start.updated + DeliveryWrites(ctx, f, [d])
  {
    after, s := d, start.(queried := start.queried + 1);
    match ClassifyDelivery(ctx, f, d) {
      case DeliveryFailed => s := s.(decodeFailures := s.decodeFailures + 1, rowFailures := s.rowFailures + 1);
      case DeliveryNoop => s := s.(noop := s.noop + 1);
      case DeliveryConflict => s := s.(conflicts := s.conflicts + 1, rowFailures := s.rowFailures + 1);
      case DeliveryUpdate(m) =>
        var wrote;
        s, wrote := UpdateRow(start, apply, AdmitsDelivery(d, m));
        if wrote {
          after := WrittenDelivery(d, m);
        }
    }
    assert [d][..0] == [];
  }

  lemma DeliveryWritesSnoc(ctx: Context, f: Fields, ds: seq<DeliveryRow>, d: DeliveryRow)
    ensures DeliveryWrites(ctx, f, ds + [d]) == DeliveryWrites(ctx, f, ds) + DeliveryWrites(ctx, f, [d])
    ensures SettleDeliveries(ctx, f, ds + [d]) == SettleDeliveries(ctx, f, ds) + [SettleDelivery(ctx, f, d)]
  {
    assert (ds + [d])[..|ds|] == ds && [d][..0] == [];
  }

  /** The deliveries before `i` have been gone through. */
  ghost predicate DeliveriesDone(ctx: Context, maxRows: nat, f: Fields, ds: seq<DeliveryRow>, apply: bool,
                                 start: Summary,
                                 after: seq<DeliveryRow>, s: Summary) {
    && Balanced(s, apply) && s.needing <= maxRows && start.updateFailures <= s.updateFailures
    && PartlySettled(ctx, f, ds, after)
    && (!apply ==> after == ds)
    && (apply && !s.stopped && s.updateFailures == start.updateFailures ==>
          after == SettleDeliveries(ctx, f, ds) && s.updated == start.updated + DeliveryWrites(ctx, f, ds))
  }

  lemma OneMoreDelivery(ctx: Context, maxRows: nat, f: Fields, ds: seq<DeliveryRow>, apply: bool, start: Summary,
                        after: seq<DeliveryRow>, s: Summary, d: DeliveryRow, next: DeliveryRow, s': Summary)
    requires DeliveriesDone(ctx, maxRows, f, ds, apply, start, after, s) && !s.stopped
    requires Balanced(s', apply) && s'.needing <= maxRows && s.updateFailures <= s'.updateFailures
    requires next == d || (apply && next == SettleDelivery(ctx, f, d))
    requires apply && !s'.stopped && s'.updateFailures == s.updateFailures ==>
               next == SettleDelivery(ctx, f, d) && s'.updated == s.updated + DeliveryWrites(ctx, f, [d])
    ensures DeliveriesDone(ctx, maxRows, f, ds + [d], apply, start, after + [next], s')
  {
    DeliveryWritesSnoc(ctx, f, ds, d);
  }

  lemma DeliveriesLeft(ctx: Context, maxRows: nat, f: Fields, ds: seq<DeliveryRow>, i: nat, apply: bool, start: Summary,
                       after: seq<DeliveryRow>, s: Summary)
    requires i <= |ds| && DeliveriesDone(ctx, maxRows, f, ds[..i], apply, start, after, s)
    ensures DeliveriesDone(ctx, maxRows, f, ds, apply, start, after + ds[i..], s.(stopped := true))
  {
    assert ds == ds[..i] + ds[i..];
    forall j | 0 <= j < |ds|
      ensures (after + ds[i..])[j] == ds[j] || (after + ds[i..])[j] == SettleDelivery(ctx, f, ds[j])
    {
      if j < i { assert ds[..i][j] == ds[j]; }
    }
  }

  /** The deliveries of one outbox. */
  method BackfillDeliveries(ctx: Context, f: Fields, ds: seq<DeliveryRow>, apply: bool, maxRows: nat, start: Summary)
    returns (after: seq<DeliveryRow>, s: Summary)
    requires Balanced(start, apply) && !start.stopped && start.needing <= maxRows
    ensures DeliveriesDone(ctx, maxRows, f, ds, apply, start, after, s)
  {
    s, after := start, [];
    var i := 0;
    while i < |ds|
      invariant 0 <= i <= |ds| && !s.stopped
      invariant DeliveriesDone(ctx, maxRows, f, ds[..i], apply, start, after, s)
    {
      var expired: bool := *;
      if expired || s.needing >= maxRows {
        DeliveriesLeft(ctx, maxRows, f, ds, i, apply, start, after, s);
        return after + ds[i..], s.(stopped := true);
      }
      var next, s' := BackfillDelivery(ctx, f, ds[i], apply, s);
      OneMoreDelivery(ctx, maxRows, f, ds[..i], apply, start, after, s, ds[i], next, s');
      assert ds[..i + 1] == ds[..i] + [ds[i]];
      after, s, i := after + [next], s', i + 1;
      if s.stopped {
        DeliveriesLeft(ctx, maxRows, f, ds, i, apply, start, after, s);
        return after + ds[i..], s;
      }
    }
    assert ds[..|ds|] == ds;
  }

  method BackfillOutbox(ctx: Context, o: Outbox, apply: bool, start: Summary) returns (after: Outbox, s: Summary)
    requires Balanced(start, apply) && !start.stopped
    ensures Balanced(s, apply) && start.updateFailures <= s.updateFailures && s.needing <= start.needing + 1
    ensures after == o || (apply && after == Settle(ctx, o))
    ensures apply && !s.stopped && s.updateFailures == start.updateFailures ==>
              after == Settle(ctx, o) && s.updated == start.updated + OutboxWrites(ctx, o)
  {
    after, s := o, start.(queried := start.queried + 1);
    match Classify(ctx, o) {
      case Failed => s := s.(decodeFailures := s.decodeFailures + 1, rowFailures := s.rowFailures + 1);
      case Noop => s := s.(noop := s.noop + 1);
      case Conflict => s := s.(conflicts := s.conflicts + 1, rowFailures := s.rowFailures + 1);
      case Update(kind, m) =>
        var wrote;
        s, wrote := UpdateRow(start, apply, Admits(o, kind, m));
        if wrote {
          after := Written(o, kind, m);
        }
    }
  }

  ghost predicate EntryPartlySettled(ctx: Context, e: Entry, after: Entry) {
    && (after.outbox == e.outbox || after.outbox == Settle(ctx, e.outbox))
    && (if Visits(ctx, e.outbox) then PartlySettled(ctx, Decode(ctx, e.outbox).value, e.deliveries, after.deliveries)
        else after.deliveries == e.deliveries)
  }

  /** What a pass has made of some rows, from the counters it started with. */
  ghost predicate EntryDone(ctx: Context, maxRows: nat, e: Entry, apply: bool, start: Summary, after: Entry,
                            s: Summary) {
    && Balanced(s, apply) && s.needing <= maxRows && start.updateFailures <= s.updateFailures
    && EntryPartlySettled(ctx, e, after)
    && (!apply ==> after == e)
    && (apply && !s.stopped && s.updateFailures == start.updateFailures ==>
          after == SettleEntry(ctx, e) && s.updated == start.updated + EntryWrites(ctx, e))
  }

  method BackfillEntry(ctx: Context, e: Entry, apply: bool, maxRows: nat, start: Summary)
    returns (after: Entry, s: Summary)
    requires Balanced(start, apply) && !start.stopped && start.needing < maxRows
    ensures EntryDone(ctx, maxRows, e, apply, start, after, s)
  {
    var outbox;
    outbox, s := BackfillOutbox(ctx, e.outbox, apply, start);
    var deliveries := e.deliveries;
    if !s.stopped && Visits(ctx, e.outbox) {
      deliveries, s := BackfillDeliveries(ctx, Decode(ctx, e.outbox).value, e.deliveries, apply, maxRows, s);
    }
    after := Entry(outbox, deliveries);
  }

  ghost predicate AllPartlySettled(ctx: Context, es: seq<Entry>, after: seq<Entry>) {
    |after| == |es| && forall i :: 0 <= i < |es| ==> EntryPartlySettled(ctx, es[i], after[i])
  }

  ghost predicate TenantDone(ctx: Context, maxRows: nat, es: seq<Entry>, apply: bool, start: Summary,
                             after: seq<Entry>, s: Summary) {
    && Balanced(s, apply) && s.needing <= maxRows && start.updateFailures <= s.updateFailures
    && AllPartlySettled(ctx, es, after)
    && (!apply ==> after == es)
    && (apply && !s.stopped && s.updateFailures == start.updateFailures ==>
          after == SettleAll(ctx, es) && s.updated == start.updated + Writes(ctx, es))
  }

  lemma OneMoreEntry(ctx: Context, maxRows: nat, es: seq<Entry>, apply: bool, start: Summary, after: seq<Entry>,
                     s: Summary,
                     e: Entry, next: Entry, s': Summary)
    requires TenantDone(ctx, maxRows, es, apply, start, after, s) && !s.stopped
    requires EntryDone(ctx, maxRows, e, apply, s, next, s')
    ensures TenantDone(ctx, maxRows, es + [e], apply, start, after + [next], s')
  {
    assert (es + [e])[..|es|] == es;
  }

  lemma EntriesLeft(ctx: Context, maxRows: nat, es: seq<Entry>, i: nat, apply: bool, start: Summary, after: seq<Entry>,
                    s: Summary)
    requires i <= |es| && TenantDone(ctx, maxRows, es[..i], apply, start, after, s)
    ensures TenantDone(ctx, maxRows, es, apply, start, after + es[i..], s.(stopped := true))
  {
    assert es == es[..i] + es[i..];
    forall j | 0 <= j < |es| ensures EntryPartlySettled(ctx, es[j], (after + es[i..])[j]) {
      if j < i { assert es[..i][j] == es[j]; }
    }
  }

  /** The outboxes of one tenant and their deliveries. */
  method BackfillTenant(ctx: Context, es: seq<Entry>, apply: bool, maxRows: nat, start: Summary)
    returns (after: seq<Entry>, s: Summary)
    requires Balanced(start, apply) && !start.stopped && start.needing <= maxRows
    ensures TenantDone(ctx, maxRows, es, apply, start, after, s)
  {
    s, after := start, [];
    var i := 0;
    while i < |es|
      invariant 0 <= i <= |es| && !s.stopped
      invariant TenantDone(ctx, maxRows, es[..i], apply, start, after, s)
    {
      var expired: bool := *;
      if expired || s.needing >= maxRows {
        EntriesLeft(ctx, maxRows, es, i, apply, start, after, s);
        return after + es[i..], s.(stopped := true);
      }
      var next, s' := BackfillEntry(ctx, es[i], apply, maxRows, s);
      OneMoreEntry(ctx, maxRows, es[..i], apply, start, after, s, es[i], next, s');
      assert es[..i + 1] == es[..i] + [es[i]];
      after, s, i := after + [next], s', i + 1;
      if s.stopped {
        EntriesLeft(ctx, maxRows, es, i, apply, start, after, s);
        return after + es[i..], s;
      }
    }
    assert es[..|es|] == es;
  }

  // All tenants

  /** The outboxes of every tenant. */
  type Table = map<Text, seq<Entry>>

  function Rows(table: Table, tenant: Text): seq<Entry> { if tenant in table then table[tenant] else [] }

  function For(ctx: Context, tenant: Text): Context { ctx.(tenant := tenant) }

  function TenantWrites(ctx: Context, tenants: seq<Text>, table: Table): nat {
    if tenants == [] then 0
    else
      var n := |tenants| - 1;
      TenantWrites(ctx, tenants[..n], table)
      + (if tenants[n] in tenants[..n] then 0 else Writes(For(ctx, tenants[n]), Rows(table, tenants[n])))
  }

  /** The listed tenants are settled, the others untouched, and every write is counted, none twice for a
      tenant listed twice. */
  ghost predicate SettledFor(ctx: Context, tenants: seq<Text>, table: Table, after: Table, updated: nat) {
    (forall x :: HasRows(ctx, tenants, table, after, x)) && updated == TenantWrites(ctx, tenants, table)
  }

  ghost predicate HasRows(ctx: Context, tenants: seq<Text>, table: Table, after: Table, x: Text) {
    Rows(after, x) == if x in tenants then SettleAll(For(ctx, x), Rows(table, x)) else Rows(table, x)
  }

  /** Every row is as it was or settled. */
  ghost predicate TablePartlySettled(ctx: Context, table: Table, after: Table) {
    && after.Keys == table.Keys
    && forall x :: x in table ==> AllPartlySettled(For(ctx, x), table[x], after[x])
  }

  ghost predicate PassDone(ctx: Context, maxRows: nat, tenants: seq<Text>, table: Table, apply: bool, after: Table,
                           s: Summary) {
    && Balanced(s, apply) && s.needing <= maxRows && TablePartlySettled(ctx, table, after)
    && (!apply ==> after == table)
    && (apply && Clean(s) ==> SettledFor(ctx, tenants, table, after, s.updated))
  }

  lemma UntouchedIsPartlySettled(ctx: Context, table: Table)
    ensures TablePartlySettled(ctx, table, table)
  {
  }

  /** Settling rows that are partly settled already ends where settling the originals ends. */
  lemma {:induction false} PartlySettledThenSettled(ctx: Context, f: Fields, ds: seq<DeliveryRow>,
                                                    mid: seq<DeliveryRow>)
    requires PartlySettled(ctx, f, ds, mid)
    ensures SettleDeliveries(ctx, f, mid) == SettleDeliveries(ctx, f, ds)
  {
    if ds != [] {
      var n := |ds| - 1;
      PartlySettledThenSettled(ctx, f, ds[..n], mid[..n]);
      DeliverySettledOnce(ctx, f, ds[n]);
    }
  }

  lemma DeliverySettledOnce(ctx: Context, f: Fields, d: DeliveryRow)
    ensures SettleDelivery(ctx, f, SettleDelivery(ctx, f, d)) == SettleDelivery(ctx, f, d)
  {
    if ClassifyDelivery(ctx, f, d).DeliveryUpdate? {
      DeliveryUpdateSettles(ctx, f, d);
    }
  }

  lemma EntryPartlyThenSettled(ctx: Context, e: Entry, mid: Entry)
    requires EntryPartlySettled(ctx, e, mid)
    ensures SettleEntry(ctx, mid) == SettleEntry(ctx, e)
  {
    OutboxSettled(ctx, e.outbox);
    SettleIsIdempotent(ctx, e.outbox);
    if Visits(ctx, e.outbox) {
      PartlySettledThenSettled(ctx, Decode(ctx, e.outbox).value, e.deliveries, mid.deliveries);
    }
  }

  lemma {:induction false} AllPartlyThenSettled(ctx: Context, es: seq<Entry>, mid: seq<Entry>)
    requires AllPartlySettled(ctx, es, mid)
    ensures SettleAll(ctx, mid) == SettleAll(ctx, es)
  {
    if es != [] {
      var n := |es| - 1;
      AllPartlyThenSettled(ctx, es[..n], mid[..n]);
      EntryPartlyThenSettled(ctx, es[n], mid[n]);
    }
  }

  /** However a pass ended, a later pass over the same tenants that is clean leaves what one clean pass
      over the original table would have left. */
  lemma RerunCompletes(ctx: Context, maxRows: nat, tenants: seq<Text>, table: Table, mid: Table, after: Table,
                       s: Summary, x: Text)
    requires TablePartlySettled(ctx, table, mid) && PassDone(ctx, maxRows, tenants, mid, true, after, s) && Clean(s)
    requires x in tenants
    ensures Rows(after, x) == SettleAll(For(ctx, x), Rows(table, x))
  {
    assert HasRows(ctx, tenants, mid, after, x);
    if x in table {
      AllPartlyThenSettled(For(ctx, x), table[x], mid[x]);
    }
  }

  // The second pass

  lemma {:induction false} DeliveriesSettled(ctx: Context, f: Fields, ds: seq<DeliveryRow>)
    ensures var again := SettleDeliveries(ctx, f, ds);
            DeliveryWrites(ctx, f, again) == 0 && SettleDeliveries(ctx, f, again) == again
  {
    if ds != [] {
      var n := |ds| - 1;
      DeliveriesSettled(ctx, f, ds[..n]);
      var again := SettleDeliveries(ctx, f, ds);
      assert again[..n] == SettleDeliveries(ctx, f, ds[..n]);
      if ClassifyDelivery(ctx, f, ds[n]).DeliveryUpdate? {
        DeliveryUpdateSettles(ctx, f, ds[n]);
      }
    }
  }

  lemma OutboxSettled(ctx: Context, o: Outbox)
    ensures OutboxWrites(ctx, Settle(ctx, o)) == 0
    ensures Decode(ctx, Settle(ctx, o)) == Decode(ctx, o)
    ensures Visits(ctx, Settle(ctx, o)) == Visits(ctx, o)
  {
    if Classify(ctx, o).Update? {
      UpdateIsAccepted(ctx, o);
      if Typed(o) {
        UpdateSettles(ctx, o);
      }
    }
  }

  lemma EntrySettled(ctx: Context, e: Entry)
    ensures EntryWrites(ctx, SettleEntry(ctx, e)) == 0
    ensures SettleEntry(ctx, SettleEntry(ctx, e)) == SettleEntry(ctx, e)
  {
    OutboxSettled(ctx, e.outbox);
    SettleIsIdempotent(ctx, e.outbox);
    if Visits(ctx, e.outbox) {
      DeliveriesSettled(ctx, Decode(ctx, e.outbox).value, e.deliveries);
    }
  }

  /** After a pass that ran to its end, with no other writer, another pass writes nothing. */
  lemma {:induction false} SecondPassWritesNothing(ctx: Context, es: seq<Entry>)
    ensures Writes(ctx, SettleAll(ctx, es)) == 0
    ensures SettleAll(ctx, SettleAll(ctx, es)) == SettleAll(ctx, es)
  {
    if es != [] {
      var n := |es| - 1;
      SecondPassWritesNothing(ctx, es[..n]);
      EntrySettled(ctx, es[n]);
      assert SettleAll(ctx, es)[..n] == SettleAll(ctx, es[..n]);
    }
  }

  // The pass over all tenants

  lemma PartlySettledTwice(ctx: Context, f: Fields, ds: seq<DeliveryRow>, mid: seq<DeliveryRow>,
                           after: seq<DeliveryRow>)
    requires PartlySettled(ctx, f, ds, mid) && PartlySettled(ctx, f, mid, after)
    ensures PartlySettled(ctx, f, ds, after)
  {
    forall i | 0 <= i < |ds| ensures after[i] == ds[i] || after[i] == SettleDelivery(ctx, f, ds[i]) {
      DeliverySettledOnce(ctx, f, ds[i]);
    }
  }

  lemma EntryPartlyTwice(ctx: Context, e: Entry, mid: Entry, after: Entry)
    requires EntryPartlySettled(ctx, e, mid) && EntryPartlySettled(ctx, mid, after)
    ensures EntryPartlySettled(ctx, e, after)
  {
    OutboxSettled(ctx, e.outbox);
    SettleIsIdempotent(ctx, e.outbox);
    if Visits(ctx, e.outbox) {
      PartlySettledTwice(ctx, Decode(ctx, e.outbox).value, e.deliveries, mid.deliveries, after.deliveries);
    }
  }

  lemma AllPartlyTwice(ctx: Context, es: seq<Entry>, mid: seq<Entry>, after: seq<Entry>)
    requires AllPartlySettled(ctx, es, mid) && AllPartlySettled(ctx, mid, after)
    ensures AllPartlySettled(ctx, es, after)
  {
    forall i | 0 <= i < |es| ensures EntryPartlySettled(ctx, es[i], after[i]) {
      EntryPartlyTwice(ctx, es[i], mid[i], after[i]);
    }
  }

  function Stored(table: Table, tenant: Text, rows: seq<Entry>): Table {
    if tenant in table then table[tenant := rows] else table
  }

  /** One more tenant, listed before or not. */
  lemma OneMoreTenant(ctx: Context, maxRows: nat, tenants: seq<Text>, table: Table, apply: bool, mid: Table, s: Summary,
                      x: Text, rows: seq<Entry>, s': Summary)
    requires PassDone(ctx, maxRows, tenants, table, apply, mid, s) && !s.stopped
    requires TenantDone(For(ctx, x), maxRows, Rows(mid, x), apply, s, rows, s')
    ensures PassDone(ctx, maxRows, tenants + [x], table, apply, Stored(mid, x, rows), s')
  {
    var after := Stored(mid, x, rows);
    if x in table {
      AllPartlyTwice(For(ctx, x), table[x], mid[x], rows);
    }
    assert !apply && x in mid ==> mid[x := mid[x]] == mid;
    if apply && Clean(s') {
      TenantSettled(ctx, tenants, table, mid, s, x, rows, s');
    }
  }

  lemma TenantSettled(ctx: Context, tenants: seq<Text>, table: Table, mid: Table, s: Summary, x: Text,
                      rows: seq<Entry>, s': Summary)
    requires SettledFor(ctx, tenants, table, mid, s.updated) && mid.Keys == table.Keys
    requires rows == SettleAll(For(ctx, x), Rows(mid, x)) && s'.updated == s.updated + Writes(For(ctx, x), Rows(mid, x))
    ensures SettledFor(ctx, tenants + [x], table, Stored(mid, x, rows), s'.updated)
  {
    assert (tenants + [x])[..|tenants|] == tenants;
    assert HasRows(ctx, tenants, table, mid, x);
    if x in tenants {
      SecondPassWritesNothing(For(ctx, x), Rows(table, x));
    }
    forall y ensures HasRows(ctx, tenants + [x], table, Stored(mid, x, rows), y) {
      assert HasRows(ctx, tenants, table, mid, y);
    }
  }

  method StartPass(ghost ctx: Context, ghost maxRows: nat, ghost table: Table, ghost apply: bool) returns (s: Summary)
    ensures PassDone(ctx, maxRows, [], table, apply, table, s) && s.queried == 0
  {
    s := Summary(0, 0, 0, 0, 0, 0, 0, 0, 0, 0, false);
    UntouchedIsPartlySettled(ctx, table);
    assert SettledFor(ctx, [], table, table, 0) by {
      forall x ensures HasRows(ctx, [], table, table, x) {
      }
    }
  }

  lemma StoppedPass(ctx: Context, maxRows: nat, some: seq<Text>, tenants: seq<Text>, table: Table, apply: bool,
                    after: Table, s: Summary)
    requires PassDone(ctx, maxRows, some, table, apply, after, s)
    ensures PassDone(ctx, maxRows, tenants, table, apply, after, s.(stopped := true))
  {
  }

  method PassTenant(ctx: Context, ghost tenants: seq<Text>, ghost table: Table, apply: bool, maxRows: nat,
                    x: Text, mid: Table, start: Summary) returns (after: Table, s: Summary)
    requires PassDone(ctx, maxRows, tenants, table, apply, mid, start) && !start.stopped
    ensures PassDone(ctx, maxRows, tenants + [x], table, apply, after, s)
  {
    var rows;
    rows, s := BackfillTenant(For(ctx, x), Rows(mid, x), apply, maxRows, start);
    OneMoreTenant(ctx, maxRows, tenants, table, apply, mid, start, x, rows, s);
    after := Stored(mid, x, rows);
  }

  /** The whole pass.  It may stop early at the row limit, the deadline or a failed query, and single
      updates may fail; a dry run writes nothing; no row is ever left between the old form and the
      settled one; and a clean pass has settled every row of every listed tenant. */
  method BackfillRelay(ctx: Context, tenants: seq<Text>, table: Table, apply: bool, maxRows: nat)
    returns (after: Table, s: Summary)
    ensures PassDone(ctx, maxRows, tenants, table, apply, after, s)
  {
    after := table;
    s := StartPass(ctx, maxRows, table, apply);
    ghost var passed: seq<Text> := [];
    var i := 0;
    while i < |tenants| && !s.stopped
      invariant 0 <= i <= |tenants| && passed == tenants[..i]
      invariant PassDone(ctx, maxRows, passed, table, apply, after, s)
      decreases |tenants| - i, !s.stopped
    {
      var expired: bool := *;
      if expired {
        StoppedPass(ctx, maxRows, passed, passed, table, apply, after, s);
        s := s.(stopped := true);
      } else {
        after, s := PassTenant(ctx, passed, table, apply, maxRows, tenants[i], after, s);
        passed, i := passed + [tenants[i]], i + 1;
      }
    }
    if s.stopped {
      StoppedPass(ctx, maxRows, passed, tenants, table, apply, after, s);
    } else {
      assert passed == tenants;
    }
  }
}
