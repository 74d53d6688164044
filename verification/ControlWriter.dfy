/**
 The two writers of a ticket row (src/runtime/control-state.ts:46-113): a control update, which is a compare-and-swap
 on the stored control state, and `recordRecovery`, which records what recovery found and may replace the control state.
 */
module ControlWriter {
  import opened Basics
  import opened Execution
  import opened LocalStore

  datatype WriteError = InvalidUpdate | StaleControl | OtherController | Store(error: StoreError)

  datatype RecoveryKind = OwnerReady | OwnerForeign | OwnerAmbiguous | OwnerInactive

  datatype Request =
    | Write(controllerId: string, observedAt: string, expected: Option<Control>, next: Control, keys: Option<seq<string>>)
    | Recover(controllerId: string, observedAt: string, migration: Option<string>, evidenceKeys: seq<string>,
              owner: Option<Owner>, kind: RecoveryKind, reason: Option<string>,
              replacement: Option<Option<Control>>,       // absent, or the control state to store (possibly none)
              baseline: Option<seq<string>>)

  function StoredControl(stored: Option<Stored>): Option<Control> {
    if stored.Some? then stored.value.value.control else None
  }

  function RevisionOf(stored: Option<Stored>): Option<int> {
    if stored.Some? then Some(stored.value.revision) else None
  }

  // ----- The control update -----

  /** An update stays in its flow and raises the sequence by one; this is checked before anything is read. */
  predicate ValidUpdate(expected: Option<Control>, next: Control) {
    if expected.Some?
    then next.flowInstanceId == expected.value.flowInstanceId && next.sequence == expected.value.sequence + 1
    else next.sequence == 0
  }

  function PrepareWrite(stored: Option<Stored>, r: Request): Result<LocalExecution, WriteError>
    requires r.Write?
  {
    if !ValidUpdate(r.expected, r.next) then Err(InvalidUpdate)
    else if StoredControl(stored) != r.expected then Err(StaleControl)
    else if stored.Some? then
      var was := stored.value.value;
      Ok(LocalExecution(was.migrationId, r.controllerId, r.observedAt, was.owner, was.disposition, was.reason,
                        if r.keys.Some? then r.keys.value else was.publicationKeys, Some(r.next)))
    else Ok(LocalExecution(None, r.controllerId, r.observedAt, None, Ready, None,
                           if r.keys.Some? then r.keys.value else [], Some(r.next)))
  }

  // ----- Recording a recovery -----

  function DispositionOf(kind: RecoveryKind): Disposition {
    match kind
    case OwnerForeign => Foreign
    case OwnerAmbiguous => Ambiguous
    case OwnerInactive => Inactive
    case OwnerReady => Ready
  }

  function Align(control: Option<Control>, revision: int): (r: Option<Control>)
    ensures r.Some? <==> control.Some?
    ensures r.Some? ==> r.value.sequence == revision && r.value.(sequence := control.value.sequence) == control.value
  {
    if control.Some? && control.value.sequence != revision then Some(control.value.(sequence := revision)) else control
  }

  /** The row a recovery would store, before its control state is aligned; the revision is the store's business. */
  function Proposed(stored: Option<Stored>, r: Request): LocalExecution
    requires r.Recover?
  {
    LocalExecution(
      if r.migration.Some? then r.migration else if stored.Some? then stored.value.value.migrationId else None,
      r.controllerId, r.observedAt, r.owner, DispositionOf(r.kind), r.reason,
      Sort(LexLe, if r.baseline.Some? then r.baseline.value else r.evidenceKeys),
      if r.replacement.Some? then r.replacement.value else StoredControl(stored))
  }

  predicate Comparable(a: LocalExecution, b: LocalExecution) {
    a == b.(controllerId := a.controllerId, observedAt := a.observedAt)
  }

  /** `Ok(None)`: the stored row already says this, nothing is written. */
  function PrepareRecovery(stored: Option<Stored>, r: Request): Result<Option<LocalExecution>, WriteError>
    requires r.Recover?
  {
    if stored.Some? && stored.value.value.controllerId != r.controllerId then Err(OtherController)
    else
      var proposed := Proposed(stored, r);
      if stored.Some? && Comparable(proposed, stored.value.value) then Ok(None)
      else
        var revision := if stored.Some? then stored.value.revision + 1 else 0;
        Ok(Some(proposed.(control := Align(proposed.control, revision))))
  }

  /** What a request would save over the row it read. */
  function Prepare(stored: Option<Stored>, r: Request): Result<Option<LocalExecution>, WriteError> {
    if r.Recover? then PrepareRecovery(stored, r)
    else
      var p := PrepareWrite(stored, r);
      if p.Ok? then Ok(Some(p.value)) else Err(p.error)
  }

  /** A request run to its end with nobody in between: the row it leaves and the row it answers with. */
  function Run(row: Option<Stored>, r: Request): (Option<Stored>, Result<Stored, WriteError>) {
    var loaded := LoadRow(row);
    if r.Write? && !ValidUpdate(r.expected, r.next) then (row, Err(InvalidUpdate))
    else if loaded.Err? then (row, Err(Store(loaded.error)))
    else
      var p := Prepare(row, r);
      if p.Err? then (row, Err(p.error))
      else if p.value.None? then (if row.Some? then (row, Ok(row.value)) else (row, Err(StaleControl)))
      else
        var (after, answer) := SaveRow(row, RevisionOf(row), p.value.value, false);
        (after, if answer.Ok? then Ok(answer.value) else Err(Store(answer.error)))
  }

  ghost predicate RowOk(row: Option<Stored>) {
    row.Some? ==> 0 <= row.value.revision < MAX_SAFE_INTEGER && Aligned(row.value)
  }

  // ----- What the writers promise -----

  /**
   A control update is a compare-and-swap: it is accepted exactly when it is the successor of the stored control state.
   In particular the first control state can only be written where there is no row at all, even one without control.
   */
  lemma WriteIsCompareAndSwap(row: Option<Stored>, r: Request)
    requires RowOk(row) && r.Write?
    ensures var (after, answer) := Run(row, r);
            && (answer.Ok? <==>
                  && StoredControl(row) == r.expected && (r.expected.None? ==> row.None?)
                  && ValidUpdate(r.expected, r.next))
            && (answer.Ok? ==> StoredControl(after) == Some(r.next) && RevisionOf(after) == Some(r.next.sequence))
            && (answer.Err? ==> after == row)
  {
  }

  lemma RecoveryIsAccepted(row: Option<Stored>, r: Request)
    requires RowOk(row) && r.Recover? && !(row.Some? && row.value.value.controllerId != r.controllerId)
    ensures var (after, answer) := Run(row, r);
            && answer.Ok? && after == Some(answer.value) && Aligned(answer.value)
            && (after != row ==> answer.value.revision == (if row.Some? then row.value.revision + 1 else 0)
                                 && StoredControl(after) == Align(Proposed(row, r).control, answer.value.revision))
            && (after == row ==> StoredControl(after) == Proposed(row, r).control)
  {
    var proposed := Proposed(row, r);
    if row.Some? && Comparable(proposed, row.value.value) {
      assert Run(row, r) == (row, Ok(row.value));
    } else {
      var revision := if row.Some? then row.value.revision + 1 else 0;
      assert Prepare(row, r) == Ok(Some(proposed.(control := Align(proposed.control, revision))));
    }
  }

  /**
   A recovery is refused only for another controller's row; whatever it stores is aligned with its revision, and without
   a replacement it keeps the control state up to that alignment.
   */
  lemma RecoveryAlwaysAligns(row: Option<Stored>, r: Request)
    requires RowOk(row) && r.Recover?
    ensures var (after, answer) := Run(row, r);
            && (answer.Err? <==> row.Some? && row.value.value.controllerId != r.controllerId)
            && (answer.Err? ==> after == row)
            && (answer.Ok? ==> after == Some(answer.value) && Aligned(answer.value))
            && (answer.Ok? && after != row ==> answer.value.revision == (if row.Some? then row.value.revision + 1 else 0))
            && (answer.Ok? && r.replacement.None? ==> StoredControl(after) == Align(StoredControl(row), answer.value.revision))
  {
    if !(row.Some? && row.value.value.controllerId != r.controllerId) {
      RecoveryIsAccepted(row, r);
    }
  }

  predicate Means(kind: RecoveryKind, disposition: Disposition) {
    && (disposition.Foreign? <==> kind.OwnerForeign?) && (disposition.Ambiguous? <==> kind.OwnerAmbiguous?)
    && (disposition.Inactive? <==> kind.OwnerInactive?) && (disposition.Ready? <==> kind.OwnerReady?)
  }

  /** The evidence of a request as it is stored: its keys in order, and a migration that is only ever replaced by another. */
  ghost predicate Records(row: Option<Stored>, r: Request, v: LocalExecution)
    requires r.Recover?
  {
    && v.controllerId == r.controllerId && Means(r.kind, v.disposition) && v.owner == r.owner && v.reason == r.reason
    && SortedBy(LexLe, v.publicationKeys)
    && multiset(v.publicationKeys) == multiset(if r.baseline.Some? then r.baseline.value else r.evidenceKeys)
    && v.migrationId == (if r.migration.Some? then r.migration else if row.Some? then row.value.value.migrationId else None)
  }

  /** Whatever the row said before, an accepted recovery leaves what it found: decision, owner, reason, keys and migration. */
  lemma RecoveryRecords(row: Option<Stored>, r: Request)
    requires RowOk(row) && r.Recover? && Run(row, r).1.Ok?
    ensures var after := Run(row, r).0;
            after.Some? && Records(row, r, after.value.value) && (after != row ==> after.value.value.observedAt == r.observedAt)
  {
    RecoveryIsAccepted(row, r);
    LexIsPreorder();
    SortSorted(LexLe, if r.baseline.Some? then r.baseline.value else r.evidenceKeys);
  }

  /** An accepted update changes the control state, the writer and the time, and of the rest only the keys it brings. */
  lemma WriteKeepsTheRest(row: Option<Stored>, r: Request)
    requires RowOk(row) && r.Write? && Run(row, r).1.Ok?
    ensures var after := Run(row, r).0;
            && after.Some? && after.value.value.controllerId == r.controllerId && after.value.value.observedAt == r.observedAt
            && (r.keys.Some? ==> after.value.value.publicationKeys == r.keys.value)
            && (row.Some? ==>
                  var was, now := row.value.value, after.value.value;
                  && now.migrationId == was.migrationId && now.owner == was.owner && now.disposition == was.disposition
                  && now.reason == was.reason && (r.keys.None? ==> now.publicationKeys == was.publicationKeys))
            && (row.None? ==>
                  var now := after.value.value;
                  now.migrationId.None? && now.owner.None? && now.disposition.Ready? && now.reason.None? && (r.keys.None? ==> now.publicationKeys == []))
  {
  }

  /** `replacement` would be stored as it is. */
  predicate Settled(after: Option<Stored>, r: Request)
    requires r.Recover?
  {
    r.replacement == None || r.replacement.value == None
    || (after.Some? && r.replacement.value.value.sequence == after.value.revision)
  }

  /** Repeating a recovery writes nothing, except when it replaces the control state by one that had to be realigned. */
  lemma RepeatWritesNothing(row: Option<Stored>, r: Request)
    requires RowOk(row) && r.Recover? && Run(row, r).1.Ok?
    requires RowOk(Run(row, r).0)
    ensures var after := Run(row, r).0;
            Run(after, r).0 == after <==> Settled(after, r)
  {
    var after := Run(row, r).0;
    assert after.Some?;
    var again := Proposed(after, r);
    assert again.migrationId == after.value.value.migrationId;
    assert again.publicationKeys == after.value.value.publicationKeys;
    if Settled(after, r) {
      assert again.control == after.value.value.control;
      assert Comparable(again, after.value.value);
    } else {
      assert again.control.value.sequence != after.value.revision;
      assert !Comparable(again, after.value.value);
    }
  }

  /** Equal up to the sequence, which a recovery may realign. */
  predicate SameControl(a: Option<Control>, b: Option<Control>) {
    if a.Some? && b.Some? then a.value.(sequence := b.value.sequence) == b.value else a.None? && b.None?
  }

  /** The control state a request stores, where it names one. */
  function Named(r: Request): Option<Option<Control>> {
    if r.Write? then Some(Some(r.next)) else r.replacement
  }

  /** A request that was accepted stored what it names, whatever control state was there, and otherwise kept that. */
  lemma NamedIsStored(row: Option<Stored>, r: Request)
    requires Prepare(row, r).Ok? && Prepare(row, r).value.Some?
    ensures SameControl(Prepare(row, r).value.value.control, if Named(r).Some? then Named(r).value else StoredControl(row))
  {
  }

  /** A recovery that gets as far as its proposal stores it, unless the row says as much already. */
  lemma RunOfProposed(row: Option<Stored>, r: Request)
    requires r.Recover? && LoadRow(row).Ok? && (row.Some? ==> row.value.value.controllerId == r.controllerId)
    ensures row.Some? && Comparable(Proposed(row, r), row.value.value) ==> Run(row, r) == (row, Ok(row.value))
    ensures !(row.Some? && Comparable(Proposed(row, r), row.value.value)) ==>
              var proposed, revision := Proposed(row, r), if row.Some? then row.value.revision + 1 else 0;
              var (after, answer) := SaveRow(row, RevisionOf(row), proposed.(control := Align(proposed.control, revision)), false);
              Run(row, r) == (after, if answer.Ok? then Ok(answer.value) else Err(Store(answer.error)))
  {
  }

  // ----- The writer object -----

  class Writer {
    const store: Database
    const key: Key
    const controllerId: string

    constructor (store: Database, key: Key, controllerId: string)
      ensures this.store == store && this.key == key && this.controllerId == controllerId
    {
      this.store, this.key, this.controllerId := store, key, controllerId;
    }

    /** Load and save run in one turn of the event loop, so nothing of this process comes between them. */
    method Write(expected: Option<Control>, next: Control, keys: Option<seq<string>>, now: string)
      returns (r: Result<Control, WriteError>)
      modifies store
      ensures old(store.Valid()) ==> store.Valid()
      ensures var request := Request.Write(controllerId, now, expected, next, keys);
              var (after, answer) := Run(old(store.Row(key)), request);
              store.Row(key) == after && r.Ok? == answer.Ok? && (r.Ok? ==> r.value == next) && (r.Err? ==> r.error == answer.error)
      ensures store.rows - {key} == old(store.rows) - {key}
    {
      if next.flowInstanceId != (if expected.Some? then expected.value.flowInstanceId else next.flowInstanceId)
         || next.sequence != (if expected.Some? then expected.value.sequence else -1) + 1 { return Err(InvalidUpdate); }
      var loaded := store.Load(key);
      if loaded.Err? { return Err(Store(loaded.error)); }
      var stored := loaded.value;
      if StoredControl(stored) != expected { return Err(StaleControl); }
      var value := LocalExecution(None, controllerId, now, None, Ready, None, if keys.Some? then keys.value else [], Some(next));
      if stored.Some? {
        var was := stored.value.value;
        value := LocalExecution(was.migrationId, controllerId, now, was.owner, was.disposition, was.reason,
                                if keys.Some? then keys.value else was.publicationKeys, Some(next));
      }
      var saved := store.Save(key, RevisionOf(stored), value, false);
      if saved.Err? { return Err(Store(saved.error)); }
      return Ok(next);
    }

    method RecordRecovery(migration: Option<string>, evidenceKeys: seq<string>, owner: Option<Owner>, kind: RecoveryKind,
                          reason: Option<string>, replacement: Option<Option<Control>>, baseline: Option<seq<string>>, now: string)
      returns (r: Result<Stored, WriteError>)
      modifies store
      ensures old(store.Valid()) ==> store.Valid()
      ensures var request := Request.Recover(controllerId, now, migration, evidenceKeys, owner, kind, reason, replacement, baseline);
              (store.Row(key), r) == Run(old(store.Row(key)), request)
      ensures store.rows - {key} == old(store.rows) - {key}
    {
      ghost var request := Request.Recover(controllerId, now, migration, evidenceKeys, owner, kind, reason, replacement, baseline);
      var loaded := store.Load(key);
      if loaded.Err? { return Err(Store(loaded.error)); }
      var stored := loaded.value;
      if stored.Some? && stored.value.value.controllerId != controllerId { return Err(OtherController); }
      var control := if replacement.Some? then replacement.value else StoredControl(stored);
      var migrationId := if migration.Some? then migration else if stored.Some? then stored.value.value.migrationId else None;
      var keys := Sort(LexLe, if baseline.Some? then baseline.value else evidenceKeys);
      var proposed := LocalExecution(migrationId, controllerId, now, owner, DispositionOf(kind), reason, keys, control);
      assert proposed == Proposed(stored, request);
      RunOfProposed(stored, request);
      r := StoreProposed(stored, proposed);
    }

    method StoreProposed(stored: Option<Stored>, proposed: LocalExecution) returns (r: Result<Stored, WriteError>)
      requires stored == store.Row(key)
      modifies store
      ensures old(store.Valid()) ==> store.Valid()
      ensures store.rows - {key} == old(store.rows) - {key}
      ensures stored.Some? && Comparable(proposed, stored.value.value) ==> store.Row(key) == stored && r == Ok(stored.value)
      ensures !(stored.Some? && Comparable(proposed, stored.value.value)) ==>
                var revision := if stored.Some? then stored.value.revision + 1 else 0;
                var (after, answer) := SaveRow(stored, RevisionOf(stored), proposed.(control := Align(proposed.control, revision)), false);
                store.Row(key) == after && r == (if answer.Ok? then Ok(answer.value) else Err(Store(answer.error)))
    {
      if stored.Some? && Comparable(proposed, stored.value.value) { return Ok(stored.value); }
      var revision := if stored.Some? then stored.value.revision + 1 else 0;
      var saved := store.Save(key, RevisionOf(stored), proposed.(control := Align(proposed.control, revision)), false);
      if saved.Err? { return Err(Store(saved.error)); }
      return Ok(saved.value);
    }
  }
}
