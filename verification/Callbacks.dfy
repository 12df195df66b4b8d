/** The callback service: maps updated in place by each stretch of schedule, cancel, dispatch and teardown. */
module Callbacks {
  import opened Common
  import opened CallbackStates
  import States = CallbackStates

  class CallbackService {
    const config: ValidConfig
    var records: map<Id, Record>
    var fingerprints: map<Key, Fingerprint>
    var results: map<Key, Record>
    var pendingSchedules: map<Key, Pending>
    var pendingCancellations: map<Id, Key>
    var scheduleCancellations: map<Key, Key>
    var failed: map<Key, Id>
    var incarnations: map<Id, nat>
    var attempts: map<(Id, nat), nat>
    var sequence: nat

    function Snapshot(): Service
      reads this
    {
      Service(records, fingerprints, results, pendingSchedules, pendingCancellations, scheduleCancellations, failed,
              incarnations, attempts, sequence)
    }

    constructor (config: ValidConfig)
      ensures this.config == config
      ensures Snapshot() == Service(map[], map[], map[], map[], map[], map[], map[], map[], map[], 0)
    {
      this.config := config;
      records, fingerprints, results, pendingSchedules := map[], map[], map[], map[];
      pendingCancellations, scheduleCancellations, failed := map[], map[], map[];
      incarnations, attempts, sequence := map[], map[], 0;
    }

    method StoreOperation(key: Key, fingerprint: Fingerprint, record: Record)
      modifies this
      ensures Snapshot() == Stored(old(Snapshot()), key, fingerprint, record)
    {
      fingerprints := fingerprints[key := fingerprint];
      results := results[key := record];
      records := records[record.request.callbackId := record];
    }

    method RecordFailedCancellation(key: Key, id: Id)
      modifies this
      ensures Snapshot() == Tombstoned(old(Snapshot()), key, id)
    {
      fingerprints := fingerprints[key := OfCancel(id)];
      failed := failed[key := id];
    }

    method NextCleanupKey(id: Id, incarnation: nat) returns (key: Key)
      modifies this
      ensures Snapshot() == Minted(old(Snapshot()), id, incarnation)
      ensures key == MintedKey(old(Snapshot()), id, incarnation)
    {
      var attempt := (if (id, incarnation) in attempts then attempts[(id, incarnation)] else 0) + 1;
      attempts := attempts[(id, incarnation) := attempt];
      return Cleanup(id, incarnation, attempt);
    }

    method Block(request: Request, reasons: seq<Reason>, now: Time) returns (record: Record)
      modifies this
      ensures record == BlockedRecord(request, reasons, now)
      ensures Snapshot() == Stored(old(Snapshot()), request.key, OfSchedule(request), record)
    {
      record := Record(request, Blocked, None, reasons, now);
      StoreOperation(request.key, OfSchedule(request), record);
    }

    method CheckCapacity(id: Id) returns (refusal: Option<Error>)
      ensures refusal == Refusal(Snapshot(), id, config)
    {
      var active := set i | i in records && Active(records[i].status);
      active := active + set key | key in pendingSchedules :: pendingSchedules[key].request.callbackId;
      assert active == ActiveIds(Snapshot());
      if id !in active && |active| >= config.maxCallbacks { return Some(CapacityReached); }
      if id in records && Active(records[id].status) { return Some(AlreadyScheduled); }
      if id in active { return Some(OutcomePending); }
      return None;
    }

    /** schedule, up to the scheduler call. */
    method BeginSchedule(request: Request, now: Time, reasons: seq<Reason>) returns (reply: Reply)
      modifies this
      ensures (Snapshot(), reply) == States.BeginSchedule(old(Snapshot()), request, now, reasons, config)
    {
      var id := request.callbackId;
      var previous := CheckOperation(Snapshot(), request.key, OfSchedule(request));
      if previous.Failure? { return Refused(previous.error); }
      if previous.value.Some? { return Answered(previous.value.value); }
      if request.key in pendingSchedules {
        if pendingSchedules[request.key].request != request { return Refused(KeyReused); }
        return Calling(Scheduling(pendingSchedules[request.key]));
      }
      if request.runAt <= now || request.runAt > now + config.maxFuture {
        var record := Block(request, [CallbackTimeInvalid], now);
        return Answered(record);
      }
      var refusal := CheckCapacity(id);
      if refusal.Some? { return Refused(refusal.value); }
      if reasons != [] {
        var record := Block(request, reasons, now);
        return Answered(record);
      }
      sequence := sequence + 1;
      var pending := Pending(request, sequence);
      pendingSchedules := pendingSchedules[request.key := pending];
      return Calling(Scheduling(pending));
    }

    /** schedule, from the scheduler's answer on. */
    method EndSchedule(pending: Pending, outcome: Outcome, now: Time)
      modifies this
      ensures Snapshot() == States.EndSchedule(old(Snapshot()), pending, outcome, now)
    {
      var request := pending.request;
      pendingSchedules := pendingSchedules - {request.key};
      if outcome.Done? {
        incarnations := incarnations[request.callbackId := pending.incarnation];
        StoreOperation(request.key, OfSchedule(request), Record(request, Scheduled, Some(outcome.reference), [], now));
      }
    }

    /** cancel, up to the scheduler call. */
    method BeginCancel(id: Id, key: Key, now: Time) returns (reply: Reply)
      modifies this
      ensures (Snapshot(), reply) == States.BeginCancel(old(Snapshot()), id, key, now)
    {
      if key.Caller? && Blank(key.text) { return Refused(EmptyKey); }
      var previous := CheckOperation(Snapshot(), key, OfCancel(id));
      if previous.Failure? { return Refused(previous.error); }
      if previous.value.Some? { return Answered(previous.value.value); }
      if id !in records { return Refused(NotFound); }
      var existing := records[id];
      if existing.status.CancellationPending? {
        if id !in pendingCancellations || pendingCancellations[id] != key { return Refused(OutcomePending); }
      } else if existing.status.Scheduled? || existing.status.CancellationRequired? {
        records := records[id := WithStatus(existing, CancellationPending, now)];
        pendingCancellations := pendingCancellations[id := key];
      } else {
        return Refused(NotCancelable);
      }
      return Calling(Canceling(existing, key));
    }

    /** cancel, from the scheduler's answer on. */
    method EndCancel(id: Id, existing: Record, key: Key, outcome: Outcome, now: Time)
      modifies this
      ensures Snapshot() == States.EndCancel(old(Snapshot()), id, existing, key, outcome, now)
    {
      if outcome.Rejected? {
        records := records[id := WithStatus(existing, CancellationRequired, now)];
        pendingCancellations := pendingCancellations - {id};
        RecordFailedCancellation(key, id);
      } else {
        var record := WithStatus(existing, Canceled, now).(reference := Some(outcome.reference));
        pendingCancellations := pendingCancellations - {id};
        StoreOperation(key, OfCancel(id), record);
      }
    }

    /** dispatch of one callback, up to the dial. */
    method BeginDispatch(id: Id, now: Time, reasons: seq<Reason>) returns (reply: Reply)
      modifies this
      ensures (Snapshot(), reply) == States.BeginDispatch(old(Snapshot()), id, now, reasons)
    {
      if id !in records || !records[id].status.Scheduled? { return Nothing; }
      if records[id].request.runAt > now { return Nothing; }
      if reasons == [] { return Calling(Dialing(records[id])); }
      var updated := WithStatus(records[id], Blocked, now).(reasons := [PolicyChanged] + reasons);
      records := records[id := updated];
      return Answered(updated);
    }

    /** dispatch of one callback, once the dial succeeded. */
    method EndDispatch(id: Id, record: Record, reference: string, now: Time)
      modifies this
      ensures Snapshot() == States.EndDispatch(old(Snapshot()), id, record, reference, now)
    {
      if id !in records { return; }
      records := records[id := WithStatus(record, Dispatched, now).(reference := Some(reference))];
    }

    /** removal of a schedule whose outcome is unknown, up to the cleanup cancellation. */
    method BeginRemoveSchedule(key: Key) returns (reply: Reply)
      modifies this
      ensures (Snapshot(), reply) == States.BeginRemoveSchedule(old(Snapshot()), key)
    {
      if key !in pendingSchedules { return Nothing; }
      var pending := pendingSchedules[key];
      var cleanup: Key;
      if key in scheduleCancellations {
        cleanup := scheduleCancellations[key];
      } else {
        cleanup := NextCleanupKey(pending.request.callbackId, pending.incarnation);
        scheduleCancellations := scheduleCancellations[key := cleanup];
      }
      return Calling(RemovingSchedule(pending, cleanup));
    }

    method EndRemoveSchedule(pending: Pending, cleanup: Key, outcome: Outcome)
      modifies this
      ensures Snapshot() == States.EndRemoveSchedule(old(Snapshot()), pending, cleanup, outcome)
    {
      var key, id := pending.request.key, pending.request.callbackId;
      scheduleCancellations := scheduleCancellations - {key};
      if outcome.Rejected? {
        RecordFailedCancellation(cleanup, id);
      } else {
        pendingSchedules := pendingSchedules - {key};
        attempts := attempts - {(id, pending.incarnation)};
      }
    }

    /** Drop everything known of a callback whose teardown is settled. */
    method Forget(id: Id)
      modifies this
      ensures Snapshot() == Forgotten(old(Snapshot()), id)
    {
      pendingCancellations := pendingCancellations - {id};
      var keys := OperationKeys(Snapshot(), id);
      fingerprints := fingerprints - keys;
      results := results - keys;
      if id in incarnations {
        attempts := attempts - {(id, incarnations[id])};
        incarnations := incarnations - {id};
      }
      records := records - {id};
      assert id !in old(incarnations) ==> old(incarnations) - {id} == old(incarnations);
      assert OperationKeys(old(Snapshot()), id) == keys;
    }

    /** removal of a callback's record, up to the cleanup cancellation when one is needed. */
    method BeginRemoveRecord(id: Id, now: Time) returns (reply: Reply)
      modifies this
      ensures (Snapshot(), reply) == States.BeginRemoveRecord(old(Snapshot()), id, now, config.ephemeral)
    {
      if id !in records { return Nothing; }
      var record := records[id];
      if record.status.Canceled? || record.status.Blocked? || (record.status.Dispatched? && !config.ephemeral) {
        Forget(id);
        return Nothing;
      }
      if record.status.CancellationPending? {
        if id !in pendingCancellations { return Refused(MissingEntry); }
        return Calling(RemovingRecord(record, pendingCancellations[id]));
      }
      if id !in incarnations { return Refused(MissingEntry); }
      var cleanup := NextCleanupKey(id, incarnations[id]);
      if !record.status.Dispatched? {
        records := records[id := WithStatus(record, CancellationPending, now)];
        pendingCancellations := pendingCancellations[id := cleanup];
      }
      return Calling(RemovingRecord(record, cleanup));
    }

    method EndRemoveRecord(id: Id, record: Record, cleanup: Key, outcome: Outcome, now: Time)
      modifies this
      ensures Snapshot() == States.EndRemoveRecord(old(Snapshot()), id, record, cleanup, outcome, now)
    {
      if outcome.Done? {
        Forget(id);
      } else if !record.status.Dispatched? {
        records := records[id := WithStatus(record, CancellationRequired, now)];
        pendingCancellations := pendingCancellations - {id};
        RecordFailedCancellation(cleanup, id);
      }
    }

    /** Drop the tombstones of a prefix whose callbacks are gone from every live map. */
    method ReleaseFailedCancellations(prefix: Id)
      modifies this
      ensures Snapshot() == ReleaseFailed(old(Snapshot()), prefix)
    {
      var live := records.Keys + set key | key in pendingSchedules :: pendingSchedules[key].request.callbackId;
      var reclaimable := set key | key in failed && prefix <= failed[key] && failed[key] !in live;
      assert reclaimable == Reclaimable(Snapshot(), prefix);
      failed := failed - reclaimable;
      fingerprints := fingerprints - reclaimable;
      results := results - reclaimable;
    }
  }
}
