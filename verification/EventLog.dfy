/** The durable event log of one lead, how it is loaded, and what the engine can have put in it. */
module EventLog {
  import opened Common
  import opened Conversation
  import opened SessionReplay

  /** A stored event: a conversation turn, a conversation event this build does not know, or another
      subsystem's event on the same lead. */
  datatype Payload = Accepted(event: TurnEvent) | UnsupportedConversation | Foreign

  datatype Entry = Entry(version: nat, occurredAt: int, payload: Payload)

  datatype JournaledTurn = JournaledTurn(version: nat, occurredAt: int, event: TurnEvent)

  datatype LoadError =
    | CapacityExceeded | VersionsNotContiguous | UnsupportedEvent | LeadIdentityChanges
    | DuplicateOperations | ChangedWhileLoading

  /** The conversation turns of a log, in order. */
  function Turns(log: seq<Entry>): seq<JournaledTurn> {
    if log == [] then []
    else
      var last := log[|log| - 1];
      Turns(log[..|log| - 1]) +
      if last.payload.Accepted? then [JournaledTurn(last.version, last.occurredAt, last.payload.event)] else []
  }

  function Session(turns: seq<JournaledTurn>, sessionId: Uuid): seq<TurnEvent> {
    if turns == [] then []
    else
      var last := turns[|turns| - 1].event;
      Session(turns[..|turns| - 1], sessionId) + if last.sessionId == sessionId then [last] else []
  }

  function SessionEvents(log: seq<Entry>, sessionId: Uuid): seq<TurnEvent> {
    Session(Turns(log), sessionId)
  }

  lemma SessionEventsAppend(log: seq<Entry>, e: Entry, sessionId: Uuid)
    ensures Turns(log + [e]) ==
            Turns(log) + if e.payload.Accepted? then [JournaledTurn(e.version, e.occurredAt, e.payload.event)] else []
    ensures SessionEvents(log + [e], sessionId) ==
            SessionEvents(log, sessionId) +
            if e.payload.Accepted? && e.payload.event.sessionId == sessionId then [e.payload.event] else []
  {
    assert (log + [e])[..|log|] == log;
    if e.payload.Accepted? {
      var t := JournaledTurn(e.version, e.occurredAt, e.payload.event);
      assert (Turns(log) + [t])[..|Turns(log)|] == Turns(log);
    } else {
      assert Turns(log + [e]) == Turns(log);
    }
  }

  predicate Contiguous(log: seq<Entry>) {
    forall i :: 0 <= i < |log| ==> log[i].version == i + 1
  }

  predicate UniqueOperations(turns: seq<JournaledTurn>) {
    forall i, j :: 0 <= i < j < |turns| ==> turns[i].event.operationId != turns[j].event.operationId
  }

  /** The first event of the log that does not parse for this lead. */
  function ParseError(leadId: Uuid, log: seq<Entry>): (r: Option<LoadError>)
    ensures r.Some? ==> r.value == UnsupportedEvent || r.value == LeadIdentityChanges
  {
    if log == [] then None
    else
      var earlier := ParseError(leadId, log[..|log| - 1]);
      if earlier.Some? then earlier
      else match log[|log| - 1].payload
        case Foreign => None
        case UnsupportedConversation => Some(UnsupportedEvent)
        case Accepted(ev) => if ev.result.classification.leadId != leadId then Some(LeadIdentityChanges) else None
  }

  /** Loading the log as it stands at one instant. */
  function Load(leadId: Uuid, log: seq<Entry>, limit: nat): Result<seq<JournaledTurn>, LoadError> {
    if |log| > limit then Failure(CapacityExceeded)
    else if !Contiguous(log) then Failure(VersionsNotContiguous)
    else if ParseError(leadId, log).Some? then Failure(ParseError(leadId, log).value)
    else if !UniqueOperations(Turns(log)) then Failure(DuplicateOperations)
    else Success(Turns(log))
  }

  /** An append-only store: each later observation extends the earlier ones. */
  ghost predicate Growing(instants: seq<seq<Entry>>) {
    forall i, j :: 0 <= i <= j < |instants| ==> instants[i] <= instants[j]
  }

  /** The version a status query reports; the store counts the events it appended. */
  function StatusOf(log: seq<Entry>): Option<nat> {
    if log == [] then None else Some(|log|)
  }

  /** Parse every event, up to the first that does not. */
  method ParseEvents(leadId: Uuid, raw: seq<Entry>) returns (r: Result<seq<JournaledTurn>, LoadError>)
    ensures r == var error := ParseError(leadId, raw); if error.Some? then Failure(error.value) else Success(Turns(raw))
  {
    var turns: seq<JournaledTurn> := [];
    for i := 0 to |raw|
      invariant ParseError(leadId, raw[..i]).None?
      invariant turns == Turns(raw[..i])
    {
      assert raw[..i + 1][..i] == raw[..i];
      match raw[i].payload
      case Foreign =>
      case UnsupportedConversation =>
        ParseErrorIsFirst(leadId, raw, i + 1);
        return Failure(UnsupportedEvent);
      case Accepted(ev) =>
        if ev.result.classification.leadId != leadId {
          ParseErrorIsFirst(leadId, raw, i + 1);
          return Failure(LeadIdentityChanges);
        }
        turns := turns + [JournaledTurn(raw[i].version, raw[i].occurredAt, ev)];
    }
    assert raw[..|raw|] == raw;
    r := Success(turns);
  }

  /** Loading as it is run: each attempt queries the status, reads at most limit + 1 events and queries the
      status again, at three different instants of a store other writers keep appending to. A load that
      returns is an atomic load at one of those instants; only a store that changed under every single
      attempt is reported as changing. */
  method LoadEvents(leadId: Uuid, instants: seq<seq<Entry>>, attempts: nat, limit: nat)
    returns (r: Result<seq<JournaledTurn>, LoadError>)
    requires |instants| == 3 * attempts
    requires Growing(instants)
    ensures r != Failure(ChangedWhileLoading) ==>
              exists k :: 0 <= k < |instants| && r == Load(leadId, instants[k], limit)
    ensures r == Failure(ChangedWhileLoading) ==>
              forall a :: 0 <= a < attempts ==> instants[3 * a] != instants[3 * a + 2]
  {
    var attempt := 0;
    while attempt < attempts
      invariant 0 <= attempt <= attempts
      invariant forall a :: 0 <= a < attempt ==> instants[3 * a] != instants[3 * a + 2]
    {
      var before, during, after := instants[3 * attempt], instants[3 * attempt + 1], instants[3 * attempt + 2];
      attempt := attempt + 1;
      var statusBefore := StatusOf(before);
      if statusBefore.Some? && statusBefore.value > limit { return Failure(CapacityExceeded); }
      var raw := if |during| <= limit + 1 then during else during[..limit + 1];
      var statusAfter := StatusOf(after);
      if statusBefore != statusAfter { continue; }
      assert |before| == |after| && before <= during <= after;
      assert before == during == after == raw;
      if !Contiguous(raw) { return Failure(VersionsNotContiguous); }
      var parsed := ParseEvents(leadId, raw);
      if parsed.Failure? { return parsed; }
      if !UniqueOperations(parsed.value) { return Failure(DuplicateOperations); }
      return parsed;
    }
    r := Failure(ChangedWhileLoading);
  }

  lemma {:induction false} ParseErrorIsFirst(leadId: Uuid, log: seq<Entry>, k: nat)
    requires k <= |log| && ParseError(leadId, log[..k]).Some?
    ensures ParseError(leadId, log) == ParseError(leadId, log[..k])
    decreases |log| - k
  {
    if k < |log| {
      assert log[..k + 1][..k] == log[..k];
      ParseErrorIsFirst(leadId, log, k + 1);
    } else {
      assert log[..k] == log;
    }
  }

  // ----- what an engine can have written -----

  ghost predicate KnownFactId(log: seq<Entry>, id: Uuid) {
    exists i, f :: 0 <= i < |log| && log[i].payload.Accepted? && f in log[i].payload.event.result.facts && f.factId == id
  }

  ghost predicate KnownRevisionId(log: seq<Entry>, id: Uuid) {
    exists i, r :: 0 <= i < |log| && log[i].payload.Accepted? && r in log[i].payload.event.result.revisions
                   && r.revisionId == id
  }

  ghost predicate KnownOperation(log: seq<Entry>, id: Uuid) {
    exists i :: 0 <= i < |log| && log[i].payload.Accepted? && log[i].payload.event.operationId == id
  }

  /** The identifiers a turn generates are new to the log and to each other, and its candidates come from a
      dictionary. */
  ghost predicate FreshInput(input: TurnInput, log: seq<Entry>) {
    && DistinctKeys(input.candidates)
    && (forall i, j :: 0 <= i < j < |input.candidates| ==>
          && input.candidates[i].factId != input.candidates[j].factId
          && input.candidates[i].revisionId != input.candidates[j].revisionId)
    && (forall c :: c in input.candidates ==> !KnownFactId(log, c.factId) && !KnownRevisionId(log, c.revisionId))
  }

  /** `ev` is the event of one turn, with this input, from the state the log gives its session. */
  ghost predicate ProducedBy(leadId: Uuid, log: seq<Entry>, ev: TurnEvent, cp: Checkpoint, input: TurnInput) {
    && StateAfter(leadId, SessionEvents(log, ev.sessionId), cp)
    && FreshInput(input, log)
    && !KnownOperation(log, ev.operationId)
    && ProcessTurn(cp, input).Success?
    && var o := ProcessTurn(cp, input).value;
       EventFromState(ev.sessionId, ev.operationId, ev.fingerprint, o.state, o.result) == Success(ev)
  }

  ghost predicate ProducedEntry(leadId: Uuid, log: seq<Entry>, e: Entry) {
    && e.version == |log| + 1
    && (log != [] ==> log[|log| - 1].occurredAt <= e.occurredAt)
    && !e.payload.UnsupportedConversation?
    && (e.payload.Accepted? ==> exists cp, input :: ProducedBy(leadId, log, e.payload.event, cp, input))
  }

  /** Every entry was appended, in turn, by an engine or by another subsystem. */
  ghost predicate Produced(leadId: Uuid, log: seq<Entry>) {
    log != [] ==>
      Produced(leadId, log[..|log| - 1]) && ProducedEntry(leadId, log[..|log| - 1], log[|log| - 1])
  }

  lemma {:induction false} ProducedPrefix(leadId: Uuid, log: seq<Entry>, k: nat)
    requires Produced(leadId, log) && k <= |log|
    ensures Produced(leadId, log[..k])
  {
    if k < |log| {
      ProducedPrefix(leadId, log[..|log| - 1], k);
      assert log[..|log| - 1][..k] == log[..k];
    } else {
      assert log[..k] == log;
    }
  }

  lemma {:induction false} TurnsComeFromLog(log: seq<Entry>)
    ensures forall t :: t in Turns(log) ==>
              exists i :: 0 <= i < |log| && log[i].payload.Accepted?
                          && t == JournaledTurn(log[i].version, log[i].occurredAt, log[i].payload.event)
  {
    if log != [] {
      var init := log[..|log| - 1];
      TurnsComeFromLog(init);
      forall t | t in Turns(log)
        ensures exists i :: 0 <= i < |log| && log[i].payload.Accepted?
                            && t == JournaledTurn(log[i].version, log[i].occurredAt, log[i].payload.event)
      {
        if t in Turns(init) {
          var i :| 0 <= i < |init| && init[i].payload.Accepted?
                   && t == JournaledTurn(init[i].version, init[i].occurredAt, init[i].payload.event);
          assert log[i] == init[i];
        } else {
          assert log[|log| - 1].payload.Accepted?;
        }
      }
    }
  }

  lemma {:induction false} ProducedVersions(leadId: Uuid, log: seq<Entry>)
    requires Produced(leadId, log)
    ensures Contiguous(log)
    ensures forall i, j :: 0 <= i <= j < |log| ==> log[i].occurredAt <= log[j].occurredAt
  {
    if log != [] {
      var init := log[..|log| - 1];
      ProducedVersions(leadId, init);
      assert forall i :: 0 <= i < |init| ==> init[i] == log[i];
      assert init != [] ==> init[|init| - 1] == log[|log| - 2];
    }
  }

  lemma {:induction false} ProducedParses(leadId: Uuid, log: seq<Entry>)
    requires Produced(leadId, log)
    ensures ParseError(leadId, log).None? && UniqueOperations(Turns(log))
  {
    if log != [] {
      var init, e := log[..|log| - 1], log[|log| - 1];
      ProducedParses(leadId, init);
      ProducedEntryParses(leadId, init, e);
    }
  }

  /** Every log engines can produce is well formed: versions contiguous, timestamps ordered, no parse error,
      operation identifiers unique. Loading it can fail only for its length. */
  lemma ProducedLoads(leadId: Uuid, log: seq<Entry>, limit: nat)
    requires Produced(leadId, log)
    ensures Load(leadId, log, limit) == if |log| <= limit then Success(Turns(log)) else Failure(CapacityExceeded)
  {
    ProducedVersions(leadId, log);
    ProducedParses(leadId, log);
  }

  lemma ProducedEntryParses(leadId: Uuid, log: seq<Entry>, e: Entry)
    requires ProducedEntry(leadId, log, e)
    ensures e.payload.Accepted? ==>
              && e.payload.event.result.classification.leadId == leadId
              && forall t :: t in Turns(log) ==> t.event.operationId != e.payload.event.operationId
  {
    if e.payload.Accepted? {
      var cp, input :| ProducedBy(leadId, log, e.payload.event, cp, input);
      StateAfterIsValid(leadId, SessionEvents(log, e.payload.event.sessionId), cp);
      TurnKeepsValid(cp, input);
      TurnsComeFromLog(log);
      forall t | t in Turns(log) ensures t.event.operationId != e.payload.event.operationId {
        var i :| 0 <= i < |log| && log[i].payload.Accepted?
                 && t == JournaledTurn(log[i].version, log[i].occurredAt, log[i].payload.event);
        assert KnownOperation(log, t.event.operationId);
      }
    }
  }

  /** Replay finds exactly the sessions it is given events of, and cannot fail on them. */
  ghost predicate Replays(leadId: Uuid, events: seq<TurnEvent>) {
    if events == [] then Replay(leadId, events) == Failure(JournalNotFound) else Replay(leadId, events).Success?
  }

  lemma ProducedEntryReplays(leadId: Uuid, log: seq<Entry>, e: Entry)
    requires ProducedEntry(leadId, log, e) && e.payload.Accepted?
    ensures Replays(leadId, SessionEvents(log, e.payload.event.sessionId) + [e.payload.event])
  {
    var ev := e.payload.event;
    var cp, input :| ProducedBy(leadId, log, ev, cp, input);
    ReplayFollowsTurn(leadId, SessionEvents(log, ev.sessionId), cp, input, ev.sessionId, ev.operationId, ev.fingerprint);
  }

  lemma ReplaysStep(leadId: Uuid, log: seq<Entry>, e: Entry, sessionId: Uuid)
    requires ProducedEntry(leadId, log, e) && Replays(leadId, SessionEvents(log, sessionId))
    ensures Replays(leadId, SessionEvents(log + [e], sessionId))
  {
    SessionEventsAppend(log, e, sessionId);
    if e.payload.Accepted? && e.payload.event.sessionId == sessionId {
      ProducedEntryReplays(leadId, log, e);
    } else {
      assert SessionEvents(log + [e], sessionId) == SessionEvents(log, sessionId);
    }
  }

  lemma SplitLast(log: seq<Entry>)
    requires log != []
    ensures log[..|log| - 1] + [log[|log| - 1]] == log
  {
  }

  lemma NothingReplays(leadId: Uuid, sessionId: Uuid)
    ensures Replays(leadId, SessionEvents([], sessionId))
  {
    assert Turns([]) == [] && Session([], sessionId) == [];
  }

  /** Every session in a log engines can produce replays without error, and a session absent from it does not. */
  lemma {:induction false} ProducedReplays(leadId: Uuid, log: seq<Entry>, sessionId: Uuid)
    requires Produced(leadId, log)
    ensures Replays(leadId, SessionEvents(log, sessionId))
  {
    if log == [] {
      NothingReplays(leadId, sessionId);
    } else {
      var init, e := log[..|log| - 1], log[|log| - 1];
      SplitLast(log);
      ProducedReplays(leadId, init, sessionId);
      ReplaysStep(leadId, init, e, sessionId);
    }
  }

  // ----- what loading refuses -----

  /** A log as the reader accepts it: versions from 1, every conversation event known and the lead's own, and no operation
      in it twice. */
  predicate Readable(leadId: Uuid, log: seq<Entry>) {
    && (forall i :: 0 <= i < |log| ==> log[i].version == i + 1)
    && (forall i :: 0 <= i < |log| ==> ReadableEntry(leadId, log[i]))
    && UniqueOperations(Turns(log))
  }

  predicate ReadableEntry(leadId: Uuid, e: Entry) {
    && !e.payload.UnsupportedConversation?
    && (e.payload.Accepted? ==> e.payload.event.result.classification.leadId == leadId)
  }

  lemma {:induction false} ParsesIff(leadId: Uuid, log: seq<Entry>)
    ensures ParseError(leadId, log).None? <==> forall i :: 0 <= i < |log| ==> ReadableEntry(leadId, log[i])
  {
    if log != [] {
      var init := log[..|log| - 1];
      ParsesIff(leadId, init);
      assert forall i :: 0 <= i < |init| ==> init[i] == log[i];
    }
  }

  /** A load succeeds exactly on a readable log within the limit, and then returns its conversation turns in order. */
  lemma LoadIff(leadId: Uuid, log: seq<Entry>, limit: nat)
    ensures Load(leadId, log, limit).Success? <==> |log| <= limit && Readable(leadId, log)
    ensures Load(leadId, log, limit).Success? ==> Load(leadId, log, limit).value == Turns(log)
  {
    ParsesIff(leadId, log);
  }
}
