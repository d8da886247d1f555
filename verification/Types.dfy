/**
 Identifiers, payloads and records that every part of the model shares.

 Identifiers, scopes, keys and JSON payloads are opaque values of which only equality
 matters; sequence numbers are mathematical integers and a point in time is an `int`.
 */
module Types {
  type RunId(==, !new)
  type SessionId(==, !new)
  type ThreadId(==, !new)
  type WorkerId(==, !new)
  type LeaseId(==, !new)
  type Scope(==, !new)
  type Key(==, !new)
  type Value(==, !new)

  datatype Option<+T> = None | Some(value: T)

  /** The error kinds of the run store; message texts and payloads are not modelled. */
  datatype Error =
    | InvalidRunEvent
    | RunNotFound
    | StartConflict
    | ThreadBusy
    | LeaseLost
    | CheckpointRun
    | EffectConflict
    | EffectNotFound
    | EffectPending
    | ItemConflict
    | EntryConflict
    | RunAlreadyActive
    | CapacityExceeded
    | InvalidPageLimit
    | StoreDb

  datatype Result<+T> = Ok(value: T) | Err(error: Error)

  datatype Outcome = Pass | Fail(error: Error)

  datatype RunStatus = Running | Completed | Interrupted | Cancelled | Errored
  {
    predicate IsTerminal() { !Running? }
  }

  /** Why a run finished: the text its writer gave, or the reaper's own reason. */
  datatype Reason = Given(text: Value) | LeaseExpired

  datatype Event = Event(run: RunId, session: SessionId, num: int, terminal: bool, payload: Value)

  /** A claimed lease; `ttl` is a duration, so it is never negative. */
  datatype LeaseClaim = LeaseClaim(owner: WorkerId, id: LeaseId, ttl: nat)

  /** The token a worker presents to renew or release its lease. */
  datatype LeaseRef = LeaseRef(run: RunId, owner: WorkerId, id: LeaseId)

  datatype Vis = Public | Internal

  datatype EntryWrite = EntryWrite(key: Key, kind: Value, vis: Vis, body: Value)

  datatype ItemWrite = ItemWrite(key: Key, kind: Value, body: Value)

  datatype EffectStatus = Reserved | Started | Done | Failed | Unknown
  {
    predicate IsBlocking() { Started? || Unknown? }
  }

  datatype EffectUpdate = EffectUpdate(key: Key, status: EffectStatus, result: Option<Value>,
                                       errorCode: Option<Value>, errorMessage: Option<Value>)
  {
    /** The shapes produced by the constructors `done`, `failed` and `unknown`. */
    predicate Constructed() {
      match status
      case Done => result.Some? && errorCode.None? && errorMessage.None?
      case Failed => result.None? && errorCode.Some? && errorMessage.Some?
      case Unknown => result.None? && errorCode.None? && errorMessage.Some?
      case _ => false
    }
  }

  /** `body` stands for agent kind, model, parents, metadata and input. */
  datatype RunStart = RunStart(run: RunId, session: SessionId, thread: ThreadId, clientKey: Option<Key>,
                               scope: Scope, body: Value, entries: seq<EntryWrite>,
                               lease: Option<LeaseClaim>)
  {
    /** The start signature: everything but the run id, the scope and the lease. */
    function Sig(): StartSig {
      StartSig(session, thread, clientKey, body, entries)
    }
  }

  datatype StartSig = StartSig(session: SessionId, thread: ThreadId, clientKey: Option<Key>, body: Value,
                               entries: seq<EntryWrite>)

  /** A checkpoint names the run that wrote it; its state and steps are opaque here. */
  datatype CheckpointRecord = CheckpointRecord(run: Option<RunId>, body: Value)

  datatype CheckpointWrite = CheckpointWrite(thread: ThreadId, record: CheckpointRecord)

  datatype RunFinish = RunFinish(run: RunId, session: SessionId, status: RunStatus, reason: Reason)

  datatype Commit = Commit(run: RunId, session: SessionId, scope: Scope, lease: Option<LeaseId>,
                           checkpoint: Option<CheckpointWrite>, events: seq<Event>,
                           effects: seq<EffectUpdate>, items: seq<ItemWrite>, entries: seq<EntryWrite>,
                           finish: Option<RunFinish>)

  datatype FinishRecord = FinishRecord(run: RunId, session: SessionId, scope: Scope, status: RunStatus,
                                       reason: Reason, terminalEvent: Event, entries: seq<EntryWrite>)

  datatype FinishResult = Finished(event: Event) | AlreadyFinished(event: Event)

  datatype CommitResult =
    | Recorded(events: seq<Event>)
    | CommitFinished(events: seq<Event>, result: FinishResult)
    | Skipped

  datatype RunLookup = RunLookup(run: RunId, session: SessionId, thread: ThreadId, status: RunStatus,
                                 finishReason: Option<Reason>, cancelRequested: bool,
                                 owner: Option<WorkerId>)

  datatype StartResult = Created | Existing(lookup: RunLookup)
}
