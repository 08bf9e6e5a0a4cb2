/** Checked loads shared by the Agent's transactions. Each repeats the system's
fail-closed checks; on a sound store none of them fires. */
module AgentCore {
  import opened Types
  import opened Validators
  import opened Store
  import opened Commands
  import opened Invariant
  import opened Tables
  import opened Steps
  import opened MemoryStore
  import Fencing

  /** The last grant of a Task is the one its lease fence names. */
  lemma {:induction false} LatestIsHead(s: StoreState, ref: TaskRef, latest: Option<GrantRecord>)
    requires GrantsOk(s.tasks, s.grants) && ref in s.tasks
    requires latest.Some? ==> latest.value.Key() in s.grants && s.grants[latest.value.Key()] == latest.value && latest.value.grant.task == ref
    requires latest.Some? ==> forall key | key in s.grants && key.task == ref :: key.fence <= latest.value.grant.fence
    requires latest.None? ==> forall key | key in s.grants :: key.task != ref
    ensures latest.None? <==> s.tasks[ref].lease.fence == 0
    ensures latest.Some? ==> latest.value.grant.fence == s.tasks[ref].lease.fence
    ensures s.tasks[ref].lease.owner != "" ==> latest.Some? && latest.value.grant.worker == s.tasks[ref].lease.owner
    ensures latest.None? ==> LeaseKey(ref, s.tasks[ref].lease.fence) !in s.grants
  {
    Fencing.GrantHistoryOf(s, ref);
    var fence := s.tasks[ref].lease.fence;
    if latest.Some? {
      assert latest.value.Key() == LeaseKey(ref, latest.value.grant.fence);
      assert LeaseKey(ref, latest.value.grant.fence) in s.grants;
    }
    if fence > 0 {
      assert LeaseKey(ref, fence) in s.grants;
    }
  }

  // ---- Checked loads

  /** Fails closed on any row that does not pass its checks; a sound store has none. */
  method LoadTask(tx: Unit, ref: TaskRef) returns (r: Result<TaskRecord>)
    ensures r == if ref !in tx.state.tasks then Err(NotFound)
                 else if tx.state.tasks[ref].task.ref != ref || !ValidTaskRecord(tx.state.tasks[ref]) then Err(CorruptStore)
                 else Ok(tx.state.tasks[ref])
    ensures TasksOk(tx.state.tasks) ==> r != Err(CorruptStore)
  {
    if ref !in tx.state.tasks {
      return Err(NotFound);
    }
    var record := tx.state.tasks[ref];
    if record.task.ref != ref || !ValidTaskRecord(record) {
      return Err(CorruptStore);
    }
    return Ok(record);
  }

  method VerifyGrant(tx: Unit, g: LeaseGrant) returns (r: Result<Time>)
    ensures !ValidGrant(g) ==> r == Err(InvalidArgument)
    ensures ValidGrant(g) ==>
              var key := LeaseKey(g.task, g.fence);
              r == if key !in tx.state.grants then Err(StaleLease)
                   else if tx.state.grants[key].grant != g || tx.state.grants[key].grantedAt == ZERO_TIME then Err(CorruptStore)
                   else Ok(tx.state.grants[key].grantedAt)
    ensures ValidGrant(g) && GrantsOk(tx.state.tasks, tx.state.grants) ==> (r.Ok? <==> GrantRecorded(tx.state.grants, g))
  {
    if !ValidGrant(g) {
      return Err(InvalidArgument);
    }
    var key := LeaseKey(g.task, g.fence);
    if key !in tx.state.grants {
      return Err(StaleLease);
    }
    var record := tx.state.grants[key];
    SoundGrantTime(tx.state, key);
    if record.grant != g || record.grantedAt == ZERO_TIME {
      return Err(CorruptStore);
    }
    return Ok(record.grantedAt);
  }

  lemma {:induction false} SoundGrantTime(s: StoreState, key: LeaseKey)
    requires key in s.grants
    ensures GrantsOk(s.tasks, s.grants) ==> s.grants[key].grantedAt != ZERO_TIME
  {
    if GrantsOk(s.tasks, s.grants) {
      GrantRowAt(s, key);
    }
  }

  method RequireCurrentLease(tx: Unit, g: LeaseGrant) returns (r: Option<Error>)
    requires TasksOk(tx.state.tasks) && GrantsOk(tx.state.tasks, tx.state.grants) && ValidGrant(g)
    ensures r == LeaseRefusal(tx.state, g)
  {
    var granted := VerifyGrant(tx, g);
    if granted.Err? {
      return Some(granted.error);
    }
    var record := LoadTask(tx, g.task);
    if record.Err? {
      return Some(NotFound);
    }
    if record.value.lease.owner != g.worker || record.value.lease.fence != g.fence {
      return Some(StaleLease);
    }
    return None;
  }

  /** Checks that the lease pointer is the head of the grant history, and returns the
  time of the last grant. */
  method CheckHistoryHead(tx: Unit, record: TaskRecord) returns (r: Result<Time>)
    requires GrantsOk(tx.state.tasks, tx.state.grants)
    requires record.task.ref in tx.state.tasks && record == tx.state.tasks[record.task.ref]
    ensures r == Ok(LastGrantedAt(tx.state, record))
  {
    var ref := record.task.ref;
    GrantKeys(tx.state);
    var latest := tx.LoadLatestLeaseGrant(ref);
    LatestIsHead(tx.state, ref, latest);
    if latest.None? {
      if record.lease.fence != 0 || record.lease.owner != "" {
        return Err(CorruptStore);
      }
      return Ok(ZERO_TIME);
    }
    GrantRowAt(tx.state, latest.value.Key());
    var g := latest.value;
    if !ValidGrant(g.grant) || g.grant.task != ref || g.grant.fence != record.lease.fence
       || !ValidTime(g.grantedAt) || g.grantedAt < record.task.createdAt
       || (record.lease.owner != "" && g.grant.worker != record.lease.owner) {
      return Err(CorruptStore);
    }
    return Ok(g.grantedAt);
  }

  /** The stricter lease check of a freeze: a grant that is not current is stale,
  and the current one must agree with the history entry by entry. */
  method RequireArtifactLease(tx: Unit, record: TaskRecord, g: LeaseGrant) returns (r: Option<Error>)
    requires TasksOk(tx.state.tasks) && GrantsOk(tx.state.tasks, tx.state.grants) && ValidGrant(g)
    requires g.task in tx.state.tasks && record == tx.state.tasks[g.task]
    ensures r == if record.lease == LeaseState(g.worker, g.fence) then None else Some(StaleLease)
  {
    TaskRowAt(tx.state, g.task);
    if record.task.ref != g.task || record.lease.fence > MAX_INT64 || (record.lease.fence == 0 && record.lease.owner != "")
       || (record.lease.owner != "" && !ValidId(record.lease.owner)) {
      return Some(CorruptStore);
    }
    GrantKeys(tx.state);
    var latest := tx.LoadLatestLeaseGrant(g.task);
    LatestIsHead(tx.state, g.task, latest);
    if latest.None? {
      if record.lease.fence != 0 {
        return Some(CorruptStore);
      }
      return Some(StaleLease);
    }
    GrantRowAt(tx.state, latest.value.Key());
    var last := latest.value;
    if !ValidGrant(last.grant) || last.grant.task != g.task || last.grant.fence != record.lease.fence
       || !ValidTime(last.grantedAt) || last.grantedAt < record.task.createdAt {
      return Some(CorruptStore);
    }
    if record.lease.owner != "" && last.grant.worker != record.lease.owner {
      return Some(CorruptStore);
    }
    if record.lease.owner != g.worker || record.lease.fence != g.fence {
      return Some(StaleLease);
    }
    if last.grant != g || LeaseKey(g.task, g.fence) !in tx.state.grants {
      return Some(CorruptStore);
    }
    var exact := tx.state.grants[LeaseKey(g.task, g.fence)];
    if exact.grant != last.grant || exact.grantedAt != last.grantedAt {
      return Some(CorruptStore);
    }
    return None;
  }

  predicate ArtifactReadable(ref: ArtifactRef, r: ArtifactRecord) {
    && r.artifact.ref == ref && ValidStoredArtifact(r.artifact) && SealFits(r.encodedSize, MAX_STORED_ARTIFACT_BYTES)
  }

  method LoadArtifact(tx: Unit, ref: ArtifactRef) returns (r: Result<ArtifactRecord>)
    ensures r == if ref !in tx.state.artifacts then Err(ArtifactNotFound)
                 else if !ArtifactReadable(ref, tx.state.artifacts[ref]) then Err(CorruptStore)
                 else Ok(tx.state.artifacts[ref])
    ensures ArtifactsOk(tx.state.tasks, tx.state.artifacts, tx.state.heads) ==> r != Err(CorruptStore)
  {
    if ref !in tx.state.artifacts {
      return Err(ArtifactNotFound);
    }
    var record := tx.state.artifacts[ref];
    assert ArtifactsOk(tx.state.tasks, tx.state.artifacts, tx.state.heads) ==> ArtifactRowOk(tx.state.tasks, tx.state.heads, ref, record);
    if record.encodedSize > MAX_STORED_ARTIFACT_BYTES || record.artifact.ref != ref
       || !ValidStoredArtifact(record.artifact) || record.encodedSize == 0 {
      return Err(CorruptStore);
    }
    return Ok(record);
  }

  /** A receipt is returned only together with the published Artifact it belongs to. */
  method LoadVerifiedReceipt(tx: Unit, ref: ArtifactRef) returns (r: Result<Option<ApplyReceipt>>)
    ensures ref !in tx.state.receipts ==> r == Ok(None)
    ensures r.Ok? && r.value.Some? ==>
              && ref in tx.state.receipts && r.value.value == tx.state.receipts[ref] && ref in tx.state.artifacts
              && var a := tx.state.artifacts[ref].artifact;
                 && ValidStoredReceipt(r.value.value) && r.value.value.artifact == ref && a.state == ArtifactPublished
                 && r.value.value.artifactDigest == a.digest && r.value.value.baseRevision == a.baseRevision
                 && r.value.value.resultRevision == a.resultRevision
                 && a.publishedAt.Some? && a.publishedAt.value <= r.value.value.recordedAt
    ensures ArtifactsOk(tx.state.tasks, tx.state.artifacts, tx.state.heads)
            && ReceiptsOk(tx.state.artifacts, tx.state.receipts, tx.state.heads) ==>
              r == Ok(if ref in tx.state.receipts then Some(tx.state.receipts[ref]) else None)
  {
    if ref !in tx.state.receipts {
      return Ok(None);
    }
    var receipt := tx.state.receipts[ref];
    assert ReceiptsOk(tx.state.artifacts, tx.state.receipts, tx.state.heads) ==>
        ReceiptRowOk(tx.state.artifacts, tx.state.heads, ref, receipt);
    hide ReceiptsOk, ArtifactsOk, ValidStoredArtifact, ValidStoredReceipt;
    if receipt.artifact != ref || !ValidStoredReceipt(receipt) {
      return Err(CorruptStore);
    }
    var record := LoadArtifact(tx, ref);
    if record.Err? {
      return Err(record.error);
    }
    var artifact := record.value.artifact;
    if artifact.state != ArtifactPublished || artifact.publishedAt.None?
       || receipt.artifactDigest != artifact.digest || receipt.baseRevision != artifact.baseRevision
       || receipt.resultRevision != artifact.resultRevision || receipt.recordedAt < artifact.publishedAt.value {
      return Err(CorruptStore);
    }
    return Ok(Some(receipt));
  }

  method LoadHead(tx: Unit, w: WorkspaceRef) returns (r: Result<WorkspaceHead>)
    ensures r == if w !in tx.state.heads then Err(WorkspaceNotFound)
                 else if tx.state.heads[w].workspace != w || !ValidRevision(tx.state.heads[w].confirmedRevision)
                         || tx.state.heads[w].updatedAt == ZERO_TIME then Err(CorruptStore)
                 else Ok(tx.state.heads[w])
    ensures HeadsOk(tx.state.heads) ==> r != Err(CorruptStore)
  {
    if w !in tx.state.heads {
      return Err(WorkspaceNotFound);
    }
    var head := tx.state.heads[w];
    if head.workspace != w || !ValidRevision(head.confirmedRevision) || head.updatedAt == ZERO_TIME {
      return Err(CorruptStore);
    }
    return Ok(head);
  }

  // ---- Replay

  /** Looks for the receipt of a command and re-checks everything it vouches for. A
  sound store replays the recorded answer, refuses another intent, and never
  reports corruption here. */
  method Replay(tx: Unit, c: Command) returns (r: Result<Option<Answer>>)
    requires Inv(tx.state) && ValidCommand(c)
    ensures r == if KeyOf(c) !in tx.state.commands then Ok(None)
                 else if Committed(tx.state, c) then Ok(Some(tx.state.commands[KeyOf(c)].answer))
                 else Err(IdempotencyConflict)
  {
    hide TasksOk, PublicIdsUnique, LogsOk, MessagesOk, LinksOk, GrantsOk, ArtifactsOk, SubmissionsOk, HeadsOk, ReceiptsOk, EffectsOk, CommandsOk;
    var key := KeyOf(c);
    if key !in tx.state.commands {
      return Ok(None);
    }
    var record := tx.state.commands[key];
    CommandRowAt(tx.state, key);
    if record.authority != key.authority || record.id != key.id || record.createdAt == ZERO_TIME {
      return Err(CorruptStore);
    }
    if record.intent != c {
      return Err(IdempotencyConflict);
    }
    var sound := CheckAnswer(tx, c, record.answer);
    if sound.Some? {
      return Err(CorruptStore);
    }
    return Ok(Some(record.answer));
  }

  lemma {:induction false} CommandRowAt(s: StoreState, key: CommandKey)
    requires CommandsOk(s) && key in s.commands
    ensures CommandRowOk(s, key, s.commands[key])
  {}

  lemma {:induction false} CarriedGrantValid(c: Command)
    requires ValidCommand(c)
    ensures c.FreezeArtifact? ==> ValidGrant(c.meta.grant)
    ensures c.FenceLease? ==> ValidGrant(c.grant)
    ensures IsTransition(c) && PlanOf(c).grant.Some? ==> ValidGrant(PlanOf(c).grant.value)
  {
    hide ValidGrant, ValidId, ValidMessageInput;
  }

  /** The checks a replayed answer passes, by kind of command. */
  method CheckAnswer(tx: Unit, c: Command, a: Answer) returns (r: Option<Error>)
    requires ValidCommand(c) && AnswerOk(tx.state, c, a) && TasksOk(tx.state.tasks) && GrantsOk(tx.state.tasks, tx.state.grants)
    requires ArtifactsOk(tx.state.tasks, tx.state.artifacts, tx.state.heads)
    requires ReceiptsOk(tx.state.artifacts, tx.state.receipts, tx.state.heads)
    ensures r == None
  {
    hide TasksOk, GrantsOk, ArtifactsOk, ReceiptsOk, ValidStoredTask, ValidFreezeResult, ValidAssignment, SameArtifactIdentity;
    hide ValidCommand, ValidGrant, ValidStoredArtifact, PlanOf, GrantRecorded;
    CarriedGrantValid(c);
    match c {
    case FreezeArtifact(m, t, id, _, _) =>
      if a.result.ref != t || a.frozen.ref != ArtifactRef(t.workspace, id) {
        return Some(CorruptStore);
      }
      r := CheckFrozen(tx, m.grant, a.result, a.frozen);
      return r;
    case AcquireLease(_, t, w) =>
      if a.assignment.grant.task != t || a.assignment.grant.worker != w {
        return Some(CorruptStore);
      }
      r := CheckAssignment(tx, a.assignment);
      return r;
    case ClaimLease(_, authority, w) =>
      if a.assignment.grant.task.workspace.authority != authority || a.assignment.grant.worker != w {
        return Some(CorruptStore);
      }
      r := CheckAssignment(tx, a.assignment);
      return r;
    case FenceLease(_, g) =>
      if a.grant != g {
        return Some(CorruptStore);
      }
      var granted := VerifyGrant(tx, g);
      if granted.Err? {
        return Some(CorruptStore);
      }
    case RecordApplyReceipt(_, id, ref, _, _, _, _, _, _, _) =>
      r := CheckReceipt(tx, id, ref, a.receipt);
      return r;
    case CreateTask(_, t, x, _) =>
      if !ValidStoredTask(a.result) || a.result.ref != t || a.result.context != x {
        return Some(CorruptStore);
      }
    case _ =>
      r := CheckTransition(tx, PlanOf(c), a.result);
      return r;
    }
    return None;
  }

  method CheckReceipt(tx: Unit, id: Id, ref: ArtifactRef, receipt: ApplyReceipt) returns (r: Option<Error>)
    requires ArtifactsOk(tx.state.tasks, tx.state.artifacts, tx.state.heads)
    requires ReceiptsOk(tx.state.artifacts, tx.state.receipts, tx.state.heads)
    requires receipt.artifact == ref && receipt.id == id && ref in tx.state.receipts && tx.state.receipts[ref] == receipt
    ensures r == None
  {
    hide ArtifactsOk, ReceiptsOk;
    if receipt.artifact != ref || receipt.id != id {
      return Some(CorruptStore);
    }
    var stored := LoadVerifiedReceipt(tx, ref);
    if stored.Err? || stored.value != Some(receipt) {
      return Some(CorruptStore);
    }
    return None;
  }

  /** The grant check of a freeze replay: the Task must exist, the history must hold this
  very grant, and the grant must not predate its Task. */
  method VerifyArtifactGrant(tx: Unit, g: LeaseGrant) returns (r: Result<Time>)
    ensures !ValidGrant(g) ==> r == Err(InvalidArgument)
    ensures ValidGrant(g) && r.Err? ==> r == Err(CorruptStore)
    ensures r.Ok? ==>
              && GrantRecorded(tx.state.grants, g) && r.value == tx.state.grants[LeaseKey(g.task, g.fence)].grantedAt
              && g.task in tx.state.tasks && tx.state.tasks[g.task].task.createdAt <= r.value
    ensures TasksOk(tx.state.tasks) && GrantsOk(tx.state.tasks, tx.state.grants) && ValidGrant(g) ==>
              (r.Ok? <==> GrantRecorded(tx.state.grants, g))
  {
    if !ValidGrant(g) {
      return Err(InvalidArgument);
    }
    SoundGrantRow(tx.state, g);
    hide TasksOk, GrantsOk;
    var task := LoadTask(tx, g.task);
    if task.Err? {
      return Err(CorruptStore);
    }
    var key := LeaseKey(g.task, g.fence);
    if key !in tx.state.grants {
      return Err(CorruptStore);
    }
    var record := tx.state.grants[key];
    if record.grant != g || !ValidTime(record.grantedAt) {
      return Err(CorruptStore);
    }
    if record.grantedAt < task.value.task.createdAt {
      return Err(CorruptStore);
    }
    return Ok(record.grantedAt);
  }

  lemma {:induction false} SoundGrantRow(s: StoreState, g: LeaseGrant)
    ensures GrantsOk(s.tasks, s.grants) && GrantRecorded(s.grants, g) ==>
              && g.task in s.tasks && ValidTime(s.grants[LeaseKey(g.task, g.fence)].grantedAt)
              && s.tasks[g.task].task.createdAt <= s.grants[LeaseKey(g.task, g.fence)].grantedAt
  {
    if GrantsOk(s.tasks, s.grants) && GrantRecorded(s.grants, g) {
      GrantRowAt(s, LeaseKey(g.task, g.fence));
    }
  }

  method CheckFrozen(tx: Unit, g: LeaseGrant, t: Task, frozen: Artifact) returns (r: Option<Error>)
    requires TasksOk(tx.state.tasks) && GrantsOk(tx.state.tasks, tx.state.grants) && ArtifactsOk(tx.state.tasks, tx.state.artifacts, tx.state.heads)
    requires ValidFreezeResult(t, frozen) && ValidGrant(g) && GrantRecorded(tx.state.grants, g)
    requires frozen.ref in tx.state.artifacts && SameArtifactIdentity(tx.state.artifacts[frozen.ref].artifact, frozen)
    ensures r == None
  {
    if !ValidFreezeResult(t, frozen) {
      return Some(CorruptStore);
    }
    var granted := VerifyArtifactGrant(tx, g);
    if granted.Err? {
      return Some(CorruptStore);
    }
    var stored := LoadArtifact(tx, frozen.ref);
    if stored.Err? || !SameArtifactIdentity(stored.value.artifact, frozen) {
      return Some(CorruptStore);
    }
    return None;
  }

  method CheckTransition(tx: Unit, p: Plan, t: Task) returns (r: Option<Error>)
    requires GrantsOk(tx.state.tasks, tx.state.grants) && ValidStoredTask(t) && t.ref == p.task
    requires p.grant.Some? ==> ValidGrant(p.grant.value) && GrantRecorded(tx.state.grants, p.grant.value)
    ensures r == None
  {
    if !ValidStoredTask(t) || t.ref != p.task {
      return Some(CorruptStore);
    }
    if p.grant.Some? {
      var granted := VerifyGrant(tx, p.grant.value);
      if granted.Err? {
        return Some(CorruptStore);
      }
    }
    return None;
  }

  method CheckAssignment(tx: Unit, a: LeaseAssignment) returns (r: Option<Error>)
    requires GrantsOk(tx.state.tasks, tx.state.grants) && ValidAssignment(a) && GrantRecorded(tx.state.grants, a.grant)
    requires tx.state.grants[LeaseKey(a.grant.task, a.grant.fence)].grantedAt == a.grantedAt
    ensures r == None
  {
    if !ValidAssignment(a) {
      return Some(CorruptStore);
    }
    var granted := VerifyGrant(tx, a.grant);
    if granted.Err? || granted.value != a.grantedAt {
      return Some(CorruptStore);
    }
    return None;
  }
}
