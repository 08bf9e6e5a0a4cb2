/** The sibling store of the LLM service: Tasks, requests, response events and worker
receipts, with uniqueness, immutability and tombstone rules. */
module LlmStore {
  import opened Types
  import opened Store
  import opened Ordering

  datatype Tier = TierChat | TierRemoteTools | TierWorkspace

  datatype TaskKey = TaskKey(caller: Id, task: Id)
  datatype RequestKey = RequestKey(caller: Id, idempotency: Id)
  datatype Affinity = Affinity(caller: Id, workspaceKey: Id, harness: Id, version: Id, session: Id)

  /** Of the Task state only its being terminal matters to the store. */
  datatype LlmTask = LlmTask(
    key: TaskKey, workspaceKey: Id, harness: Id, version: Id, session: Id, tier: Tier, codec: Id,
    execAllowed: bool, terminal: bool, revision: nat, createdAt: Time, updatedAt: Time)

  datatype LlmRequest = LlmRequest(
    key: RequestKey, task: TaskKey, requestId: Id, responseId: Id, digest: Id, codec: Id, mode: Id,
    revision: nat, createdAt: Time, completedAt: Option<Time>, complete: bool, quarantined: bool,
    prunedAt: Option<Time>, payload: seq<bv8>, decisionBody: seq<bv8>)

  /** Worker, event identifier and digest come together or not at all. */
  datatype WorkerMark = WorkerMark(worker: Id, event: Id, digest: Id)
  datatype LlmEvent = LlmEvent(request: RequestKey, sequence: nat, mark: Option<WorkerMark>, data: seq<bv8>, createdAt: Time)
  datatype ReceiptKey = ReceiptKey(request: RequestKey, event: Id)

  datatype LlmState = LlmState(
    tasks: map<TaskKey, LlmTask>,
    requests: map<RequestKey, LlmRequest>,
    events: map<RequestKey, map<nat, LlmEvent>>,
    receipts: map<ReceiptKey, WorkerMark>)

  datatype LlmError = LlmInvalid | LlmNotFound | LlmConflict | LlmTooLarge
  datatype Verdict = Applied | Stale | Refused(error: LlmError)
  datatype Outcome = Outcome(state: LlmState, verdict: Verdict)

  predicate ToolTier(t: LlmTask) { t.tier.TierRemoteTools? || t.tier.TierWorkspace? }

  function AffinityOf(t: LlmTask): Affinity {
    Affinity(t.key.caller, t.workspaceKey, t.harness, t.version, t.session)
  }

  predicate ValidTaskKey(k: TaskKey) { k.caller != "" && k.task != "" }
  predicate ValidRequestKey(k: RequestKey) { k.caller != "" && k.idempotency != "" }

  predicate ValidTask(t: LlmTask) {
    && ValidTaskKey(t.key) && t.revision > 0 && t.createdAt != ZERO_TIME && t.updatedAt != ZERO_TIME
    && (ToolTier(t) ==> t.workspaceKey != "" && t.harness != "" && t.version != "" && t.session != "")
  }

  predicate ValidRequest(r: LlmRequest) {
    && ValidRequestKey(r.key) && ValidTaskKey(r.task) && r.requestId != "" && r.responseId != "" && r.digest != ""
    && r.revision > 0 && r.createdAt != ZERO_TIME
    && (r.prunedAt.Some? ==> r.payload == [] && r.decisionBody == [])
  }

  /** A mark is complete: worker, event and digest are all named. */
  predicate ValidEvent(e: LlmEvent) {
    && ValidRequestKey(e.request) && e.sequence > 0 && e.createdAt != ZERO_TIME
    && (e.mark.Some? ==> e.mark.value.worker != "" && e.mark.value.event != "" && e.mark.value.digest != "")
  }

  predicate SameTask(a: LlmTask, b: LlmTask) {
    b == a.(terminal := b.terminal, revision := b.revision, updatedAt := b.updatedAt)
  }

  predicate SameRequest(a: LlmRequest, b: LlmRequest) {
    && a.key == b.key && a.task == b.task && a.requestId == b.requestId && a.responseId == b.responseId
    && a.digest == b.digest && a.codec == b.codec && a.mode == b.mode && a.createdAt == b.createdAt
  }

  /** Payload bytes are fixed until they are pruned; pruning empties them for good. */
  predicate PayloadRule(a: LlmRequest, b: LlmRequest) {
    if a.prunedAt.None? then
      (if b.prunedAt.None? then b.payload == a.payload else b.payload == [] && b.decisionBody == [])
    else b.prunedAt == a.prunedAt && b.payload == [] && b.decisionBody == []
  }

  // ---- Conflicts

  ghost predicate AffinityTaken(tasks: map<TaskKey, LlmTask>, t: LlmTask) {
    exists k :: k in tasks && k != t.key && !tasks[k].terminal && AffinityOf(tasks[k]) == AffinityOf(t)
  }

  ghost predicate TaskBusy(requests: map<RequestKey, LlmRequest>, r: LlmRequest) {
    exists k :: k in requests && k != r.key && requests[k].task == r.task && !requests[k].complete
  }

  ghost predicate RequestIdTaken(requests: map<RequestKey, LlmRequest>, r: LlmRequest) {
    exists k :: k in requests && k.caller == r.key.caller
                && (requests[k].requestId == r.requestId || requests[k].responseId == r.responseId)
  }

  ghost predicate MarkTaken(events: map<nat, LlmEvent>, mark: WorkerMark) {
    exists n :: n in events && events[n].mark.Some? && events[n].mark.value.event == mark.event && events[n].mark.value != mark
  }

  // ---- Operations

  datatype Op =
    | InsertTask(task: LlmTask)
    | SwapTask(taskKey: TaskKey, taskRevision: nat, nextTask: LlmTask)
    | InsertRequest(request: LlmRequest)
    | SwapRequest(requestKey: RequestKey, requestRevision: nat, nextRequest: LlmRequest)
    | InsertEvent(event: LlmEvent)
    | InsertReceipt(receiptRequest: RequestKey, mark: WorkerMark)
    | DeleteTombstoned(pruned: RequestKey)

  ghost function Step(s: LlmState, op: Op): Outcome {
    match op
    case InsertTask(t) =>
      if !ValidTask(t) then Outcome(s, Refused(LlmInvalid))
      else if t.key in s.tasks then Outcome(s, Refused(LlmConflict))
      else if !t.terminal && ToolTier(t) && AffinityTaken(s.tasks, t) then Outcome(s, Refused(LlmConflict))
      else Outcome(s.(tasks := s.tasks[t.key := t]), Applied)
    case SwapTask(key, revision, next) => SwapTaskStep(s, key, revision, next)
    case InsertRequest(r) =>
      if !ValidRequest(r) then Outcome(s, Refused(LlmInvalid))
      else if r.key in s.requests then Outcome(s, Refused(LlmConflict))
      else if r.task !in s.tasks then Outcome(s, Refused(LlmNotFound))
      else if s.tasks[r.task].codec != r.codec then Outcome(s, Refused(LlmConflict))
      else if (!r.complete && TaskBusy(s.requests, r)) || RequestIdTaken(s.requests, r) then Outcome(s, Refused(LlmConflict))
      else Outcome(s.(requests := s.requests[r.key := r]), Applied)
    case SwapRequest(key, revision, next) => SwapRequestStep(s, key, revision, next)
    case InsertEvent(e) =>
      var log: map<nat, LlmEvent> := if e.request in s.events then s.events[e.request] else map[];
      if !ValidEvent(e) then Outcome(s, Refused(LlmInvalid))
      else if e.request !in s.requests then Outcome(s, Refused(LlmNotFound))
      else if e.sequence in log || (e.mark.Some? && MarkTaken(log, e.mark.value)) then Outcome(s, Refused(LlmConflict))
      else Outcome(s.(events := s.events[e.request := log[e.sequence := e]]), Applied)
    case InsertReceipt(request, mark) =>
      if !ValidRequestKey(request) || mark.event == "" || mark.worker == "" || mark.digest == "" then Outcome(s, Refused(LlmInvalid))
      else if request !in s.requests then Outcome(s, Refused(LlmNotFound))
      else if ReceiptKey(request, mark.event) in s.receipts then Outcome(s, Refused(LlmConflict))
      else Outcome(s.(receipts := s.receipts[ReceiptKey(request, mark.event) := mark]), Applied)
    case DeleteTombstoned(key) =>
      if !ValidRequestKey(key) then Outcome(s, Refused(LlmInvalid))
      else if key !in s.requests then Outcome(s, Refused(LlmNotFound))
      else if s.requests[key].prunedAt.None? then Outcome(s, Refused(LlmConflict))
      else Outcome(s.(events := s.events - {key}), Applied)
  }

  ghost function SwapTaskStep(s: LlmState, key: TaskKey, revision: nat, next: LlmTask): Outcome {
    if !ValidTaskKey(key) || revision == 0 || next.revision == 0 then Outcome(s, Refused(LlmInvalid))
    else if key !in s.tasks then Outcome(s, Refused(LlmNotFound))
    else if s.tasks[key].revision != revision then Outcome(s, Stale)
    else if !SameTask(s.tasks[key], next) || next.revision != s.tasks[key].revision + 1 then Outcome(s, Refused(LlmConflict))
    else if !next.terminal && ToolTier(next) && AffinityTaken(s.tasks, next) then Outcome(s, Refused(LlmConflict))
    else Outcome(s.(tasks := s.tasks[key := next]), Applied)
  }

  ghost function SwapRequestStep(s: LlmState, key: RequestKey, revision: nat, next: LlmRequest): Outcome {
    if !ValidRequestKey(key) || revision == 0 || next.revision == 0 then Outcome(s, Refused(LlmInvalid))
    else if key !in s.requests then Outcome(s, Refused(LlmNotFound))
    else if s.requests[key].revision != revision then Outcome(s, Stale)
    else if !SameRequest(s.requests[key], next) || next.revision != s.requests[key].revision + 1
            || !PayloadRule(s.requests[key], next) then Outcome(s, Refused(LlmConflict))
    else if !next.complete && TaskBusy(s.requests, next) then Outcome(s, Refused(LlmConflict))
    else Outcome(s.(requests := s.requests[key := next]), Applied)
  }

  // ---- The invariant

  predicate OpenTool(t: LlmTask) { !t.terminal && ToolTier(t) }

  ghost predicate TasksOk(tasks: map<TaskKey, LlmTask>) {
    && (forall k | k in tasks :: tasks[k].key == k)
    && (forall a, b | a in tasks && b in tasks && OpenTool(tasks[a]) && OpenTool(tasks[b])
                      && AffinityOf(tasks[a]) == AffinityOf(tasks[b]) :: a == b)
  }

  ghost predicate RowsOk(s: LlmState) {
    forall k | k in s.requests ::
      && s.requests[k].key == k && s.requests[k].task in s.tasks
      && ValidRequestKey(k) && s.requests[k].createdAt != ZERO_TIME
      && (s.requests[k].prunedAt.Some? ==> s.requests[k].payload == [] && s.requests[k].decisionBody == [])
  }

  ghost predicate OneActive(requests: map<RequestKey, LlmRequest>) {
    forall a, b | a in requests && b in requests && requests[a].task == requests[b].task
                  && !requests[a].complete && !requests[b].complete :: a == b
  }

  ghost predicate UniqueIds(requests: map<RequestKey, LlmRequest>) {
    forall a, b | a in requests && b in requests && a.caller == b.caller
                  && (requests[a].requestId == requests[b].requestId || requests[a].responseId == requests[b].responseId) :: a == b
  }

  ghost predicate RequestsOk(s: LlmState) {
    RowsOk(s) && OneActive(s.requests) && UniqueIds(s.requests)
  }

  ghost predicate EventsOk(s: LlmState) {
    forall k | k in s.events :: k in s.requests && LogOk(k, s.events[k])
  }

  /** A request is in the codec of its Task; marks and receipts are complete, and a
  receipt stands under the request and event it confirms. */
  ghost predicate ShapesOk(s: LlmState) {
    CodecsOk(s) && MarksOk(s) && ReceiptsOk(s)
  }

  ghost predicate CodecsOk(s: LlmState) {
    forall k | k in s.requests :: s.requests[k].task in s.tasks && s.tasks[s.requests[k].task].codec == s.requests[k].codec
  }

  ghost predicate MarksOk(s: LlmState) {
    forall k, n | k in s.events && n in s.events[k] :: ValidEvent(s.events[k][n])
  }

  ghost predicate ReceiptsOk(s: LlmState) {
    forall k | k in s.receipts ::
      k.request in s.requests && s.receipts[k].event == k.event && s.receipts[k].worker != "" && s.receipts[k].digest != ""
  }

  ghost predicate LlmOk(s: LlmState) {
    TasksOk(s.tasks) && RequestsOk(s) && EventsOk(s) && ShapesOk(s)
  }

  const EMPTY_LLM: LlmState := LlmState(map[], map[], map[], map[])

  lemma {:induction false} StepTasks(s: LlmState, op: Op)
    requires TasksOk(s.tasks)
    ensures TasksOk(Step(s, op).state.tasks)
  {
    hide ValidTask, ValidRequest, RequestIdTaken, TaskBusy, MarkTaken, PayloadRule, SameRequest;
    var s' := Step(s, op).state;
    if s'.tasks != s.tasks {
      var t := if op.InsertTask? then op.task else op.nextTask;
      assert s'.tasks == s.tasks[t.key := t];
      forall k | k in s.tasks && k != t.key && OpenTool(t) && OpenTool(s.tasks[k]) ensures AffinityOf(s.tasks[k]) != AffinityOf(t) {}
    }
  }

  lemma {:induction false} OneActiveAfter(requests: map<RequestKey, LlmRequest>, r: LlmRequest)
    requires OneActive(requests) && (r.complete || !TaskBusy(requests, r))
    ensures OneActive(requests[r.key := r])
  {
    forall k | k in requests && k != r.key && !r.complete ensures !(requests[k].task == r.task && !requests[k].complete) {}
  }

  lemma {:induction false} UniqueIdsAfter(requests: map<RequestKey, LlmRequest>, r: LlmRequest)
    requires UniqueIds(requests)
    requires if r.key in requests then requests[r.key].requestId == r.requestId && requests[r.key].responseId == r.responseId
             else !RequestIdTaken(requests, r)
    ensures UniqueIds(requests[r.key := r])
  {
    forall k | k in requests && k != r.key && k.caller == r.key.caller
      ensures requests[k].requestId != r.requestId && requests[k].responseId != r.responseId
    {
      if r.key !in requests {
        assert !RequestIdTaken(requests, r);
      }
    }
  }

  lemma {:induction false} RequestsAfter(s: LlmState, s': LlmState, r: LlmRequest)
    requires RequestsOk(s) && s' == s.(requests := s.requests[r.key := r])
    requires r.task in s.tasks && (r.prunedAt.Some? ==> r.payload == [] && r.decisionBody == [])
    requires ValidRequestKey(r.key) && r.createdAt != ZERO_TIME
    requires r.complete || !TaskBusy(s.requests, r)
    requires if r.key in s.requests then s.requests[r.key].requestId == r.requestId && s.requests[r.key].responseId == r.responseId
             else !RequestIdTaken(s.requests, r)
    ensures RequestsOk(s')
  {
    hide TaskBusy, RequestIdTaken, OneActive, UniqueIds;
    OneActiveAfter(s.requests, r);
    UniqueIdsAfter(s.requests, r);
  }

  predicate TouchesRequests(op: Op) { op.InsertRequest? || op.SwapRequest? }

  lemma {:induction false} RequestsUntouched(s: LlmState, op: Op)
    requires !TouchesRequests(op)
    ensures Step(s, op).state.requests == s.requests && s.tasks.Keys <= Step(s, op).state.tasks.Keys
  {
    hide AffinityTaken, MarkTaken, ValidTask, SameTask;
  }

  lemma {:induction false} RequestsFrame(s: LlmState, s': LlmState)
    requires RequestsOk(s) && s'.requests == s.requests && s.tasks.Keys <= s'.tasks.Keys
    ensures RequestsOk(s')
  {}

  lemma {:induction false} InsertRequestOk(s: LlmState, r: LlmRequest)
    requires RequestsOk(s)
    ensures RequestsOk(Step(s, InsertRequest(r)).state)
  {
    hide TaskBusy, RequestIdTaken, RequestsOk;
    if Step(s, InsertRequest(r)).verdict.Applied? {
      RequestsAfter(s, Step(s, InsertRequest(r)).state, r);
    }
  }

  lemma {:induction false} RequestFacts(s: LlmState, key: RequestKey)
    requires RequestsOk(s) && key in s.requests
    ensures s.requests[key].key == key && s.requests[key].task in s.tasks
    ensures ValidRequestKey(key) && s.requests[key].createdAt != ZERO_TIME
    ensures s.requests[key].prunedAt.Some? ==> s.requests[key].payload == [] && s.requests[key].decisionBody == []
  {}

  lemma {:induction false} SwapRequestOk(s: LlmState, key: RequestKey, revision: nat, next: LlmRequest)
    requires RequestsOk(s)
    ensures RequestsOk(SwapRequestStep(s, key, revision, next).state)
  {
    hide TaskBusy, RequestIdTaken, RequestsOk;
    if SwapRequestStep(s, key, revision, next).verdict.Applied? {
      RequestFacts(s, key);
      RequestsAfter(s, SwapRequestStep(s, key, revision, next).state, next);
    }
  }

  lemma {:induction false} StepRequests(s: LlmState, op: Op)
    requires RequestsOk(s)
    ensures RequestsOk(Step(s, op).state)
  {
    hide RequestsOk, SwapRequestStep, SwapTaskStep, ValidRequest, ValidTask, TaskBusy, RequestIdTaken, AffinityTaken, MarkTaken;
    match op
    case InsertRequest(r) => InsertRequestOk(s, r);
    case SwapRequest(key, revision, next) => SwapRequestOk(s, key, revision, next);
    case _ =>
      RequestsUntouched(s, op);
      RequestsFrame(s, Step(s, op).state);
  }

  ghost predicate LogOk(key: RequestKey, log: map<nat, LlmEvent>) {
    && (forall n | n in log :: log[n].request == key && log[n].sequence == n)
    && (forall m, n | m in log && n in log && log[m].mark.Some? && log[n].mark.Some?
                      && log[m].mark.value.event == log[n].mark.value.event :: log[m].mark == log[n].mark)
  }

  lemma {:induction false} LogAfter(key: RequestKey, log: map<nat, LlmEvent>, e: LlmEvent)
    requires LogOk(key, log) && e.request == key && e.sequence !in log && (e.mark.Some? ==> !MarkTaken(log, e.mark.value))
    ensures LogOk(key, log[e.sequence := e])
  {
    forall n | n in log && e.mark.Some? && log[n].mark.Some? && log[n].mark.value.event == e.mark.value.event
      ensures log[n].mark == e.mark
    {}
  }

  lemma {:induction false} StepEvents(s: LlmState, op: Op)
    requires EventsOk(s)
    ensures EventsOk(Step(s, op).state)
  {
    hide AffinityTaken, TaskBusy, RequestIdTaken, ValidTask, ValidRequest, PayloadRule, SameRequest, SameTask, MarkTaken, LogOk;
    var s' := Step(s, op).state;
    assert s.requests.Keys <= s'.requests.Keys;
    if op.InsertEvent? && s'.events != s.events {
      var key := op.event.request;
      var log: map<nat, LlmEvent> := if key in s.events then s.events[key] else map[];
      EmptyLog(key);
      LogAfter(key, log, op.event);
    }
  }

  lemma {:induction false} StepCodecs(s: LlmState, op: Op)
    requires CodecsOk(s) && TasksOk(s.tasks) && RowsOk(s)
    ensures CodecsOk(Step(s, op).state)
  {
    hide AffinityTaken, TaskBusy, RequestIdTaken, ValidTask, ValidRequest, PayloadRule, ValidEvent, MarkTaken, AffinityOf;
  }

  lemma {:induction false} StepMarks(s: LlmState, op: Op)
    requires MarksOk(s)
    ensures MarksOk(Step(s, op).state)
  {
    hide AffinityTaken, TaskBusy, RequestIdTaken, ValidTask, ValidRequest, PayloadRule, ValidEvent, MarkTaken, AffinityOf;
  }

  lemma {:induction false} StepReceipts(s: LlmState, op: Op)
    requires ReceiptsOk(s)
    ensures ReceiptsOk(Step(s, op).state)
  {
    hide AffinityTaken, TaskBusy, RequestIdTaken, ValidTask, ValidRequest, PayloadRule, ValidEvent, MarkTaken, AffinityOf;
  }

  lemma {:induction false} StepShapes(s: LlmState, op: Op)
    requires ShapesOk(s) && TasksOk(s.tasks) && RowsOk(s)
    ensures ShapesOk(Step(s, op).state)
  {
    hide CodecsOk, MarksOk, ReceiptsOk, TasksOk, RowsOk, Step;
    StepCodecs(s, op);
    StepMarks(s, op);
    StepReceipts(s, op);
  }

  lemma {:induction false} EmptyLog(key: RequestKey)
    ensures LogOk(key, map[])
  {}

  /** What no operation takes back. */
  predicate RequestGrows(a: LlmRequest, b: LlmRequest) {
    && SameRequest(a, b) && a.revision <= b.revision
    && (b.prunedAt.None? ==> b.payload == a.payload)
    && (a.prunedAt.Some? ==> b.prunedAt == a.prunedAt && b.payload == [] && b.decisionBody == [])
  }

  ghost predicate LlmGrows(s: LlmState, s': LlmState) {
    && (forall k | k in s.tasks :: k in s'.tasks && SameTask(s.tasks[k], s'.tasks[k]) && s.tasks[k].revision <= s'.tasks[k].revision)
    && (forall k | k in s.requests :: k in s'.requests && RequestGrows(s.requests[k], s'.requests[k]))
    && (forall k | k in s.receipts :: k in s'.receipts && s'.receipts[k] == s.receipts[k])
    && (forall k, n | k in s.events && n in s.events[k] :: EventKept(s, s', k, n))
  }

  /** The event is still there, unless its request was pruned. */
  predicate EventKept(s: LlmState, s': LlmState, k: RequestKey, n: nat)
    requires k in s.events && n in s.events[k]
  {
    || (k in s'.events && n in s'.events[k] && s'.events[k][n] == s.events[k][n])
    || (k in s'.requests && s'.requests[k].prunedAt.Some?)
  }

  lemma {:induction false} SwapGrows(s: LlmState, key: RequestKey, revision: nat, next: LlmRequest, k: RequestKey)
    requires RequestsOk(s) && k in s.requests
    ensures var s' := SwapRequestStep(s, key, revision, next).state;
            k in s'.requests && RequestGrows(s.requests[k], s'.requests[k])
  {
    hide TaskBusy, RequestsOk;
    RequestFacts(s, k);
  }

  lemma {:induction false} StepRequestGrows(s: LlmState, op: Op, k: RequestKey)
    requires RequestsOk(s) && k in s.requests
    ensures k in Step(s, op).state.requests && RequestGrows(s.requests[k], Step(s, op).state.requests[k])
  {
    hide RequestsOk, SwapRequestStep, SwapTaskStep, ValidRequest, ValidTask, TaskBusy, RequestIdTaken, AffinityTaken, MarkTaken;
    RequestFacts(s, k);
    match op
    case SwapRequest(key, revision, next) => SwapGrows(s, key, revision, next, k);
    case InsertRequest(r) =>
    case _ => RequestsUntouched(s, op);
  }

  lemma {:induction false} StepTaskGrows(s: LlmState, op: Op, k: TaskKey)
    requires k in s.tasks
    ensures var s' := Step(s, op).state;
            k in s'.tasks && SameTask(s.tasks[k], s'.tasks[k]) && s.tasks[k].revision <= s'.tasks[k].revision
  {
    hide AffinityTaken, TaskBusy, RequestIdTaken, MarkTaken, ValidTask, ValidRequest, PayloadRule, SameRequest;
  }

  lemma {:induction false} StepOthersGrow(s: LlmState, op: Op)
    ensures var s' := Step(s, op).state;
            && (forall k | k in s.receipts :: k in s'.receipts && s'.receipts[k] == s.receipts[k])
            && (forall k, n | k in s.events && n in s.events[k] :: EventKept(s, s', k, n))
  {
    hide AffinityTaken, TaskBusy, RequestIdTaken, MarkTaken, ValidTask, ValidRequest, PayloadRule, SameRequest, SameTask;
  }

  lemma {:induction false} StepGrows(s: LlmState, op: Op)
    requires RequestsOk(s)
    ensures LlmGrows(s, Step(s, op).state)
  {
    hide Step, RequestsOk, RequestGrows, SameTask;
    var s' := Step(s, op).state;
    forall k | k in s.requests ensures k in s'.requests && RequestGrows(s.requests[k], s'.requests[k]) {
      StepRequestGrows(s, op, k);
    }
    forall k | k in s.tasks ensures k in s'.tasks && SameTask(s.tasks[k], s'.tasks[k]) && s.tasks[k].revision <= s'.tasks[k].revision {
      StepTaskGrows(s, op, k);
    }
    StepOthersGrow(s, op);
  }

  lemma {:induction false} LlmGrowsTransitive(a: LlmState, b: LlmState, c: LlmState)
    requires LlmGrows(a, b) && LlmGrows(b, c)
    ensures LlmGrows(a, c)
  {
    forall k | k in a.requests ensures k in c.requests && RequestGrows(a.requests[k], c.requests[k]) {
      assert RequestGrows(a.requests[k], b.requests[k]) && RequestGrows(b.requests[k], c.requests[k]);
    }
    forall k | k in a.tasks ensures k in c.tasks && SameTask(a.tasks[k], c.tasks[k]) && a.tasks[k].revision <= c.tasks[k].revision {
      assert SameTask(a.tasks[k], b.tasks[k]) && SameTask(b.tasks[k], c.tasks[k]);
    }
    forall k, n | k in a.events && n in a.events[k] ensures EventKept(a, c, k, n) {
      assert EventKept(a, b, k, n);
      if k in b.events && n in b.events[k] {
        assert EventKept(b, c, k, n);
      }
      if k in b.requests && b.requests[k].prunedAt.Some? {
        assert RequestGrows(b.requests[k], c.requests[k]);
      }
    }
  }

  /** A transaction applies all its operations or, when one is refused, none. */
  ghost function Transact(s: LlmState, ops: seq<Op>): Option<LlmState>
    decreases |ops|
  {
    if ops == [] then Some(s)
    else if Step(s, ops[0]).verdict.Refused? then None
    else Transact(Step(s, ops[0]).state, ops[1..])
  }

  ghost function RunAll(s: LlmState, transactions: seq<seq<Op>>): LlmState
    decreases |transactions|
  {
    if transactions == [] then s
    else
      var t := Transact(s, transactions[0]);
      RunAll(if t.Some? then t.value else s, transactions[1..])
  }

  lemma {:induction false} TransactKeeps(s: LlmState, ops: seq<Op>)
    requires LlmOk(s)
    ensures Transact(s, ops).Some? ==> LlmOk(Transact(s, ops).value) && LlmGrows(s, Transact(s, ops).value)
    decreases |ops|
  {
    hide TasksOk, RequestsOk, EventsOk, ShapesOk, Step, LlmGrows;
    if ops == [] {
      SameGrows(s);
    } else {
      StepTasks(s, ops[0]);
      StepRequests(s, ops[0]);
      StepEvents(s, ops[0]);
      RequestRows(s);
      StepShapes(s, ops[0]);
      StepGrows(s, ops[0]);
      var next := Step(s, ops[0]).state;
      TransactKeeps(next, ops[1..]);
      if Transact(next, ops[1..]).Some? {
        LlmGrowsTransitive(s, next, Transact(next, ops[1..]).value);
      }
    }
  }

  lemma {:induction false} RequestRows(s: LlmState)
    requires RequestsOk(s)
    ensures RowsOk(s)
  {}

  lemma {:induction false} SameGrows(s: LlmState)
    requires LlmOk(s)
    ensures LlmGrows(s, s)
  {
    hide ShapesOk, TasksOk;
  }

  /** Every sequence of transactions keeps the uniqueness rules; identities and
  receipts never change, payloads stay fixed until pruned, pruning is permanent,
  and events disappear only with a tombstone. */
  lemma {:induction false} RunKeeps(s: LlmState, transactions: seq<seq<Op>>)
    requires LlmOk(s)
    ensures LlmOk(RunAll(s, transactions)) && LlmGrows(s, RunAll(s, transactions))
    decreases |transactions|
  {
    hide LlmOk, LlmGrows, Transact;
    SameGrows(s);
    if transactions != [] {
      TransactKeeps(s, transactions[0]);
      var t := Transact(s, transactions[0]);
      var next := if t.Some? then t.value else s;
      RunKeeps(next, transactions[1..]);
      LlmGrowsTransitive(s, next, RunAll(next, transactions[1..]));
    }
  }

  /** The rules make the lookups functions of the state: at most one open tool-tier
  Task per affinity, and one incomplete request per Task. */
  lemma {:induction false} LookupsAreFunctions(transactions: seq<seq<Op>>)
    ensures var s := RunAll(EMPTY_LLM, transactions);
            && (forall a, b | a in s.tasks && b in s.tasks && OpenTool(s.tasks[a]) && OpenTool(s.tasks[b])
                              && AffinityOf(s.tasks[a]) == AffinityOf(s.tasks[b]) :: a == b)
            && (forall a, b | a in s.requests && b in s.requests && s.requests[a].task == s.requests[b].task
                              && !s.requests[a].complete && !s.requests[b].complete :: a == b)
  {
    RunKeeps(EMPTY_LLM, transactions);
  }

  // ---- What is accepted

  ghost predicate FreeAffinity(s: LlmState, t: LlmTask) {
    OpenTool(t) ==> forall k | k in s.tasks && k != t.key && AffinityOf(s.tasks[k]) == AffinityOf(t) :: s.tasks[k].terminal
  }

  ghost predicate Idle(s: LlmState, r: LlmRequest) {
    !r.complete ==> forall k | k in s.requests && k != r.key && s.requests[k].task == r.task :: s.requests[k].complete
  }

  /** Until its payload is pruned a request keeps it; pruning leaves nothing and is kept. */
  predicate KeepsPayload(a: LlmRequest, b: LlmRequest) {
    && (b.prunedAt.None? ==> a.prunedAt.None? && b.payload == a.payload)
    && (b.prunedAt.Some? ==> b.payload == [] && b.decisionBody == [] && (a.prunedAt.Some? ==> b.prunedAt == a.prunedAt))
  }

  /** The rows that an operation asks for exist, and what it adds fits the rows that do. */
  ghost predicate Admits(s: LlmState, op: Op) {
    match op
    case InsertTask(t) => ValidTask(t) && t.key !in s.tasks && FreeAffinity(s, t)
    case SwapTask(k, revision, next) =>
      && ValidTaskKey(k) && k in s.tasks && s.tasks[k].revision == revision > 0 && next.revision == revision + 1
      && SameTask(s.tasks[k], next) && FreeAffinity(s, next)
    case InsertRequest(r) =>
      && ValidRequest(r) && r.key !in s.requests && r.task in s.tasks && s.tasks[r.task].codec == r.codec && Idle(s, r)
      && forall k | k in s.requests && k.caller == r.key.caller ::
           s.requests[k].requestId != r.requestId && s.requests[k].responseId != r.responseId
    case SwapRequest(k, revision, next) =>
      && ValidRequestKey(k) && k in s.requests && s.requests[k].revision == revision > 0 && next.revision == revision + 1
      && SameRequest(s.requests[k], next) && KeepsPayload(s.requests[k], next) && Idle(s, next)
    case InsertEvent(e) =>
      && ValidEvent(e) && e.request in s.requests
      && (e.request in s.events ==>
            && e.sequence !in s.events[e.request]
            && forall n | n in s.events[e.request] && e.mark.Some? && s.events[e.request][n].mark.Some?
                          && s.events[e.request][n].mark.value.event == e.mark.value.event ::
                 s.events[e.request][n].mark == e.mark)
    case InsertReceipt(k, m) =>
      && ValidRequestKey(k) && m.worker != "" && m.event != "" && m.digest != "" && k in s.requests
      && ReceiptKey(k, m.event) !in s.receipts
    case DeleteTombstoned(k) => ValidRequestKey(k) && k in s.requests && s.requests[k].prunedAt.Some?
  }

  /** The row an accepted operation leaves. */
  predicate Leaves(s: LlmState, op: Op) {
    match op
    case InsertTask(t) => t.key in s.tasks && s.tasks[t.key] == t
    case SwapTask(k, _, next) => k in s.tasks && s.tasks[k] == next
    case InsertRequest(r) => r.key in s.requests && s.requests[r.key] == r
    case SwapRequest(k, _, next) => k in s.requests && s.requests[k] == next
    case InsertEvent(e) => e.request in s.events && e.sequence in s.events[e.request] && s.events[e.request][e.sequence] == e
    case InsertReceipt(k, m) => ReceiptKey(k, m.event) in s.receipts && s.receipts[ReceiptKey(k, m.event)] == m
    case DeleteTombstoned(k) => k !in s.events
  }

  lemma {:induction false} TaskApplied(s: LlmState, op: Op)
    requires TasksOk(s.tasks) && (op.InsertTask? || op.SwapTask?)
    ensures Step(s, op).verdict.Applied? <==> Admits(s, op)
    ensures Step(s, op).verdict.Applied? ==> Leaves(Step(s, op).state, op)
  {
    hide ValidTask, AffinityOf;
  }

  lemma {:induction false} RequestApplied(s: LlmState, op: Op)
    requires RowsOk(s) && TouchesRequests(op)
    ensures Step(s, op).verdict.Applied? <==> Admits(s, op)
    ensures Step(s, op).verdict.Applied? ==> Leaves(Step(s, op).state, op)
  {
    hide ValidRequest;
  }

  lemma {:induction false} OtherApplied(s: LlmState, op: Op)
    requires op.InsertEvent? || op.InsertReceipt? || op.DeleteTombstoned?
    ensures Step(s, op).verdict.Applied? <==> Admits(s, op)
    ensures Step(s, op).verdict.Applied? ==> Leaves(Step(s, op).state, op)
  {
    hide ValidEvent;
  }

  /** An operation is accepted exactly when it fits the rows that are there, and then its
  row is stored; otherwise nothing changes. */
  lemma {:induction false} AppliedIff(s: LlmState, op: Op)
    requires LlmOk(s)
    ensures Step(s, op).verdict.Applied? <==> Admits(s, op)
    ensures if Step(s, op).verdict.Applied? then Leaves(Step(s, op).state, op) else Step(s, op).state == s
  {
    RequestRows(s);
    UnappliedChangesNothing(s, op);
    hide RequestsOk, EventsOk, ShapesOk, TasksOk, RowsOk, Step, Admits;
    if op.InsertTask? || op.SwapTask? {
      TaskApplied(s, op);
    } else if TouchesRequests(op) {
      RequestApplied(s, op);
    } else {
      OtherApplied(s, op);
    }
  }

  lemma {:induction false} UnappliedChangesNothing(s: LlmState, op: Op)
    ensures !Step(s, op).verdict.Applied? ==> Step(s, op).state == s
  {
    hide ValidTask, ValidRequest, ValidEvent, AffinityTaken, TaskBusy, RequestIdTaken, MarkTaken, PayloadRule;
  }

  // ---- The working copy of a transaction

  predicate Incomplete(a: Affinity) {
    a.caller == "" || a.workspaceKey == "" || a.harness == "" || a.version == "" || a.session == ""
  }

  class LlmUnit {
    var state: LlmState

    constructor (image: LlmState)
      ensures state == image
    {
      state := image;
    }

    method FindOpenTask(affinity: Affinity) returns (r: Option<LlmTask>, error: Option<LlmError>)
      requires TasksOk(state.tasks)
      ensures error == if Incomplete(affinity) then Some(LlmInvalid) else if r.None? then Some(LlmNotFound) else None
      ensures r.Some? ==> r.value.key in state.tasks && state.tasks[r.value.key] == r.value && OpenTool(r.value) && AffinityOf(r.value) == affinity
      ensures error == Some(LlmNotFound) ==> !exists k :: k in state.tasks && OpenTool(state.tasks[k]) && AffinityOf(state.tasks[k]) == affinity
    {
      if Incomplete(affinity) {
        return None, Some(LlmInvalid);
      }
      var rest := state.tasks.Keys;
      while rest != {}
        invariant rest <= state.tasks.Keys
        invariant forall k | k in state.tasks && k !in rest :: !(OpenTool(state.tasks[k]) && AffinityOf(state.tasks[k]) == affinity)
      {
        var k :| k in rest;
        rest := rest - {k};
        if OpenTool(state.tasks[k]) && AffinityOf(state.tasks[k]) == affinity {
          return Some(state.tasks[k]), None;
        }
      }
      return None, Some(LlmNotFound);
    }

    method FindActiveRequest(task: TaskKey) returns (r: Option<LlmRequest>, error: Option<LlmError>)
      requires RequestsOk(state)
      ensures error == if !ValidTaskKey(task) then Some(LlmInvalid) else if r.None? then Some(LlmNotFound) else None
      ensures r.Some? ==> r.value.key in state.requests && state.requests[r.value.key] == r.value && r.value.task == task && !r.value.complete
      ensures error == Some(LlmNotFound) ==> !exists k :: k in state.requests && state.requests[k].task == task && !state.requests[k].complete
    {
      if !ValidTaskKey(task) {
        return None, Some(LlmInvalid);
      }
      var rest := state.requests.Keys;
      while rest != {}
        invariant rest <= state.requests.Keys
        invariant forall k | k in state.requests && k !in rest :: !(state.requests[k].task == task && !state.requests[k].complete)
      {
        var k :| k in rest;
        rest := rest - {k};
        if state.requests[k].task == task && !state.requests[k].complete {
          return Some(state.requests[k]), None;
        }
      }
      return None, Some(LlmNotFound);
    }

    method CheckAffinity(t: LlmTask) returns (taken: bool)
      ensures taken == AffinityTaken(state.tasks, t)
    {
      var rest := state.tasks.Keys;
      while rest != {}
        invariant rest <= state.tasks.Keys
        invariant forall k | k in state.tasks && k !in rest ::
                    !(k != t.key && !state.tasks[k].terminal && AffinityOf(state.tasks[k]) == AffinityOf(t))
      {
        var k :| k in rest;
        rest := rest - {k};
        if k != t.key && !state.tasks[k].terminal && AffinityOf(state.tasks[k]) == AffinityOf(t) {
          return true;
        }
      }
      return false;
    }

    method CheckBusy(r: LlmRequest) returns (busy: bool)
      ensures busy == TaskBusy(state.requests, r)
    {
      var rest := state.requests.Keys;
      while rest != {}
        invariant rest <= state.requests.Keys
        invariant forall k | k in state.requests && k !in rest ::
                    !(k != r.key && state.requests[k].task == r.task && !state.requests[k].complete)
      {
        var k :| k in rest;
        rest := rest - {k};
        if k != r.key && state.requests[k].task == r.task && !state.requests[k].complete {
          return true;
        }
      }
      return false;
    }

    method PutTask(t: LlmTask) returns (v: Verdict)
      modifies this
      ensures Outcome(state, v) == Step(old(state), InsertTask(t))
    {
      if !ValidTask(t) {
        return Refused(LlmInvalid);
      }
      if t.key in state.tasks {
        return Refused(LlmConflict);
      }
      if !t.terminal && ToolTier(t) {
        var taken := CheckAffinity(t);
        if taken {
          return Refused(LlmConflict);
        }
      }
      state := state.(tasks := state.tasks[t.key := t]);
      return Applied;
    }

    method CompareAndSwapTask(key: TaskKey, revision: nat, next: LlmTask) returns (v: Verdict)
      modifies this
      ensures Outcome(state, v) == Step(old(state), SwapTask(key, revision, next))
    {
      if !ValidTaskKey(key) || revision == 0 || next.revision == 0 {
        return Refused(LlmInvalid);
      }
      if key !in state.tasks {
        return Refused(LlmNotFound);
      }
      var current := state.tasks[key];
      if current.revision != revision {
        return Stale;
      }
      if !SameTask(current, next) || next.revision != current.revision + 1 {
        return Refused(LlmConflict);
      }
      if !next.terminal && ToolTier(next) {
        var taken := CheckAffinity(next);
        if taken {
          return Refused(LlmConflict);
        }
      }
      state := state.(tasks := state.tasks[key := next]);
      return Applied;
    }

    method CheckRequestIds(r: LlmRequest) returns (taken: bool)
      ensures taken == RequestIdTaken(state.requests, r)
    {
      var rest := state.requests.Keys;
      while rest != {}
        invariant rest <= state.requests.Keys
        invariant forall k | k in state.requests && k !in rest ::
                    !(k.caller == r.key.caller && (state.requests[k].requestId == r.requestId || state.requests[k].responseId == r.responseId))
      {
        var k :| k in rest;
        rest := rest - {k};
        if k.caller == r.key.caller && (state.requests[k].requestId == r.requestId || state.requests[k].responseId == r.responseId) {
          return true;
        }
      }
      return false;
    }

    method PutRequest(r: LlmRequest) returns (v: Verdict)
      modifies this
      ensures Outcome(state, v) == Step(old(state), InsertRequest(r))
    {
      if !ValidRequest(r) {
        return Refused(LlmInvalid);
      }
      if r.key in state.requests {
        return Refused(LlmConflict);
      }
      if r.task !in state.tasks {
        return Refused(LlmNotFound);
      }
      if state.tasks[r.task].codec != r.codec {
        return Refused(LlmConflict);
      }
      var busy := CheckBusy(r);
      var taken := CheckRequestIds(r);
      if (!r.complete && busy) || taken {
        return Refused(LlmConflict);
      }
      state := state.(requests := state.requests[r.key := r]);
      return Applied;
    }

    method CompareAndSwapRequest(key: RequestKey, revision: nat, next: LlmRequest) returns (v: Verdict)
      modifies this
      ensures Outcome(state, v) == Step(old(state), SwapRequest(key, revision, next))
    {
      if !ValidRequestKey(key) || revision == 0 || next.revision == 0 {
        return Refused(LlmInvalid);
      }
      if key !in state.requests {
        return Refused(LlmNotFound);
      }
      var current := state.requests[key];
      if current.revision != revision {
        return Stale;
      }
      if !SameRequest(current, next) || next.revision != current.revision + 1 {
        return Refused(LlmConflict);
      }
      if current.prunedAt.None? {
        if next.prunedAt.None? && next.payload != current.payload {
          return Refused(LlmConflict);
        }
        if next.prunedAt.Some? && (next.payload != [] || next.decisionBody != []) {
          return Refused(LlmConflict);
        }
      } else if next.prunedAt != current.prunedAt || next.payload != [] || next.decisionBody != [] {
        return Refused(LlmConflict);
      }
      if !next.complete {
        var busy := CheckBusy(next);
        if busy {
          return Refused(LlmConflict);
        }
      }
      state := state.(requests := state.requests[key := next]);
      return Applied;
    }

    method CheckMark(log: map<nat, LlmEvent>, mark: WorkerMark) returns (taken: bool)
      ensures taken == MarkTaken(log, mark)
    {
      var rest := log.Keys;
      while rest != {}
        invariant rest <= log.Keys
        invariant forall n | n in log && n !in rest ::
                    !(log[n].mark.Some? && log[n].mark.value.event == mark.event && log[n].mark.value != mark)
      {
        var n :| n in rest;
        rest := rest - {n};
        if log[n].mark.Some? && log[n].mark.value.event == mark.event && log[n].mark.value != mark {
          return true;
        }
      }
      return false;
    }

    method PutEvent(e: LlmEvent) returns (v: Verdict)
      modifies this
      ensures Outcome(state, v) == Step(old(state), InsertEvent(e))
    {
      if !ValidEvent(e) {
        return Refused(LlmInvalid);
      }
      if e.request !in state.requests {
        return Refused(LlmNotFound);
      }
      var log: map<nat, LlmEvent> := if e.request in state.events then state.events[e.request] else map[];
      if e.sequence in log {
        return Refused(LlmConflict);
      }
      if e.mark.Some? {
        var taken := CheckMark(log, e.mark.value);
        if taken {
          return Refused(LlmConflict);
        }
      }
      log := log[e.sequence := e];
      state := state.(events := state.events[e.request := log]);
      return Applied;
    }

    method PutReceipt(request: RequestKey, mark: WorkerMark) returns (v: Verdict)
      modifies this
      ensures Outcome(state, v) == Step(old(state), InsertReceipt(request, mark))
    {
      if !ValidRequestKey(request) || mark.event == "" || mark.worker == "" || mark.digest == "" {
        return Refused(LlmInvalid);
      }
      if request !in state.requests {
        return Refused(LlmNotFound);
      }
      var key := ReceiptKey(request, mark.event);
      if key in state.receipts {
        return Refused(LlmConflict);
      }
      state := state.(receipts := state.receipts[key := mark]);
      return Applied;
    }

    method DeleteEvents(key: RequestKey) returns (v: Verdict)
      modifies this
      ensures Outcome(state, v) == Step(old(state), DeleteTombstoned(key))
    {
      if !ValidRequestKey(key) {
        return Refused(LlmInvalid);
      }
      if key !in state.requests {
        return Refused(LlmNotFound);
      }
      if state.requests[key].prunedAt.None? {
        return Refused(LlmConflict);
      }
      state := state.(events := state.events - {key});
      return Applied;
    }
  }

  // ---- Recovery

  /** Some worker event of the request still lacks its exact receipt. */
  ghost predicate Unacknowledged(s: LlmState, key: RequestKey) {
    key in s.events && exists n :: n in s.events[key] && s.events[key][n].mark.Some? && !Receipted(s, key, s.events[key][n].mark.value)
  }

  predicate Receipted(s: LlmState, key: RequestKey, mark: WorkerMark) {
    ReceiptKey(key, mark.event) in s.receipts && s.receipts[ReceiptKey(key, mark.event)] == mark
  }

  datatype RecoveryCursor = RecoveryCursor(createdAt: Time, caller: Id, idempotency: Id)

  predicate RecoveryLess(a: LlmRequest, b: LlmRequest) {
    if a.createdAt != b.createdAt then a.createdAt < b.createdAt
    else if a.key.caller != b.key.caller then IdLess(a.key.caller, b.key.caller)
    else IdLess(a.key.idempotency, b.key.idempotency)
  }

  predicate AfterRecovery(r: LlmRequest, c: RecoveryCursor) {
    if r.createdAt != c.createdAt then c.createdAt < r.createdAt
    else if r.key.caller != c.caller then IdLess(c.caller, r.key.caller)
    else IdLess(c.idempotency, r.key.idempotency)
  }

  function Keeps(after: Option<RecoveryCursor>): LlmRequest -> bool {
    (r: LlmRequest) => after.Some? ==> AfterRecovery(r, after.value)
  }

  function CursorOf(r: LlmRequest): RecoveryCursor {
    RecoveryCursor(r.createdAt, r.key.caller, r.key.idempotency)
  }

  function PayloadSize(r: LlmRequest): nat { |r.payload| + |r.decisionBody| }

  /** What recovery must look at: open requests and completed ones whose worker was
  never told, but nothing already quarantined. */
  ghost predicate NeedsRecovery(s: LlmState, key: RequestKey) {
    && key in s.requests && !s.requests[key].quarantined && (s.requests[key].complete ==> Unacknowledged(s, key))
    && s.requests[key].task in s.tasks
  }

  ghost function Candidates(s: LlmState, after: Option<RecoveryCursor>): set<LlmRequest> {
    set key | key in s.requests && NeedsRecovery(s, key) && Keeps(after)(s.requests[key]) :: s.requests[key]
  }

  lemma {:induction false} RecoveryTotal(a: LlmRequest, b: LlmRequest)
    ensures !(RecoveryLess(a, b) && RecoveryLess(b, a))
    ensures a.key != b.key ==> RecoveryLess(a, b) || RecoveryLess(b, a)
  {
    IdLessTotal(a.key.caller, b.key.caller);
    IdLessTotal(a.key.idempotency, b.key.idempotency);
  }

  lemma {:induction false} RecoveryTransitive(a: LlmRequest, b: LlmRequest, c: LlmRequest)
    requires RecoveryLess(a, b) && RecoveryLess(b, c)
    ensures RecoveryLess(a, c)
  {
    var x, y, z := a.key, b.key, c.key;
    IdLessTotal(x.caller, y.caller);
    IdLessTotal(x.caller, z.caller);
    if IdLess(x.caller, y.caller) && IdLess(y.caller, z.caller) {
      IdLessTransitive(x.caller, y.caller, z.caller);
    }
    if IdLess(x.idempotency, y.idempotency) && IdLess(y.idempotency, z.idempotency) {
      IdLessTransitive(x.idempotency, y.idempotency, z.idempotency);
    }
  }

  lemma {:induction false} CandidatesOrder(s: LlmState, found: set<LlmRequest>)
    requires RequestsOk(s) && forall r | r in found :: r.key in s.requests && s.requests[r.key] == r
    ensures Orders(RecoveryLess, found)
  {
    hide RequestsOk;
    forall a, b | a in found && b in found
      ensures !(RecoveryLess(a, b) && RecoveryLess(b, a)) && (a != b ==> RecoveryLess(a, b) || RecoveryLess(b, a))
    {
      RecoveryTotal(a, b);
    }
    forall a, b, c | a in found && b in found && c in found && RecoveryLess(a, b) && RecoveryLess(b, c) ensures RecoveryLess(a, c) {
      RecoveryTransitive(a, b, c);
    }
  }

  method IsUnacknowledged(tx: LlmUnit, key: RequestKey) returns (r: bool)
    ensures r == Unacknowledged(tx.state, key)
  {
    if key !in tx.state.events {
      return false;
    }
    var log := tx.state.events[key];
    var rest := log.Keys;
    while rest != {}
      invariant rest <= log.Keys
      invariant forall n | n in log && n !in rest :: log[n].mark.Some? ==> Receipted(tx.state, key, log[n].mark.value)
    {
      var n :| n in rest;
      rest := rest - {n};
      if log[n].mark.Some? && !Receipted(tx.state, key, log[n].mark.value) {
        return true;
      }
    }
    return false;
  }

  lemma {:induction false} RequestKeys(s: LlmState)
    requires RequestsOk(s)
    ensures forall k | k in s.requests :: s.requests[k].key == k
  {}

  /** The candidates among the keys already walked, while `rest` is still to come. */
  ghost function Walked(s: LlmState, after: Option<RecoveryCursor>, rest: set<RequestKey>): set<LlmRequest> {
    set key | key in s.requests && key !in rest && NeedsRecovery(s, key) && Keeps(after)(s.requests[key]) :: s.requests[key]
  }

  lemma {:induction false} WalkOne(s: LlmState, after: Option<RecoveryCursor>, rest: set<RequestKey>, key: RequestKey)
    requires RequestsOk(s) && key in rest && key in s.requests
    ensures s.requests[key] !in Walked(s, after, rest)
    ensures Walked(s, after, rest - {key}) == Walked(s, after, rest) +
              if NeedsRecovery(s, key) && Keeps(after)(s.requests[key]) then {s.requests[key]} else {}
    ensures Orders(RecoveryLess, Walked(s, after, rest - {key}))
  {
    RequestKeys(s);
    hide NeedsRecovery, Keeps, RequestsOk, Orders;
    CandidatesOrder(s, Walked(s, after, rest - {key}));
  }

  method CollectCandidates(tx: LlmUnit, after: Option<RecoveryCursor>) returns (list: seq<LlmRequest>)
    requires RequestsOk(tx.state)
    ensures Lists(RecoveryLess, Candidates(tx.state, after), list)
  {
    hide NeedsRecovery, Unacknowledged, RequestsOk, Orders;
    list := [];
    var requests := tx.state.requests;
    var rest := requests.Keys;
    assert Walked(tx.state, after, rest) == {};
    while rest != {}
      invariant rest <= requests.Keys
      invariant Lists(RecoveryLess, Walked(tx.state, after, rest), list)
    {
      hide Walked, Lists;
      var key :| key in rest;
      WalkOne(tx.state, after, rest, key);
      var needed := NeedsWork(tx, key);
      if needed && Keeps(after)(requests[key]) {
        list := Insert(RecoveryLess, requests[key], list, Walked(tx.state, after, rest));
      }
      rest := rest - {key};
    }
    assert Walked(tx.state, after, {}) == Candidates(tx.state, after);
  }

  method NeedsWork(tx: LlmUnit, key: RequestKey) returns (r: bool)
    requires key in tx.state.requests
    ensures r == NeedsRecovery(tx.state, key)
  {
    var request := tx.state.requests[key];
    var unacknowledged := IsUnacknowledged(tx, key);
    return !(request.quarantined || (request.complete && !unacknowledged)) && request.task in tx.state.tasks;
  }

  /** A recovery page makes progress or reports the oversized first record. */
  method ScanRecovery(tx: LlmUnit, after: Option<RecoveryCursor>, limit: nat, budget: nat)
    returns (page: seq<LlmRequest>, error: Option<LlmError>, ghost all: seq<LlmRequest>)
    requires RequestsOk(tx.state)
    ensures Lists(RecoveryLess, Candidates(tx.state, after), all)
    ensures error == if !ValidScan(after, limit) then Some(LlmInvalid)
                     else if budget < 1 || (all != [] && PayloadSize(all[0]) > budget) then Some(LlmTooLarge)
                     else None
    ensures error.None? ==> page == Affordable(Take(all, limit), PayloadSize, budget) && (all != [] ==> page != [])
  {
    var list := CollectCandidates(tx, after);
    all := list;
    page := [];
    if !ValidScan(after, limit) {
      return page, Some(LlmInvalid), all;
    }
    if budget < 1 {
      return page, Some(LlmTooLarge), all;
    }
    var fits;
    fits, page := CutToBudget(Take(list, limit), PayloadSize, budget);
    AffordableIsPrefix(Take(list, limit), PayloadSize, budget);
    error := if fits then None else Some(LlmTooLarge);
  }

  predicate ValidScan(after: Option<RecoveryCursor>, limit: nat) {
    && 1 <= limit <= 4096
    && (after.Some? ==> after.value.createdAt != ZERO_TIME && after.value.caller != "" && after.value.idempotency != "")
  }

  /** What a cursor leaves is the suffix of the one listing, so recovery pages of any
  length read every candidate once. */
  lemma {:induction false} RecoveryAfterIsSuffix(s: LlmState, all: seq<LlmRequest>, k: nat, later: seq<LlmRequest>)
    requires RequestsOk(s) && Lists(RecoveryLess, Candidates(s, None), all) && k < |all|
    requires Lists(RecoveryLess, Candidates(s, Some(CursorOf(all[k]))), later)
    ensures later == all[k + 1..]
  {
    hide NeedsRecovery, Unacknowledged;
    var c := CursorOf(all[k]);
    forall r | r in Candidates(s, None) ensures r.key in s.requests && s.requests[r.key] == r && r in all {
      assert r in Elements(all);
    }
    CandidatesOrder(s, Candidates(s, None));
    CursorSuffix(RecoveryLess, Candidates(s, None), all, k, Candidates(s, Some(c)), later);
  }

  lemma {:induction false} CandidateCursor(s: LlmState, all: seq<LlmRequest>, k: nat)
    requires RequestsOk(s) && Lists(RecoveryLess, Candidates(s, None), all) && k < |all|
    ensures var c := CursorOf(all[k]); c.createdAt != ZERO_TIME && c.caller != "" && c.idempotency != ""
  {
    hide NeedsRecovery, Unacknowledged;
    assert all[k] in Elements(all);
    var key :| key in s.requests && all[k] == s.requests[key];
    RequestFacts(s, key);
  }

  /** `read` is the listing up to its first candidate that alone exceeds the budget. */
  ghost predicate StopsAtOversized(s: LlmState, read: seq<LlmRequest>, budget: nat) {
    exists all :: Lists(RecoveryLess, Candidates(s, None), all) && read < all && PayloadSize(all[|read|]) > budget
  }

  lemma {:induction false} OversizedNext(s: LlmState, all: seq<LlmRequest>, read: seq<LlmRequest>, budget: nat)
    requires Lists(RecoveryLess, Candidates(s, None), all) && read <= all && all[|read|..] != []
    requires PayloadSize(all[|read|..][0]) > budget
    ensures StopsAtOversized(s, read, budget)
  {
    hide Lists, Candidates;
    assert all[|read|] == all[|read|..][0];
  }

  predicate AllWithin(list: seq<LlmRequest>, budget: nat) {
    forall i | 0 <= i < |list| :: PayloadSize(list[i]) <= budget
  }

  /** A page is the next piece of the listing, and each of its records fits. */
  lemma {:induction false} PageAdvances(all: seq<LlmRequest>, read: seq<LlmRequest>, page: seq<LlmRequest>, limit: nat, budget: nat)
    requires read <= all && page == Affordable(Take(all[|read|..], limit), PayloadSize, budget) && page != []
    requires AllWithin(read, budget)
    ensures read + page <= all && AllWithin(read + page, budget)
    ensures (read + page)[|read| + |page| - 1] == all[|read| + |page| - 1]
  {
    AffordableIsPrefix(Take(all[|read|..], limit), PayloadSize, budget);
    AffordableFits(Take(all[|read|..], limit), PayloadSize, budget);
  }

  lemma {:induction false} EachCandidateOnce(s: LlmState, all: seq<LlmRequest>)
    requires RequestsOk(s) && Lists(RecoveryLess, Candidates(s, None), all)
    ensures |all| == |Candidates(s, None)|
  {
    RequestKeys(s);
    hide RequestsOk, Lists, NeedsRecovery;
    CandidatesOrder(s, Candidates(s, None));
    NoRepeats(RecoveryLess, Candidates(s, None), all);
  }

  /** Oldest request first; ties go to the smaller caller, then idempotency key. */
  ghost predicate RequestedBefore(a: LlmRequest, b: LlmRequest) {
    || a.createdAt < b.createdAt
    || (a.createdAt == b.createdAt && Lexicographic(a.key.caller, b.key.caller))
    || (a.createdAt == b.createdAt && a.key.caller == b.key.caller && Lexicographic(a.key.idempotency, b.key.idempotency))
  }

  /** Some worker event of the request was never confirmed with its exact mark. */
  ghost predicate AwaitsReceipt(s: LlmState, key: RequestKey) {
    key in s.events && exists n :: n in s.events[key] && s.events[key][n].mark.Some?
                                    && var mark := s.events[key][n].mark.value;
                                       !(ReceiptKey(key, mark.event) in s.receipts && s.receipts[ReceiptKey(key, mark.event)] == mark)
  }

  /** Every request whose work is not done, and no other, oldest first. */
  ghost predicate ListsUnfinished(s: LlmState, read: seq<LlmRequest>) {
    && (forall i, j | 0 <= i < j < |read| :: RequestedBefore(read[i], read[j]))
    && (forall key | key in s.requests ::
          s.requests[key] in read <==> !s.requests[key].quarantined && s.requests[key].task in s.tasks
                                       && (!s.requests[key].complete || AwaitsReceipt(s, key)))
    && (forall x | x in read :: x.key in s.requests && s.requests[x.key] == x)
  }

  lemma {:induction false} RecoveryLessMeans(a: LlmRequest, b: LlmRequest)
    ensures RecoveryLess(a, b) <==> RequestedBefore(a, b)
  {
    IdLessIsLexicographic(a.key.caller, b.key.caller);
    IdLessIsLexicographic(a.key.idempotency, b.key.idempotency);
    IdLessTotal(a.key.caller, b.key.caller);
    hide Lexicographic;
  }

  lemma {:induction false} AwaitingIsUnacknowledged(s: LlmState, key: RequestKey)
    ensures AwaitsReceipt(s, key) <==> Unacknowledged(s, key)
  {
    if AwaitsReceipt(s, key) {
      var n :| n in s.events[key] && s.events[key][n].mark.Some? && !Receipted(s, key, s.events[key][n].mark.value);
    }
  }

  lemma {:induction false} ListingOfRecovery(s: LlmState, read: seq<LlmRequest>)
    requires RequestsOk(s) && Lists(RecoveryLess, Candidates(s, None), read)
    ensures ListsUnfinished(s, read)
  {
    RequestKeys(s);
    hide RequestsOk, RecoveryLess, RequestedBefore, Unacknowledged, AwaitsReceipt;
    forall i, j | 0 <= i < j < |read| ensures RequestedBefore(read[i], read[j]) {
      RecoveryLessMeans(read[i], read[j]);
    }
    forall x: LlmRequest ensures x in read <==> x in Candidates(s, None) {
      assert x in read <==> x in Elements(read);
    }
    forall key | key in s.requests ensures AwaitsReceipt(s, key) <==> Unacknowledged(s, key) {
      AwaitingIsUnacknowledged(s, key);
    }
  }

  /** Recovery read to its end: until an empty page, each page with the cursor of the
  last request read. It returns every candidate once, in order, or stops with the
  size error exactly at the first candidate that alone exceeds the budget. */
  method ReadAllCandidates(tx: LlmUnit, limit: nat, budget: nat)
    returns (read: seq<LlmRequest>, error: Option<LlmError>)
    requires RequestsOk(tx.state) && 1 <= limit <= 4096 && budget >= 1
    ensures error.None? ==> Lists(RecoveryLess, Candidates(tx.state, None), read) && |read| == |Candidates(tx.state, None)|
    ensures error.None? ==> ListsUnfinished(tx.state, read)
    ensures error.Some? ==> error == Some(LlmTooLarge) && StopsAtOversized(tx.state, read, budget)
    ensures AllWithin(read, budget)
  {
    hide RequestsOk, Lists, Candidates, Affordable, StopsAtOversized, Take, ListsUnfinished;
    var page;
    ghost var rest;
    page, error, rest := ScanRecovery(tx, None, limit, budget);
    ghost var all := rest;
    read := [];
    while error.None? && page != []
      invariant Lists(RecoveryLess, Candidates(tx.state, None), all)
      invariant read <= all && rest == all[|read|..]
      invariant error.None? ==> page == Affordable(Take(rest, limit), PayloadSize, budget) && (rest != [] ==> page != [])
      invariant error.Some? ==> error == Some(LlmTooLarge) && rest != [] && PayloadSize(rest[0]) > budget
      invariant AllWithin(read, budget)
      decreases |all| - |read|, error.None?
    {
      ghost var k := |read| + |page|;
      PageAdvances(all, read, page, limit, budget);
      read := read + page;
      CandidateCursor(tx.state, all, k - 1);
      page, error, rest := ScanRecovery(tx, Some(CursorOf(read[|read| - 1])), limit, budget);
      RecoveryAfterIsSuffix(tx.state, all, k - 1, rest);
    }
    if error.Some? {
      OversizedNext(tx.state, all, read, budget);
    } else {
      assert read == all;
      EachCandidateOnce(tx.state, read);
      ListingOfRecovery(tx.state, read);
    }
  }
}
