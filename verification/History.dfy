/** What the history of a Task says, in every reachable store. */
module History {
  import opened Types
  import opened Validators
  import opened Store
  import opened Commands
  import opened Invariant
  import opened Tables
  import opened Growth
  import opened Runs
  import F = Fencing

  // ---- The Task is the fold of its log

  /** The Task record a reader of the log alone arrives at after `n` events. */
  function Rebuilt(ref: TaskRef, context: ContextRef, v: LogView, n: nat): Task {
    var artifact := if v.artifact == "" then None else Some(ArtifactRef(ref.workspace, v.artifact));
    Task(ref, context, v.state, n, v.messages, n, artifact,
         if v.submission == "" then None
         else Some(Submission(v.submission, ref, v.finalMessage, artifact, v.updatedAt)),
         v.createdAt, v.updatedAt)
  }

  /** Events occupy exactly 1..EventCount = Revision, and reading them in order
  rebuilds the whole Task record: state, counts, Artifact, Submission and times. Only
  the context, which never changes, is not in the log. */
  lemma {:induction false} TaskIsFoldOfLog(s: StoreState, ref: TaskRef)
    requires Reachable(s) && ref in s.tasks
    ensures ref in s.events
    ensures var t := s.tasks[ref].task;
            && (forall n :: n in s.events[ref] <==> 1 <= n <= t.eventCount)
            && t.eventCount == t.revision
            && t == Rebuilt(ref, t.context, Fold(s.events[ref], t.eventCount), t.eventCount)
  {
    ReachableInv(s);
    FoldOf(s, ref);
  }

  lemma {:induction false} FoldOf(s: StoreState, ref: TaskRef)
    requires TasksOk(s.tasks) && LogsOk(s.tasks, s.events) && ref in s.tasks
    ensures ref in s.events && LogOk(ref, s.events[ref], s.tasks[ref].task)
    ensures var t := s.tasks[ref].task;
            t.eventCount == t.revision && t == Rebuilt(ref, t.context, ViewOf(t), t.eventCount)
  {
    assert TaskRowOk(ref, s.tasks[ref]);
  }

  /** Messages occupy exactly 1..MessageCount, once each, callers on odd and agents
  on even sequences; a Task that waits for the agent has an odd count and one
  that waits for the caller, or is completed, an even one. */
  lemma {:induction false} MessagesAlternate(s: StoreState, ref: TaskRef)
    requires Reachable(s) && ref in s.tasks
    ensures var t := s.tasks[ref].task;
            && (forall n: nat :: HasMessage(s.messages, ref, n) <==> 1 <= n <= t.messageCount)
            && (t.state.TaskSubmitted? || t.state.TaskWorking? ==> t.messageCount % 2 == 1)
            && (t.state.TaskInputRequired? || t.state.TaskCompleted? ==> t.messageCount % 2 == 0)
    ensures forall a, b | a in s.messages && b in s.messages && s.messages[a].task == s.messages[b].task == ref
                          && s.messages[a].sequence == s.messages[b].sequence :: a == b
    ensures forall a | a in s.messages && s.messages[a].task == ref ::
              s.messages[a].author == if s.messages[a].sequence % 2 == 1 then AuthorCaller else AuthorAgent
  {
    ReachableInv(s);
    hide LogsOk, LinksOk, GrantsOk, ArtifactsOk, SubmissionsOk, HeadsOk, ReceiptsOk, CommandsOk, EffectsOk;
    MessagesOf(s, ref);
  }

  lemma {:induction false} MessagesOf(s: StoreState, ref: TaskRef)
    requires TasksOk(s.tasks) && MessagesOk(s.tasks, s.messages) && ref in s.tasks
    ensures TurnsAlternate(s.tasks[ref].task)
    ensures forall n: nat :: HasMessage(s.messages, ref, n) <==> 1 <= n <= s.tasks[ref].task.messageCount
    ensures forall a | a in s.messages && s.messages[a].task == ref ::
              s.messages[a].author == if s.messages[a].sequence % 2 == 1 then AuthorCaller else AuthorAgent
  {
    assert TaskRowOk(ref, s.tasks[ref]);
    forall a | a in s.messages && s.messages[a].task == ref
      ensures s.messages[a].author == if s.messages[a].sequence % 2 == 1 then AuthorCaller else AuthorAgent
      ensures 1 <= s.messages[a].sequence <= s.tasks[ref].task.messageCount
    {
      assert MessageRowOk(s.tasks, a, s.messages[a]);
    }
  }

  // ---- One command, one event

  /** Every event was produced by exactly one recorded command, and every recorded
  command that advances a Task produced exactly the event it describes. */
  lemma {:induction false} CommandsMatchEvents(s: StoreState)
    requires Reachable(s)
    ensures forall ref, n | ref in s.events && n in s.events[ref] :: HasCommand(s.commands, ref, n)
    ensures forall a, b, ref, n | a in s.commands && b in s.commands
                                  && Produced(s.commands[a], ref, n) && Produced(s.commands[b], ref, n) :: a == b
    ensures forall key | key in s.commands && Advances(s.commands[key].intent) ::
              && AnswersTask(s.commands[key].answer)
              && var t := s.commands[key].answer.result;
                 && t.ref in s.events && t.revision in s.events[t.ref]
                 && EventMatches(s.commands[key].intent, s.events[t.ref][t.revision])
  {
    ReachableInv(s);
    hide TasksOk, PublicIdsUnique, LogsOk, MessagesOk, LinksOk, GrantsOk, ArtifactsOk, SubmissionsOk, HeadsOk, ReceiptsOk, CommandsOk;
    hide EventMatches;
    forall key | key in s.commands ensures EffectRowOk(s.events, s.commands[key]) {}
  }

  // ---- Completion and settlement

  /** A Task is completed if and only if its Submission row exists, and the row is
  the Task's own; the Artifact row always carries the state the Task shows. */
  lemma {:induction false} CompletionIsAtomic(s: StoreState, ref: TaskRef)
    requires Reachable(s) && ref in s.tasks
    ensures s.tasks[ref].task.state == TaskCompleted <==> ref in s.submissions
    ensures ref in s.submissions ==> s.tasks[ref].task.submission == Some(s.submissions[ref])
    ensures var r := s.tasks[ref];
            r.task.artifact.Some? ==>
              && r.task.artifact.value in s.artifacts
              && var a := s.artifacts[r.task.artifact.value].artifact;
                 && a.task == ref && r.artifactState == Some(a.state)
                 && (a.state == ArtifactPublished <==> r.task.state == TaskCompleted)
                 && (a.state == ArtifactDiscarded <==> r.task.state == TaskCanceled || r.task.state == TaskFailed)
                 && (a.state == ArtifactFrozen <==> r.task.state == TaskWorking || r.task.state == TaskInputRequired)
                 && (ref in s.submissions ==> s.submissions[ref].artifact == r.task.artifact)
  {
    hide TasksOk, PublicIdsUnique, LogsOk, MessagesOk, LinksOk, GrantsOk, ArtifactsOk, HeadsOk, ReceiptsOk, CommandsOk, EffectsOk;
    hide Reachable, SubmissionsOk;
    ReachableInv(s);
    CompletionOf(s, ref);
    if s.tasks[ref].task.artifact.Some? {
      SettlementOf(s, ref);
    }
  }

  lemma {:induction false} CompletionOf(s: StoreState, ref: TaskRef)
    requires TasksOk(s.tasks) && SubmissionsOk(s.tasks, s.submissions) && ref in s.tasks
    ensures ValidTaskRecord(s.tasks[ref])
    ensures s.tasks[ref].task.submission.Some? <==> ref in s.submissions
    ensures ref in s.submissions ==> s.tasks[ref].task.submission == Some(s.submissions[ref])
  {
    assert TaskRowOk(ref, s.tasks[ref]);
  }

  lemma {:induction false} SettlementOf(s: StoreState, ref: TaskRef)
    requires ArtifactsOk(s.tasks, s.artifacts, s.heads) && ref in s.tasks && s.tasks[ref].task.artifact.Some?
    ensures var a := s.tasks[ref].task.artifact.value;
            a in s.artifacts && s.artifacts[a].artifact.task == ref && s.tasks[ref].artifactState == Some(s.artifacts[a].artifact.state)
  {
    var a := s.tasks[ref].task.artifact.value;
    assert ArtifactRowOk(s.tasks, s.heads, a, s.artifacts[a]);
  }

  /** A terminal Task keeps its record, its log, its messages and its grants
  unchanged in every continuation: it is never reopened or leased again. */
  lemma {:induction false} TerminalIsFinal(s: StoreState, ref: TaskRef, actions: seq<Action>)
    requires Reachable(s) && ref in s.tasks && s.tasks[ref].task.state.Terminal()
    ensures var s' := Run(s, actions);
            && ref in s'.tasks && s'.tasks[ref] == s.tasks[ref]
            && ref in s.events && ref in s'.events && s'.events[ref] == s.events[ref]
            && (forall key | key in s'.messages && s'.messages[key].task == ref :: key in s.messages && s.messages[key] == s'.messages[key])
            && (forall key | key in s'.grants && key.task == ref :: key in s.grants && s.grants[key] == s'.grants[key])
  {
    var s' := Run(s, actions);
    hide TasksOk, PublicIdsUnique, LogsOk, MessagesOk, LinksOk, GrantsOk, ArtifactsOk, SubmissionsOk, HeadsOk, ReceiptsOk;
    hide CommandsOk, EffectsOk, LogsGrow, ArtifactsGrow, HeadsGrow, Extends, Run, Reachable;
    ReachableInv(s);
    RunKeeps(s, actions);
    assert RecordGrows(s.tasks[ref], s'.tasks[ref]);
    SameLog(s, s', ref);
    SameMessages(s, s', ref);
    SameGrants(s, s', ref);
  }

  lemma {:induction false} SameLog(s: StoreState, s': StoreState, ref: TaskRef)
    requires ref in s.tasks && ref in s'.tasks && s'.tasks[ref] == s.tasks[ref]
    requires LogsOk(s.tasks, s.events) && LogsOk(s'.tasks, s'.events) && LogsGrow(s.events, s'.events)
    ensures ref in s.events && ref in s'.events && s'.events[ref] == s.events[ref]
  {
    assert LogOk(ref, s.events[ref], s.tasks[ref].task) && LogOk(ref, s'.events[ref], s'.tasks[ref].task);
  }

  lemma {:induction false} SameMessages(s: StoreState, s': StoreState, ref: TaskRef)
    requires ref in s.tasks && ref in s'.tasks && s'.tasks[ref] == s.tasks[ref]
    requires MessagesOk(s.tasks, s.messages) && MessagesOk(s'.tasks, s'.messages) && Extends(s.messages, s'.messages)
    ensures forall key | key in s'.messages && s'.messages[key].task == ref :: key in s.messages && s.messages[key] == s'.messages[key]
  {
    forall key | key in s'.messages && s'.messages[key].task == ref ensures key in s.messages {
      assert MessageRowOk(s'.tasks, key, s'.messages[key]);
      assert HasMessage(s.messages, ref, s'.messages[key].sequence);
    }
  }

  lemma {:induction false} SameGrants(s: StoreState, s': StoreState, ref: TaskRef)
    requires ref in s.tasks && ref in s'.tasks && s'.tasks[ref] == s.tasks[ref]
    requires GrantsOk(s.tasks, s.grants) && GrantsOk(s'.tasks, s'.grants) && Extends(s.grants, s'.grants)
    ensures forall key | key in s'.grants && key.task == ref :: key in s.grants && s.grants[key] == s'.grants[key]
  {
    F.GrantHistoryOf(s, ref);
    F.GrantHistoryOf(s', ref);
    assert forall key: LeaseKey :: key == LeaseKey(key.task, key.fence);
  }

  /** A terminal event is the last of its log, so the Task is in its state. */
  lemma {:induction false} TerminalEventIsLast(s: StoreState, ref: TaskRef, n: nat)
    requires LogsOk(s.tasks, s.events) && ref in s.events && n in s.events[ref] && s.events[ref][n].state.Terminal()
    ensures ref in s.tasks && n == s.tasks[ref].task.eventCount && s.tasks[ref].task.state == s.events[ref][n].state
  {
    var log, t := s.events[ref], s.tasks[ref].task;
    assert LogOk(ref, log, t);
    assert LogRowOk(ref, log, n);
    assert Fold(log, n).state == log[n].state;
    assert n + 1 in log ==> LogRowOk(ref, log, n + 1);
  }

  // ---- Times

  lemma {:induction false} FoldTime(ref: TaskRef, log: Log, t: Task, n: nat)
    requires LogOk(ref, log, t) && 1 <= n <= t.eventCount
    ensures Fold(log, n).updatedAt == log[n].occurredAt
  {}

  lemma {:induction false} EventTimes(ref: TaskRef, log: Log, t: Task, i: nat, j: nat)
    requires LogOk(ref, log, t) && 1 <= i <= j <= t.eventCount
    ensures log[i].occurredAt <= log[j].occurredAt
    decreases j
  {
    if i < j {
      EventTimes(ref, log, t, i, j - 1);
      assert LogRowOk(ref, log, j);
      FoldTime(ref, log, t, j - 1);
    }
  }

  /** Whatever the clock does, recorded times never run backwards. */
  lemma {:induction false} TimeOrder(s: StoreState, ref: TaskRef)
    requires Reachable(s) && ref in s.tasks
    ensures ref in s.events
    ensures forall i, j | i in s.events[ref] && j in s.events[ref] && i <= j ::
              s.events[ref][i].occurredAt <= s.events[ref][j].occurredAt
    ensures forall a, b | a in s.messages && b in s.messages && s.messages[a].task == s.messages[b].task == ref
                          && s.messages[a].sequence <= s.messages[b].sequence ::
              s.messages[a].createdAt <= s.messages[b].createdAt
    ensures forall f: nat, g: nat | LeaseKey(ref, f) in s.grants && LeaseKey(ref, g) in s.grants && f <= g ::
              s.grants[LeaseKey(ref, f)].grantedAt <= s.grants[LeaseKey(ref, g)].grantedAt
  {
    hide Reachable, LogOk;
    hide TasksOk, PublicIdsUnique, LogsOk, LinksOk, GrantsOk, ArtifactsOk, SubmissionsOk, HeadsOk, ReceiptsOk, CommandsOk, EffectsOk;
    ReachableInv(s);
    F.GrantHistory(s, ref);
    FoldOf(s, ref);
    EventTimesOf(s, ref);
  }

  lemma {:induction false} EventTimesOf(s: StoreState, ref: TaskRef)
    requires ref in s.tasks && ref in s.events && LogOk(ref, s.events[ref], s.tasks[ref].task)
    ensures forall i, j | i in s.events[ref] && j in s.events[ref] && i <= j ::
              s.events[ref][i].occurredAt <= s.events[ref][j].occurredAt
  {
    var log := s.events[ref];
    forall i, j | i in log && j in log && i <= j ensures log[i].occurredAt <= log[j].occurredAt {
      EventTimes(ref, log, s.tasks[ref].task, i, j);
    }
  }

  lemma {:induction false} ReceiptTimes(s: StoreState, ref: ArtifactRef)
    requires Reachable(s) && ref in s.receipts
    ensures ref in s.artifacts
    ensures var a := s.artifacts[ref].artifact;
            a.publishedAt.Some? && a.frozenAt <= a.publishedAt.value <= s.receipts[ref].recordedAt
  {
    hide TasksOk, PublicIdsUnique, LogsOk, MessagesOk, LinksOk, GrantsOk, SubmissionsOk, HeadsOk, CommandsOk, EffectsOk;
    hide Reachable;
    ReachableInv(s);
    assert ReceiptRowOk(s.artifacts, s.heads, ref, s.receipts[ref]);
    assert ArtifactRowOk(s.tasks, s.heads, ref, s.artifacts[ref]);
  }
}
