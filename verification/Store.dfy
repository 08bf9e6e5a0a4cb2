/** The store state: nine maps of records, and the orders its scans use. */
module Store {
  import opened Types

  datatype CommandRecord = CommandRecord(
    authority: Id, id: Id, intent: Command, answer: Answer, createdAt: Time)

  datatype LeaseState = LeaseState(owner: Id, fence: nat)

  datatype TaskRecord = TaskRecord(task: Task, lease: LeaseState, artifactState: Option<ArtifactState>)

  datatype MessageKey = MessageKey(authority: Id, id: Id)

  /** `encodedSize` is the length of the sealed parts as stored. */
  datatype MessageRecord = MessageRecord(
    id: Id, task: TaskRef, sequence: nat, author: Author,
    parts: seq<Part>, encodedSize: nat, createdAt: Time)
  {
    function Key(): MessageKey { MessageKey(task.workspace.authority, id) }
  }

  datatype LeaseKey = LeaseKey(task: TaskRef, fence: nat)
  datatype GrantRecord = GrantRecord(grant: LeaseGrant, grantedAt: Time) {
    function Key(): LeaseKey { LeaseKey(grant.task, grant.fence) }
  }

  datatype ArtifactRecord = ArtifactRecord(artifact: Artifact, encodedSize: nat)

  type Log = map<nat, Event>

  datatype StoreState = StoreState(
    commands: map<CommandKey, CommandRecord>,
    tasks: map<TaskRef, TaskRecord>,
    messages: map<MessageKey, MessageRecord>,
    events: map<TaskRef, Log>,
    grants: map<LeaseKey, GrantRecord>,
    artifacts: map<ArtifactRef, ArtifactRecord>,
    submissions: map<TaskRef, Submission>,
    heads: map<WorkspaceRef, WorkspaceHead>,
    receipts: map<ArtifactRef, ApplyReceipt>)

  const EMPTY: StoreState :=
    StoreState(map[], map[], map[], map[], map[], map[], map[], map[], map[])

  // ---- Orders

  /** Lexicographic order on identifiers. */
  predicate IdLess(a: Id, b: Id) {
    if b == "" then false
    else if a == "" then true
    else if a[0] != b[0] then a[0] < b[0]
    else IdLess(a[1..], b[1..])
  }

  lemma {:induction false} IdLessTransitive(a: Id, b: Id, c: Id)
    requires IdLess(a, b) && IdLess(b, c)
    ensures IdLess(a, c)
  {
    if a != "" && a[0] == b[0] == c[0] {
      IdLessTransitive(a[1..], b[1..], c[1..]);
    }
  }

  lemma {:induction false} IdLessTotal(a: Id, b: Id)
    ensures !(IdLess(a, b) && IdLess(b, a))
    ensures a == b <==> !IdLess(a, b) && !IdLess(b, a)
  {
    if a != "" && b != "" && a[0] == b[0] {
      IdLessTotal(a[1..], b[1..]);
      assert a == [a[0]] + a[1..] && b == [b[0]] + b[1..];
    } else if a == "" && b == "" {
    }
  }

  /** One string comes before another at the first place where they differ. */
  ghost predicate Lexicographic(a: Id, b: Id) {
    exists k :: 0 <= k <= |a| && DiffersAt(a, b, k)
  }

  predicate DiffersAt(a: Id, b: Id, k: nat) {
    k <= |a| && k < |b| && a[..k] == b[..k] && (k == |a| || a[k] < b[k])
  }

  lemma {:induction false} SameStart(a: Id, b: Id, k: nat)
    requires DiffersAt(a, b, k) && k > 0
    ensures a != "" && b != "" && a[0] == b[0]
  {
    assert a[0] == a[..k][0] && b[0] == b[..k][0];
  }

  lemma {:induction false} IdLessIsLexicographic(a: Id, b: Id)
    ensures IdLess(a, b) <==> Lexicographic(a, b)
  {
    if b != "" && (a == "" || a[0] < b[0]) {
      assert DiffersAt(a, b, 0);
    } else if a != "" && b != "" && a[0] == b[0] {
      IdLessIsLexicographic(a[1..], b[1..]);
      if IdLess(a, b) {
        var k :| 0 <= k <= |a[1..]| && DiffersAt(a[1..], b[1..], k);
        assert a[..k + 1] == [a[0]] + a[1..][..k] && b[..k + 1] == [b[0]] + b[1..][..k];
        assert DiffersAt(a, b, k + 1);
      } else if Lexicographic(a, b) {
        var k :| 0 <= k <= |a| && DiffersAt(a, b, k);
        assert a[1..][..k - 1] == a[..k][1..] && b[1..][..k - 1] == b[..k][1..];
        assert DiffersAt(a[1..], b[1..], k - 1);
      }
    } else if Lexicographic(a, b) {
      var k :| 0 <= k <= |a| && DiffersAt(a, b, k);
      if k > 0 {
        SameStart(a, b, k);
      }
    }
  }

  /** Oldest first: creation time, then Workspace and Task identifier. */
  predicate CreatedLess(a: Task, b: Task) {
    if a.createdAt != b.createdAt then a.createdAt < b.createdAt
    else if a.ref.workspace.id != b.ref.workspace.id then IdLess(a.ref.workspace.id, b.ref.workspace.id)
    else IdLess(a.ref.id, b.ref.id)
  }

  lemma {:induction false} CreatedLessTransitive(a: Task, b: Task, c: Task)
    requires CreatedLess(a, b) && CreatedLess(b, c)
    ensures CreatedLess(a, c)
  {
    IdLessTotal(a.ref.workspace.id, b.ref.workspace.id);
    if IdLess(a.ref.workspace.id, b.ref.workspace.id) && IdLess(b.ref.workspace.id, c.ref.workspace.id) {
      IdLessTransitive(a.ref.workspace.id, b.ref.workspace.id, c.ref.workspace.id);
    }
    if IdLess(a.ref.id, b.ref.id) && IdLess(b.ref.id, c.ref.id) {
      IdLessTransitive(a.ref.id, b.ref.id, c.ref.id);
    }
    IdLessTotal(a.ref.workspace.id, c.ref.workspace.id);
  }

  lemma {:induction false} CreatedLessTotal(a: Task, b: Task)
    requires a.ref.workspace.authority == b.ref.workspace.authority
    ensures !(CreatedLess(a, b) && CreatedLess(b, a))
    ensures a.ref != b.ref ==> CreatedLess(a, b) || CreatedLess(b, a)
    ensures a.ref == b.ref && a.createdAt == b.createdAt ==> !CreatedLess(a, b)
  {
    IdLessTotal(a.ref.workspace.id, b.ref.workspace.id);
    IdLessTotal(a.ref.id, b.ref.id);
  }

  // ---- Selections that range over a whole map

  predicate Claimable(tasks: map<TaskRef, TaskRecord>, authority: Id, ref: TaskRef) {
    && ref in tasks
    && tasks[ref].task.ref == ref
    && ref.workspace.authority == authority
    && tasks[ref].lease.owner == ""
    && !tasks[ref].task.state.Terminal()
  }

  ghost predicate OldestClaimable(tasks: map<TaskRef, TaskRecord>, authority: Id, ref: TaskRef) {
    && Claimable(tasks, authority, ref)
    && forall other :: Claimable(tasks, authority, other) && other != ref ==>
         CreatedLess(tasks[ref].task, tasks[other].task)
  }

  /** Earlier creation first; ties go to the smaller Workspace, then Task identifier. */
  ghost predicate Precedes(a: Task, b: Task) {
    || a.createdAt < b.createdAt
    || (a.createdAt == b.createdAt && Lexicographic(a.ref.workspace.id, b.ref.workspace.id))
    || (a.createdAt == b.createdAt && a.ref.workspace.id == b.ref.workspace.id && Lexicographic(a.ref.id, b.ref.id))
  }

  lemma {:induction false} CreatedLessMeans(a: Task, b: Task)
    ensures CreatedLess(a, b) <==> Precedes(a, b)
  {
    IdLessIsLexicographic(a.ref.workspace.id, b.ref.workspace.id);
    IdLessIsLexicographic(a.ref.id, b.ref.id);
    IdLessTotal(a.ref.workspace.id, b.ref.workspace.id);
    hide Lexicographic;
  }

  /** Some claimable Task is the oldest, unless there is none. */
  lemma {:induction false} OldestExists(tasks: map<TaskRef, TaskRecord>, authority: Id, some: set<TaskRef>) returns (least: TaskRef)
    requires some != {} && forall ref | ref in some :: Claimable(tasks, authority, ref)
    ensures least in some && least in tasks
    ensures forall other | other in some && other != least :: other in tasks && CreatedLess(tasks[least].task, tasks[other].task)
    decreases |some|
  {
    hide CreatedLess;
    var x :| x in some;
    var rest := some - {x};
    assert some == rest + {x};
    if rest == {} {
      least := x;
    } else {
      var m := OldestExists(tasks, authority, rest);
      CreatedLessTotal(tasks[x].task, tasks[m].task);
      least := if CreatedLess(tasks[x].task, tasks[m].task) then x else m;
      forall other | other in some && other != least ensures other in tasks && CreatedLess(tasks[least].task, tasks[other].task) {
        if least == x && other != m {
          CreatedLessTransitive(tasks[x].task, tasks[m].task, tasks[other].task);
        }
      }
    }
  }

  lemma {:induction false} SomeOldest(tasks: map<TaskRef, TaskRecord>, authority: Id)
    ensures (exists ref :: Claimable(tasks, authority, ref)) <==> exists ref :: OldestClaimable(tasks, authority, ref)
  {
    var all := set ref | ref in tasks && Claimable(tasks, authority, ref);
    if ref :| Claimable(tasks, authority, ref) {
      assert ref in all;
      var least := OldestExists(tasks, authority, all);
      forall other | Claimable(tasks, authority, other) && other != least ensures CreatedLess(tasks[least].task, tasks[other].task) {
        assert other in all;
      }
      assert OldestClaimable(tasks, authority, least);
    }
  }

  /** The oldest claimable Task is unique, whatever order the map is walked in. */
  lemma {:induction false} OldestClaimableUnique(tasks: map<TaskRef, TaskRecord>, authority: Id, a: TaskRef, b: TaskRef)
    requires OldestClaimable(tasks, authority, a) && OldestClaimable(tasks, authority, b)
    ensures a == b
  {
    if a != b {
      CreatedLessTotal(tasks[a].task, tasks[b].task);
    }
  }

  /** Task identifiers are unique inside one authority, across its Workspaces. */
  ghost predicate PublicIdTaken(tasks: map<TaskRef, TaskRecord>, ref: TaskRef) {
    exists other :: other in tasks && other.workspace.authority == ref.workspace.authority && other.id == ref.id
  }

  ghost predicate ArtifactTaken(artifacts: map<ArtifactRef, ArtifactRecord>, a: Artifact) {
    exists other :: other in artifacts &&
      ((artifacts[other].artifact.ref.workspace.authority == a.ref.workspace.authority
        && artifacts[other].artifact.ref.id == a.ref.id)
       || artifacts[other].artifact.task == a.task)
  }

  ghost predicate SubmissionTaken(submissions: map<TaskRef, Submission>, b: Submission) {
    exists other :: other in submissions &&
      (other == b.task
       || (submissions[other].task.workspace.authority == b.task.workspace.authority
           && submissions[other].id == b.id))
  }

  ghost predicate ReceiptTaken(receipts: map<ArtifactRef, ApplyReceipt>, r: ApplyReceipt) {
    exists other :: other in receipts &&
      (other == r.artifact
       || (receipts[other].artifact.workspace.authority == r.artifact.workspace.authority
           && receipts[other].id == r.id))
  }

  ghost predicate MessageTaken(messages: map<MessageKey, MessageRecord>, m: MessageRecord) {
    m.Key() in messages
    || exists key :: key in messages && messages[key].task == m.task && messages[key].sequence == m.sequence
  }

  /** What a compare-and-swap expects of the Task row it replaces. */
  datatype TaskCondition = TaskCondition(expectedRevision: nat, expectedLease: Option<LeaseState>)

  predicate ConditionHolds(condition: TaskCondition, r: TaskRecord) {
    && r.task.revision == condition.expectedRevision
    && (condition.expectedLease.Some? ==> r.lease == condition.expectedLease.value)
  }
}
