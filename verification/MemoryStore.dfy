/** The transactional store: primitives over a working copy of the nine maps, and
the Update that swaps the copy in only when the whole transaction succeeds. */
module MemoryStore {
  import opened Types
  import opened Store
  import opened Commands
  import opened Ordering
  import T = Transactions

  /** The working state of one View or Update callback. */
  class Unit {
    var state: StoreState

    constructor (image: StoreState)
      ensures state == image
    {
      state := image;
    }

    // ---- Reads

    /** At most one Task of an authority carries an identifier, so the answer is a
    function of the state and not of the order in which the map is walked. */
    method ResolveTask(authority: Id, id: Id) returns (r: Option<TaskRef>)
      ensures r.Some? ==> r.value in state.tasks && r.value.workspace.authority == authority && r.value.id == id
      ensures r.None? ==> !exists ref :: ref in state.tasks && ref.workspace.authority == authority && ref.id == id
    {
      var rest := state.tasks.Keys;
      while rest != {}
        invariant rest <= state.tasks.Keys
        invariant forall ref | ref in state.tasks && ref !in rest :: !(ref.workspace.authority == authority && ref.id == id)
      {
        var ref :| ref in rest;
        rest := rest - {ref};
        if ref.workspace.authority == authority && ref.id == id {
          return Some(ref);
        }
      }
      return None;
    }

    method LoadLatestLeaseGrant(task: TaskRef) returns (r: Option<GrantRecord>)
      requires forall key | key in state.grants :: state.grants[key].Key() == key
      ensures r.Some? ==> r.value.Key() in state.grants && state.grants[r.value.Key()] == r.value && r.value.grant.task == task
      ensures r.Some? ==> forall key | key in state.grants && key.task == task :: key.fence <= r.value.grant.fence
      ensures r.None? ==> forall key | key in state.grants :: key.task != task
    {
      r := None;
      var rest := state.grants.Keys;
      while rest != {}
        invariant rest <= state.grants.Keys
        invariant r.Some? ==> r.value.Key() in state.grants && state.grants[r.value.Key()] == r.value && r.value.grant.task == task
        invariant r.Some? ==> forall key | key in state.grants && key !in rest && key.task == task :: key.fence <= r.value.grant.fence
        invariant r.None? ==> forall key | key in state.grants && key !in rest :: key.task != task
      {
        var key :| key in rest;
        rest := rest - {key};
        if key.task == task && (r.None? || key.fence > r.value.grant.fence) {
          r := Some(state.grants[key]);
        }
      }
    }

    /** Lists the unleased open Tasks of an authority oldest first and takes the head. */
    method FindClaimableTask(authority: Id) returns (r: Option<TaskRecord>)
      requires forall ref | ref in state.tasks :: state.tasks[ref].task.ref == ref
      ensures r.Some? ==> OldestClaimable(state.tasks, authority, r.value.task.ref) && r.value == state.tasks[r.value.task.ref]
      ensures r.Some? ==> forall other | Claimable(state.tasks, authority, other) && other != r.value.task.ref ::
                            Precedes(r.value.task, state.tasks[other].task)
      ensures r.None? ==> !exists ref :: Claimable(state.tasks, authority, ref)
    {
      var list: seq<TaskRecord> := [];
      ghost var found: set<TaskRecord> := {};
      var rest := state.tasks.Keys;
      while rest != {}
        invariant rest <= state.tasks.Keys
        invariant forall x | x in found :: x.task.ref in state.tasks && x.task.ref !in rest && x == state.tasks[x.task.ref]
        invariant forall x | x in found :: Claimable(state.tasks, authority, x.task.ref)
        invariant forall ref | Claimable(state.tasks, authority, ref) && ref !in rest :: state.tasks[ref] in found
        invariant Lists(RecordLess, found, list)
      {
        var ref :| ref in rest;
        var record := state.tasks[ref];
        if ref.workspace.authority == authority && record.lease.owner == "" && !record.task.state.Terminal() {
          CreatedOrders(state.tasks, authority, found + {record});
          list := Insert(RecordLess, record, list, found);
          found := found + {record};
        }
        rest := rest - {ref};
      }
      if list == [] {
        assert forall x | x in found :: x in list;
        return None;
      }
      assert list[0] in found;
      forall other | Claimable(state.tasks, authority, other) && other != list[0].task.ref
        ensures CreatedLess(list[0].task, state.tasks[other].task) && Precedes(list[0].task, state.tasks[other].task)
      {
        CreatedLessMeans(list[0].task, state.tasks[other].task);
        assert state.tasks[other] in list;
      }
      return Some(list[0]);
    }

    // ---- Writes

    method InsertCommand(record: CommandRecord) returns (ok: bool)
      modifies this
      ensures ok == (CommandKey(record.authority, record.id) !in old(state).commands)
      ensures state == if ok then old(state).(commands := old(state).commands[CommandKey(record.authority, record.id) := record])
                       else old(state)
      ensures state == T.After(old(state), T.AddCommand(record))
    {
      hide T.After;
      T.AfterIs(state, T.AddCommand(record));
      var key := CommandKey(record.authority, record.id);
      if key in state.commands {
        return false;
      }
      state := state.(commands := state.commands[key := record]);
      return true;
    }

    method InsertTask(record: TaskRecord) returns (ok: bool)
      modifies this
      ensures ok == !PublicIdTaken(old(state).tasks, record.task.ref)
      ensures state == if ok then old(state).(tasks := old(state).tasks[record.task.ref := record]) else old(state)
      ensures state == T.After(old(state), T.AddTask(record))
    {
      hide T.After;
      T.AfterIs(state, T.AddTask(record));
      var taken := ResolveTask(record.task.ref.workspace.authority, record.task.ref.id);
      if record.task.ref in state.tasks || taken.Some? {
        return false;
      }
      state := state.(tasks := state.tasks[record.task.ref := record]);
      return true;
    }

    /** Replaces a Task row if its revision, and its lease when one is named, are as
    expected; identity, context and creation time cannot change. */
    method CompareAndSwapTask(ref: TaskRef, condition: TaskCondition, next: TaskRecord) returns (r: Result<bool>)
      modifies this
      ensures r.Ok? ==> ref in old(state).tasks && r.value == ConditionHolds(condition, old(state).tasks[ref])
      ensures r == Err(NotFound) <==> ref !in old(state).tasks
      ensures r.Err? && ref in old(state).tasks ==>
                r == Err(InvalidArgument)
                && (next.task.ref != ref || condition.expectedRevision == 0
                    || next.task.context != old(state).tasks[ref].task.context
                    || next.task.createdAt != old(state).tasks[ref].task.createdAt)
      ensures r == Ok(true) ==>
                && next.task.ref == ref && next.task.context == old(state).tasks[ref].task.context
                && next.task.createdAt == old(state).tasks[ref].task.createdAt
                && state == old(state).(tasks := old(state).tasks[ref := next])
      ensures r != Ok(true) ==> state == old(state)
      ensures state == T.After(old(state), T.SwapTask(ref, condition, next))
    {
      hide T.After;
      T.AfterIs(state, T.SwapTask(ref, condition, next));
      if ref !in state.tasks {
        return Err(NotFound);
      }
      if ref != next.task.ref || condition.expectedRevision == 0 {
        return Err(InvalidArgument);
      }
      var current := state.tasks[ref];
      if !ConditionHolds(condition, current) {
        return Ok(false);
      }
      if current.task.context != next.task.context || current.task.createdAt != next.task.createdAt {
        return Err(InvalidArgument);
      }
      state := state.(tasks := state.tasks[ref := next]);
      return Ok(true);
    }

    method InsertMessage(m: MessageRecord) returns (ok: bool)
      modifies this
      ensures ok == !MessageTaken(old(state).messages, m)
      ensures state == if ok then old(state).(messages := old(state).messages[m.Key() := m]) else old(state)
      ensures state == T.After(old(state), T.AddMessage(m))
    {
      hide T.After;
      T.AfterIs(state, T.AddMessage(m));
      if m.Key() in state.messages {
        return false;
      }
      var rest := state.messages.Keys;
      while rest != {}
        invariant rest <= state.messages.Keys
        invariant forall key | key in state.messages && key !in rest ::
                    !(state.messages[key].task == m.task && state.messages[key].sequence == m.sequence)
        invariant state == old(state)
      {
        var key :| key in rest;
        rest := rest - {key};
        if state.messages[key].task == m.task && state.messages[key].sequence == m.sequence {
          return false;
        }
      }
      state := state.(messages := state.messages[m.Key() := m]);
      return true;
    }

    method InsertEvent(e: Event) returns (ok: bool)
      modifies this
      ensures ok == !(e.task in old(state).events && e.sequence in old(state).events[e.task])
      ensures ok ==> state == old(state).(events := old(state).events[e.task := LogAfter(old(state).events, e)])
      ensures state == T.After(old(state), T.AddEvent(e))
    {
      hide T.After;
      T.AfterIs(state, T.AddEvent(e));
      if e.task !in state.events {
        state := state.(events := state.events[e.task := map[]]);
      }
      if e.sequence in state.events[e.task] {
        return false;
      }
      var log: Log := state.events[e.task];
      log := log[e.sequence := e];
      state := state.(events := state.events[e.task := log]);
      return true;
    }

    method InsertLeaseGrant(g: GrantRecord) returns (ok: bool)
      modifies this
      ensures ok == (g.Key() !in old(state).grants)
      ensures state == if ok then old(state).(grants := old(state).grants[g.Key() := g]) else old(state)
      ensures state == T.After(old(state), T.AddGrant(g))
    {
      hide T.After;
      T.AfterIs(state, T.AddGrant(g));
      if g.Key() in state.grants {
        return false;
      }
      state := state.(grants := state.grants[g.Key() := g]);
      return true;
    }

    method InsertArtifact(record: ArtifactRecord) returns (ok: bool)
      modifies this
      requires forall ref | ref in state.artifacts :: state.artifacts[ref].artifact.ref == ref
      ensures ok == !ArtifactTaken(old(state).artifacts, record.artifact)
      ensures state == if ok then old(state).(artifacts := old(state).artifacts[record.artifact.ref := record]) else old(state)
      ensures state == T.After(old(state), T.AddArtifact(record))
    {
      hide T.After;
      T.AfterIs(state, T.AddArtifact(record));
      if record.artifact.ref in state.artifacts {
        assert ArtifactTaken(state.artifacts, record.artifact);
        return false;
      }
      var rest := state.artifacts.Keys;
      while rest != {}
        invariant rest <= state.artifacts.Keys
        invariant forall ref | ref in state.artifacts && ref !in rest ::
                    !(state.artifacts[ref].artifact.ref.workspace.authority == record.artifact.ref.workspace.authority
                      && state.artifacts[ref].artifact.ref.id == record.artifact.ref.id)
                    && state.artifacts[ref].artifact.task != record.artifact.task
        invariant state == old(state)
      {
        var ref :| ref in rest;
        rest := rest - {ref};
        var existing := state.artifacts[ref].artifact;
        if (existing.ref.workspace.authority == record.artifact.ref.workspace.authority
            && existing.ref.id == record.artifact.ref.id) || existing.task == record.artifact.task {
          assert ArtifactTaken(state.artifacts, record.artifact);
          return false;
        }
      }
      state := state.(artifacts := state.artifacts[record.artifact.ref := record]);
      return true;
    }

    /** Settles a frozen Artifact. */
    method CompareAndSwapArtifact(ref: ArtifactRef, task: TaskRef, expected: ArtifactState, next: ArtifactState,
                                  publishedAt: Option<Time>, discardedAt: Option<Time>) returns (r: Result<bool>)
      modifies this
      ensures r == Err(InvalidArgument) <==> task.workspace != ref.workspace
      ensures r.Err? ==> r == Err(InvalidArgument)
      ensures r.Ok? ==> r.value == (ref in old(state).artifacts && old(state).artifacts[ref].artifact.task == task
                                    && old(state).artifacts[ref].artifact.state == expected)
      ensures r == Ok(true) ==>
                var row := old(state).artifacts[ref];
                state == old(state).(artifacts := old(state).artifacts[
                  ref := row.(artifact := row.artifact.(state := next, publishedAt := publishedAt, discardedAt := discardedAt))])
      ensures r != Ok(true) ==> state == old(state)
      ensures state == T.After(old(state), T.SettleArtifact(ref, task, expected, T.Settlement(next, publishedAt, discardedAt)))
    {
      hide T.After;
      T.AfterIs(state, T.SettleArtifact(ref, task, expected, T.Settlement(next, publishedAt, discardedAt)));
      if task.workspace != ref.workspace {
        return Err(InvalidArgument);
      }
      if ref !in state.artifacts || state.artifacts[ref].artifact.task != task || state.artifacts[ref].artifact.state != expected {
        return Ok(false);
      }
      var current := state.artifacts[ref];
      var settled := current.artifact.(state := next, publishedAt := publishedAt, discardedAt := discardedAt);
      state := state.(artifacts := state.artifacts[ref := current.(artifact := settled)]);
      return Ok(true);
    }

    method InsertSubmission(b: Submission) returns (ok: bool)
      modifies this
      ensures ok == !SubmissionTaken(old(state).submissions, b)
      ensures state == if ok then old(state).(submissions := old(state).submissions[b.task := b]) else old(state)
      ensures state == T.After(old(state), T.AddSubmission(b))
    {
      hide T.After;
      T.AfterIs(state, T.AddSubmission(b));
      if b.task in state.submissions {
        return false;
      }
      var rest := state.submissions.Keys;
      while rest != {}
        invariant rest <= state.submissions.Keys
        invariant forall t | t in state.submissions && t !in rest ::
                    !(state.submissions[t].task.workspace.authority == b.task.workspace.authority
                      && state.submissions[t].id == b.id)
        invariant state == old(state)
      {
        var t :| t in rest;
        rest := rest - {t};
        if state.submissions[t].task.workspace.authority == b.task.workspace.authority && state.submissions[t].id == b.id {
          return false;
        }
      }
      state := state.(submissions := state.submissions[b.task := b]);
      return true;
    }

    method InsertWorkspaceHead(head: WorkspaceHead) returns (inserted: bool)
      modifies this
      ensures inserted == (head.workspace !in old(state).heads)
      ensures state == if inserted then old(state).(heads := old(state).heads[head.workspace := head]) else old(state)
      ensures state == T.After(old(state), T.AddHead(head))
    {
      hide T.After;
      T.AfterIs(state, T.AddHead(head));
      if head.workspace in state.heads {
        return false;
      }
      state := state.(heads := state.heads[head.workspace := head]);
      return true;
    }

    method CompareAndSwapWorkspaceHead(expected: Revision, next: WorkspaceHead) returns (swapped: bool)
      modifies this
      ensures swapped == (next.workspace in old(state).heads && old(state).heads[next.workspace].confirmedRevision == expected)
      ensures state == if swapped then old(state).(heads := old(state).heads[next.workspace := next]) else old(state)
      ensures state == T.After(old(state), T.SwapHead(expected, next))
    {
      hide T.After;
      T.AfterIs(state, T.SwapHead(expected, next));
      if next.workspace !in state.heads || state.heads[next.workspace].confirmedRevision != expected {
        return false;
      }
      state := state.(heads := state.heads[next.workspace := next]);
      return true;
    }

    method InsertApplyReceipt(r: ApplyReceipt) returns (ok: bool)
      modifies this
      ensures ok == !ReceiptTaken(old(state).receipts, r)
      ensures state == if ok then old(state).(receipts := old(state).receipts[r.artifact := r]) else old(state)
      ensures state == T.After(old(state), T.AddReceipt(r))
    {
      hide T.After;
      T.AfterIs(state, T.AddReceipt(r));
      if r.artifact in state.receipts {
        return false;
      }
      var rest := state.receipts.Keys;
      while rest != {}
        invariant rest <= state.receipts.Keys
        invariant forall a | a in state.receipts && a !in rest ::
                    !(state.receipts[a].artifact.workspace.authority == r.artifact.workspace.authority
                      && state.receipts[a].id == r.id)
        invariant state == old(state)
      {
        var a :| a in rest;
        rest := rest - {a};
        if state.receipts[a].artifact.workspace.authority == r.artifact.workspace.authority && state.receipts[a].id == r.id {
          return false;
        }
      }
      state := state.(receipts := state.receipts[r.artifact := r]);
      return true;
    }
  }

  predicate RecordLess(a: TaskRecord, b: TaskRecord) {
    CreatedLess(a.task, b.task)
  }

  /** Oldest-first is a total order on the Tasks of one authority. */
  lemma {:induction false} CreatedOrders(tasks: map<TaskRef, TaskRecord>, authority: Id, s: set<TaskRecord>)
    requires forall x | x in s :: x.task.ref in tasks && x == tasks[x.task.ref] && x.task.ref.workspace.authority == authority
    ensures Orders(RecordLess, s)
  {
    forall a, b | a in s && b in s
      ensures !(RecordLess(a, b) && RecordLess(b, a))
      ensures a != b ==> RecordLess(a, b) || RecordLess(b, a)
    {
      CreatedLessTotal(a.task, b.task);
    }
    forall a, b, c | a in s && b in s && c in s && RecordLess(a, b) && RecordLess(b, c)
      ensures RecordLess(a, c)
    {
      CreatedLessTransitive(a.task, b.task, c.task);
    }
  }

  /** The store image behind all Updates, with the two one-shot ambiguous faults. */
  class AgentStore {
    var state: StoreState
    var lost: bool
    var unacknowledged: bool

    constructor ()
      ensures state == EMPTY && !lost && !unacknowledged
    {
      state := EMPTY;
      lost, unacknowledged := false, false;
    }

    /** Opens an Update on a copy of the image, unless the connection dies first. */
    method Begin() returns (tx: Option<Unit>)
      modifies this`lost
      ensures !lost
      ensures tx.None? <==> old(lost)
      ensures tx.Some? ==> fresh(tx.value) && tx.value.state == state
    {
      if lost {
        lost := false;
        return None;
      }
      var unit := new Unit(state);
      return Some(unit);
    }

    /** Closes an Update: nothing is kept of a failed callback, everything of a
    successful one, whether or not the caller learns of it. */
    method End<A>(tx: Unit, answer: Result<A>) returns (r: Result<A>)
      modifies this`state, this`unacknowledged
      ensures answer.Err? ==> state == old(state) && r == answer && unacknowledged == old(unacknowledged)
      ensures answer.Ok? ==> state == tx.state && !unacknowledged
      ensures answer.Ok? ==> r == if old(unacknowledged) then Err(StoreCommitUnknown) else answer
    {
      if answer.Err? {
        return answer;
      }
      state := tx.state;
      if unacknowledged {
        unacknowledged := false;
        return Err(StoreCommitUnknown);
      }
      return answer;
    }
  }
}
