/** The confirmed head of a Workspace moves along one linear chain. */
module Workspace {
  import opened Types
  import opened Validators
  import opened Store
  import opened Commands
  import opened Invariant
  import opened Tables
  import opened Growth
  import opened Commit
  import opened Runs

  /** The command commits a first, successful apply receipt in Workspace `w`. */
  ghost predicate AdvancesHead(s: StoreState, a: Action, w: WorkspaceRef) {
    && Commits(s, a.command, a.env) && a.command.RecordApplyReceipt?
    && a.command.decision == ApplySuccess && a.command.artifactRef !in s.receipts
    && a.command.artifactRef.workspace == w
  }

  /** What an advancing command does to the store it finds. */
  lemma {:induction false} AdvanceStep(s: StoreState, a: Action, w: WorkspaceRef)
    requires Inv(s) && AdvancesHead(s, a, w)
    ensures var s' := Execute(s, a.command, a.env).state;
            var ref := a.command.artifactRef;
            && ref in s'.receipts && s'.receipts[ref].artifact == ref && s'.receipts[ref].decision == ApplySuccess
            && w in s.heads && s.heads[w].confirmedRevision == s'.receipts[ref].baseRevision
            && w in s'.heads && s'.heads[w].confirmedRevision == s'.receipts[ref].resultRevision
            && s'.receipts == s.receipts[ref := s'.receipts[ref]]
  {
    hide TasksOk, PublicIdsUnique, LogsOk, MessagesOk, LinksOk, GrantsOk, SubmissionsOk, HeadsOk, ReceiptsOk, CommandsOk, EffectsOk;
    hide ValidCommand, KeyOf, ReceiptTaken;
    hide ArtifactsOk;
    PublishedRef(s, a.command.artifactRef);
  }

  /** Nothing else moves a head or records a success. */
  lemma {:induction false} OtherStep(s: StoreState, a: Action, w: WorkspaceRef)
    requires Inv(s) && !AdvancesHead(s, a, w)
    ensures var s' := Execute(s, a.command, a.env).state;
            && (w in s.heads ==> w in s'.heads && s'.heads[w] == s.heads[w])
            && (forall ref | ref in s'.receipts && ref !in s.receipts ::
                  s'.receipts[ref].decision == ApplySuccess ==> ref.workspace != w)
  {
    hide Inv, ValidCommand, KeyOf, Refusal, Decide, Apply, Execute;
    var c := a.command;
    if !Commits(s, c, a.env) {
      RefusedKeepsState(s, a);
    } else if c.RecordApplyReceipt? {
      OtherReceiptStep(s, a, w);
    } else {
      OtherTables(s, c, a.env);
    }
  }

  lemma {:induction false} OtherReceiptStep(s: StoreState, a: Action, w: WorkspaceRef)
    requires Inv(s) && Commits(s, a.command, a.env) && a.command.RecordApplyReceipt? && !AdvancesHead(s, a, w)
    ensures var s' := Execute(s, a.command, a.env).state;
            && (w in s.heads ==> w in s'.heads && s'.heads[w] == s.heads[w])
            && (forall ref | ref in s'.receipts && ref !in s.receipts ::
                  s'.receipts[ref].decision == ApplySuccess ==> ref.workspace != w)
  {
    hide TasksOk, PublicIdsUnique, LogsOk, MessagesOk, LinksOk, GrantsOk, SubmissionsOk, HeadsOk, ReceiptsOk, CommandsOk, EffectsOk;
    hide ValidCommand, KeyOf, ReceiptTaken, ArtifactRowOk, ArtifactsOk;
    PublishedRef(s, a.command.artifactRef);
  }

  lemma {:induction false} PublishedRef(s: StoreState, ref: ArtifactRef)
    requires ArtifactsOk(s.tasks, s.artifacts, s.heads) && ref in s.artifacts
    ensures s.artifacts[ref].artifact.ref == ref
  {
    assert ArtifactRowOk(s.tasks, s.heads, ref, s.artifacts[ref]);
  }

  lemma {:induction false} OtherTables(s: StoreState, c: Command, env: Env)
    requires Commits(s, c, env) && !c.RecordApplyReceipt?
    ensures var s' := Execute(s, c, env).state;
            && s'.receipts == s.receipts
            && (if c.FreezeArtifact? && c.task.workspace !in s.heads
                then s'.heads == s.heads[c.task.workspace := s'.heads[c.task.workspace]]
                     && s'.heads[c.task.workspace].confirmedRevision == c.expectedBase
                     && ArtifactRef(c.task.workspace, c.artifactId) in s'.artifacts
                     && s'.artifacts[ArtifactRef(c.task.workspace, c.artifactId)].artifact.baseRevision == c.expectedBase
                else s'.heads == s.heads)
  {
    hide ValidCommand, KeyOf, ReceiptTaken, ArtifactTaken, SubmissionTaken;
  }

  /** The receipts that advanced Workspace `w`, in commit order. */
  ghost function Successes(s: StoreState, actions: seq<Action>, w: WorkspaceRef): seq<ApplyReceipt>
    requires Inv(s)
    decreases |actions|
  {
    if actions == [] then []
    else
      var next := Execute(s, actions[0].command, actions[0].env).state;
      ExecuteKeeps(s, actions[0].command, actions[0].env);
      if AdvancesHead(s, actions[0], w)
      then AdvanceStep(s, actions[0], w);
           [next.receipts[actions[0].command.artifactRef]] + Successes(next, actions[1..], w)
      else Successes(next, actions[1..], w)
  }

  /** Each receipt starts where the one before it ended. */
  predicate IsPath(start: Revision, path: seq<ApplyReceipt>, end: Revision)
    decreases |path|
  {
    if path == [] then start == end
    else path[0].baseRevision == start && IsPath(path[0].resultRevision, path[1..], end)
  }

  lemma {:induction false} HeadFollowsPath(s: StoreState, actions: seq<Action>, w: WorkspaceRef)
    requires Inv(s) && w in s.heads
    ensures w in Run(s, actions).heads
    ensures IsPath(s.heads[w].confirmedRevision, Successes(s, actions, w), Run(s, actions).heads[w].confirmedRevision)
    decreases |actions|
  {
    hide Inv, Execute, Commits;
    if actions != [] {
      var a := actions[0];
      var next := Execute(s, a.command, a.env).state;
      ExecuteKeeps(s, a.command, a.env);
      if AdvancesHead(s, a, w) {
        AdvanceStep(s, a, w);
        HeadFollowsPath(next, actions[1..], w);
        var r := next.receipts[a.command.artifactRef];
        assert ([r] + Successes(next, actions[1..], w))[1..] == Successes(next, actions[1..], w);
      } else {
        OtherStep(s, a, w);
        HeadFollowsPath(next, actions[1..], w);
      }
    }
  }

  /** The command freezes an Artifact in Workspace `w`. */
  ghost predicate Freezes(s: StoreState, a: Action, w: WorkspaceRef) {
    Commits(s, a.command, a.env) && a.command.FreezeArtifact? && a.command.task.workspace == w
  }

  /** Where the chain of a Workspace begins: the base of its first frozen Artifact. */
  ghost function FirstBase(s: StoreState, actions: seq<Action>, w: WorkspaceRef): Option<Revision>
    decreases |actions|
  {
    if actions == [] then None
    else if Freezes(s, actions[0], w) then Some(actions[0].command.expectedBase)
    else FirstBase(Execute(s, actions[0].command, actions[0].env).state, actions[1..], w)
  }

  /** A Workspace gets its head with its first freeze, at the base of that freeze, and
  in no other way. */
  lemma {:induction false} FirstHead(s: StoreState, a: Action, w: WorkspaceRef)
    requires Inv(s) && w !in s.heads
    ensures !AdvancesHead(s, a, w)
    ensures var s' := Execute(s, a.command, a.env).state;
            && (w in s'.heads <==> Freezes(s, a, w))
            && (Freezes(s, a, w) ==> s'.heads[w].confirmedRevision == a.command.expectedBase)
  {
    if AdvancesHead(s, a, w) {
      AdvanceStep(s, a, w);
    }
    hide Inv, Execute, Refusal, ValidCommand, KeyOf;
    if Commits(s, a.command, a.env) {
      if a.command.RecordApplyReceipt? {
        OtherReceiptHeads(s, a, w);
      } else {
        OtherTables(s, a.command, a.env);
      }
    } else {
      RefusedKeepsState(s, a);
    }
  }

  lemma {:induction false} OtherReceiptHeads(s: StoreState, a: Action, w: WorkspaceRef)
    requires Inv(s) && w !in s.heads && Commits(s, a.command, a.env) && a.command.RecordApplyReceipt?
    ensures w !in Execute(s, a.command, a.env).state.heads
  {
    hide TasksOk, PublicIdsUnique, LogsOk, MessagesOk, LinksOk, GrantsOk, SubmissionsOk, HeadsOk, ReceiptsOk, CommandsOk, EffectsOk;
    hide ValidCommand, KeyOf, ReceiptTaken;
    hide ArtifactsOk;
    PublishedRef(s, a.command.artifactRef);
  }

  lemma {:induction false} RefusedKeepsState(s: StoreState, a: Action)
    requires !Commits(s, a.command, a.env)
    ensures Execute(s, a.command, a.env).state == s
  {}

  /** A Workspace without a head gets one exactly when an Artifact is frozen in it, and
  then its successful receipts in commit order form one path from the base of the
  first frozen Artifact to its head. */
  lemma {:induction false} HeadIsLinear(s: StoreState, actions: seq<Action>, w: WorkspaceRef)
    requires Inv(s) && w !in s.heads
    ensures var end := Run(s, actions);
            var base := FirstBase(s, actions, w);
            && (w in end.heads <==> base.Some?)
            && (if base.Some? then IsPath(base.value, Successes(s, actions, w), end.heads[w].confirmedRevision)
                else Successes(s, actions, w) == [])
    decreases |actions|
  {
    hide Inv, Execute, AdvancesHead, Freezes;
    if actions != [] {
      var a := actions[0];
      var next := Execute(s, a.command, a.env).state;
      ExecuteKeeps(s, a.command, a.env);
      FirstHead(s, a, w);
      if w in next.heads {
        HeadFollowsPath(next, actions[1..], w);
      } else {
        HeadIsLinear(next, actions[1..], w);
      }
    }
  }

  /** `path` holds every success recorded between two stores, once each. */
  ghost predicate PathOf(s: StoreState, path: seq<ApplyReceipt>, w: WorkspaceRef, end: StoreState) {
    && (forall i | 0 <= i < |path| ::
          && path[i].decision == ApplySuccess && path[i].artifact.workspace == w
          && path[i].artifact !in s.receipts
          && path[i].artifact in end.receipts && end.receipts[path[i].artifact] == path[i])
    && (forall i, j | 0 <= i < j < |path| :: path[i].artifact != path[j].artifact)
    && (forall ref | ref in end.receipts && ref !in s.receipts && ref.workspace == w
                     && end.receipts[ref].decision == ApplySuccess :: end.receipts[ref] in path)
  }

  lemma {:induction false} PathExtends(s: StoreState, next: StoreState, r: ApplyReceipt, rest: seq<ApplyReceipt>, w: WorkspaceRef, end: StoreState)
    requires PathOf(next, rest, w, end) && Extends(next.receipts, end.receipts)
    requires next.receipts == s.receipts[r.artifact := r] && r.artifact !in s.receipts
    requires r.decision == ApplySuccess && r.artifact.workspace == w
    ensures PathOf(s, [r] + rest, w, end)
  {
    var path := [r] + rest;
    assert forall i | 1 <= i < |path| :: path[i] == rest[i - 1];
    assert path[0] == r;
    forall ref | ref in end.receipts && ref !in s.receipts && ref.workspace == w && end.receipts[ref].decision == ApplySuccess
      ensures end.receipts[ref] in path
    {
      if ref in next.receipts {
        assert end.receipts[ref] == path[0];
      } else {
        assert end.receipts[ref] in rest;
      }
    }
  }

  /** The path holds every success of the run, once each. */
  lemma {:induction false} PathIsExact(s: StoreState, actions: seq<Action>, w: WorkspaceRef)
    requires Inv(s)
    ensures PathOf(s, Successes(s, actions, w), w, Run(s, actions))
    decreases |actions|
  {
    hide Inv, Execute, Commits, TasksGrow, LogsGrow, ArtifactsGrow, HeadsGrow;
    if actions != [] {
      var a := actions[0];
      var next := Execute(s, a.command, a.env).state;
      ExecuteKeeps(s, a.command, a.env);
      RunKeeps(next, actions[1..]);
      PathIsExact(next, actions[1..], w);
      if AdvancesHead(s, a, w) {
        AdvanceStep(s, a, w);
        var rest := Successes(next, actions[1..], w);
        PathExtends(s, next, next.receipts[a.command.artifactRef], rest, w, Run(next, actions[1..]));
      } else {
        OtherStep(s, a, w);
        assert Successes(s, actions, w) == Successes(next, actions[1..], w);
      }
    }
  }

  // ---- No fork

  function Depth(r: Revision): nat {
    if r.NextRevision? then 1 + Depth(r.base) else 0
  }

  lemma {:induction false} OnChainDepth(r: Revision, head: Revision)
    requires OnChain(r, head)
    ensures Depth(r) <= Depth(head) && (Depth(r) == Depth(head) ==> r == head)
  {
    if r != head {
      OnChainDepth(r, head.base);
    }
  }

  lemma {:induction false} OneRevisionPerDepth(a: Revision, b: Revision, head: Revision)
    requires OnChain(a, head) && OnChain(b, head) && Depth(a) == Depth(b)
    ensures a == b
  {
    OnChainDepth(a, head);
    OnChainDepth(b, head);
    if a != head && b != head {
      OneRevisionPerDepth(a, b, head.base);
    }
  }

  /** Two Artifacts frozen on the same base are never both applied. */
  lemma {:induction false} NoFork(s: StoreState, a: ArtifactRef, b: ArtifactRef)
    requires Reachable(s) && a in s.receipts && b in s.receipts && a.workspace == b.workspace
    requires s.receipts[a].decision == ApplySuccess && s.receipts[b].decision == ApplySuccess
    requires s.receipts[a].baseRevision == s.receipts[b].baseRevision
    ensures a == b
  {
    hide Reachable, TasksOk, PublicIdsUnique, LogsOk, MessagesOk, LinksOk, GrantsOk, SubmissionsOk, HeadsOk, CommandsOk, EffectsOk, OnChain;
    ReachableInv(s);
    assert ReceiptRowOk(s.artifacts, s.heads, a, s.receipts[a]) && ReceiptRowOk(s.artifacts, s.heads, b, s.receipts[b]);
    assert ArtifactRowOk(s.tasks, s.heads, a, s.artifacts[a]) && ArtifactRowOk(s.tasks, s.heads, b, s.artifacts[b]);
    OneRevisionPerDepth(s.receipts[a].resultRevision, s.receipts[b].resultRevision, s.heads[a.workspace].confirmedRevision);
  }
}
