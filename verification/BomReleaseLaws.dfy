/** What the BOM workflow keeps over every run of its operations. */
module BomReleaseLaws {
  import opened Wrappers
  import opened BomExplosion
  import opened BomExplosionLaws
  import opened BomRelease

  // ---------------------------------------------------------------- acyclic indexes

  /** A closed walk along the lines of the indexed BOMs. */
  ghost predicate Cycle(index: Lookup, p: seq<Item>) {
    && |p| >= 2 && p[0] == p[|p| - 1]
    && forall i :: 0 <= i < |p| - 1 ==> ChildOf(index, p[i], p[i + 1])
  }

  ghost predicate Acyclic(index: Lookup) {
    forall p :: !Cycle(index, p)
  }

  /** The same cycle, entered at its j-th item. */
  function Rotate(p: seq<Item>, j: nat): seq<Item>
    requires j < |p| - 1
  {
    p[j..|p| - 1] + p[..j + 1]
  }

  lemma RotateCycle(index: Lookup, p: seq<Item>, j: nat)
    requires Cycle(index, p) && j < |p| - 1
    ensures Cycle(index, Rotate(p, j)) && Rotate(p, j)[0] == p[j]
  {
  }

  lemma CycleItemsAreAssemblies(index: Lookup, p: seq<Item>)
    requires Cycle(index, p)
    ensures AssemblyPath(index, p) && !WithinLimits(p)
  {
    forall i | 0 <= i < |p|
      ensures Expandable(index, p[i])
    {
      if i < |p| - 1 {
        assert ChildOf(index, p[i], p[i + 1]);
      } else {
        assert ChildOf(index, p[0], p[1]);
      }
    }
  }

  /** A cycle through the top item makes the explosion fail. */
  lemma CycleThroughTopFails(index: Lookup, top: Item, p: seq<Item>, j: nat)
    requires Cycle(index, p) && j < |p| - 1 && p[j] == top
    ensures Explode(General, index, top).Failure?
  {
    RotateCycle(index, p, j);
    CycleItemsAreAssemblies(index, Rotate(p, j));
    ExplodeBomSucceedsIff(index, top);
  }

  /** A cycle that avoids the item whose BOM changes was there before. */
  lemma CycleElsewhereIsOld(index: Lookup, top: Item, bom: Bom, p: seq<Item>)
    requires Cycle(index[top := bom], p) && forall j :: 0 <= j < |p| - 1 ==> p[j] != top
    ensures Cycle(index, p)
  {
  }

  /**
   Exploding from the one item whose BOM changes is enough: if that succeeds, the whole index
   stays acyclic.
   */
  lemma GateKeepsAcyclic(index: Lookup, top: Item, bom: Bom)
    requires Acyclic(index)
    requires Explode(General, index[top := bom], top).Success?
    ensures Acyclic(index[top := bom])
  {
    var next := index[top := bom];
    forall p
      ensures !Cycle(next, p)
    {
      if Cycle(next, p) {
        if j: nat :| j < |p| - 1 && p[j] == top {
          CycleThroughTopFails(next, top, p, j);
        } else {
          CycleElsewhereIsOld(index, top, bom, p);
        }
      }
    }
  }

  /** A cycle error means that the index has a cycle. */
  lemma CycleErrorHasCycle(mode: Mode, index: Lookup, top: Item)
    requires var r := Explode(mode, index, top); r.Failure? && r.error.CycleError?
    ensures exists p :: Cycle(index, p)
  {
    ExplosionErrorsAreGenuine(mode, index, top);
    var path := Explode(mode, index, top).error.path;
    var n := |path| - 1;
    var i :| 0 <= i < n && path[..n][i] == path[n];
    forall k | 0 <= k < |path[i..]| - 1
      ensures ChildOf(index, path[i..][k], path[i..][k + 1])
    {
      assert Link(mode, index, path[i + k], path[i + k + 1]);
    }
    assert Cycle(index, path[i..]);
  }

  /** Over an acyclic index neither explosion reports a cycle, whatever item it starts from. */
  lemma AcyclicNeverReportsCycle(mode: Mode, index: Lookup, top: Item)
    requires Acyclic(index)
    ensures var r := Explode(mode, index, top);
      r.Failure? ==> r.error.DepthError?
  {
    var r := Explode(mode, index, top);
    if r.Failure? && r.error.CycleError? {
      CycleErrorHasCycle(mode, index, top);
    }
  }

  // ---------------------------------------------------------------- the invariant

  ghost predicate RowOk(row: BomRow) {
    && (forall k :: 0 <= k < |row.lines| ==> row.lines[k].itemId != row.itemId && row.lines[k].makeBuy.Some?)
    && (row.status.PendingApproval? || Live(row) ==> row.lines != [])
    && (Live(row) <==> row.approvedBy.Some?)
    && (Live(row) ==> row.approvedBy.value != row.createdBy)
  }

  /** The revision has been released at some time. */
  predicate Live(row: BomRow) {
    row.status.Released? || row.status.Obsolete?
  }

  ghost predicate UniqueRevisions(boms: seq<BomRow>) {
    forall i, j :: 0 <= i < j < |boms| && boms[i].itemId == boms[j].itemId ==> boms[i].revision != boms[j].revision
  }

  ghost predicate Inv(s: Store) {
    && (forall i :: 0 <= i < |s.boms| ==> RowOk(s.boms[i]))
    && UniqueRevisions(s.boms)
    && UniqueReleased(s.boms)
    && Acyclic(ReleasedIndex(s.boms))
  }

  /** Tables with the same released rows, in the same places, have the same index. */
  lemma SameReleased(before: seq<BomRow>, after: seq<BomRow>)
    requires UniqueReleased(before) && |before| <= |after|
    requires forall i :: 0 <= i < |before| && before[i].status.Released? ==> after[i] == before[i]
    requires forall i :: 0 <= i < |after| && after[i].status.Released? ==> i < |before| && before[i] == after[i]
    ensures UniqueReleased(after) && ReleasedIndex(after) == ReleasedIndex(before)
  {
  }

  /** Rewriting one unreleased row as another unreleased row of the same revision keeps the invariant. */
  lemma PutKeepsInv(s: Store, id: nat, row: BomRow, kind: EventKind, actor: User)
    requires Inv(s) && id < |s.boms| && !s.boms[id].status.Released? && !row.status.Released?
    requires RowOk(row) && row.itemId == s.boms[id].itemId && row.revision == s.boms[id].revision
    ensures Inv(Put(s, id, row, kind, actor))
  {
    SameReleased(s.boms, s.boms[id := row]);
  }

  lemma AppendKeepsInv(s: Store, row: BomRow, kind: EventKind)
    requires Inv(s) && RowOk(row) && !row.status.Released? && row.revision == LatestRevision(s.boms, row.itemId) + 1
    ensures Inv(Append(s, row, kind))
  {
    SameReleased(s.boms, s.boms + [row]);
  }

  /** Releasing a revision turns the released index into the very index the gate exploded. */
  lemma ReleaseTakesGateIndex(boms: seq<BomRow>, id: nat, user: User)
    requires UniqueReleased(boms) && id < |boms|
    ensures UniqueReleased(ReleaseRows(boms, id, user))
    ensures ReleasedIndex(ReleaseRows(boms, id, user)) == GateIndex(boms, id)
  {
    var next, gate := ReleaseRows(boms, id, user), GateIndex(boms, id);
    ReleasedIndexEntry(boms);
    hide ReleasedIndex;
    forall item | item in gate
      ensures exists i: nat :: ReleasedFor(next, i, item)
    {
      if item == boms[id].itemId {
        assert ReleasedFor(next, id, item);
      } else {
        var i: nat :| ReleasedFor(boms, i, item);
        assert ReleasedFor(next, i, item);
      }
    }
    ReleasedIndexIs(next, gate);
  }

  lemma ReleaseKeepsRowsOk(boms: seq<BomRow>, id: nat, user: User)
    requires id < |boms| && boms[id].status.PendingApproval? && boms[id].createdBy != user
    requires UniqueRevisions(boms) && forall i :: 0 <= i < |boms| ==> RowOk(boms[i])
    ensures UniqueRevisions(ReleaseRows(boms, id, user))
    ensures forall i :: 0 <= i < |boms| ==> RowOk(ReleaseRows(boms, id, user)[i])
  {
  }

  lemma ApproveKeepsInv(s: Store, id: nat, user: User)
    requires Inv(s) && Approve(s, id, user).Success?
    ensures Inv(Approve(s, id, user).value)
  {
    ReleaseKeepsRowsOk(s.boms, id, user);
    ReleaseTakesGateIndex(s.boms, id, user);
    hide ReleasedIndex, Acyclic, Explode, ReleaseRows, RowOk, UniqueRevisions;
    GateKeepsAcyclic(ReleasedIndex(s.boms), s.boms[id].itemId, BomOf(s.boms[id]));
  }

  lemma CreateKeepsInv(s: Store, item: Item, input: seq<LineInput>, user: User)
    requires Inv(s) && Create(s, item, input, user).Success?
    ensures Inv(Create(s, item, input, user).value)
  {
    AppendKeepsInv(s, BomRow(item, LatestRevision(s.boms, item) + 1, Draft, LinesOf(input), user, None), Created);
  }

  lemma NewRevisionKeepsInv(s: Store, id: nat, user: User)
    requires Inv(s) && NewRevision(s, id, user).Success?
    ensures Inv(NewRevision(s, id, user).value)
  {
    var source := s.boms[id];
    assert RowOk(source);
    AppendKeepsInv(s, BomRow(source.itemId, LatestRevision(s.boms, source.itemId) + 1, Draft, source.lines, user, None),
                   RevisionCreated);
  }

  lemma UpdateKeepsInv(s: Store, id: nat, edit: Option<seq<LineInput>>, user: User)
    requires Inv(s) && Update(s, id, edit, user).Success?
    ensures Inv(Update(s, id, edit, user).value)
  {
    var row := s.boms[id].(status := Draft);
    assert RowOk(s.boms[id]);
    PutKeepsInv(s, id, if edit.Some? then row.(lines := LinesOf(edit.value)) else row, Updated, user);
  }

  // ---------------------------------------------------------------- runs

  datatype Op =
    | CreateOp(item: Item, input: seq<LineInput>, user: User)
    | UpdateOp(id: nat, edit: Option<seq<LineInput>>, user: User)
    | SubmitOp(id: nat, user: User)
    | ApproveOp(id: nat, user: User)
    | RejectOp(id: nat, commented: bool, user: User)
    | NewRevisionOp(id: nat, user: User)

  function Apply(s: Store, op: Op): Result<Store, Error>
    requires UniqueReleased(s.boms)
  {
    match op
    case CreateOp(item, input, user) => Create(s, item, input, user)
    case UpdateOp(id, edit, user) => Update(s, id, edit, user)
    case SubmitOp(id, user) => Submit(s, id, user)
    case ApproveOp(id, user) => Approve(s, id, user)
    case RejectOp(id, commented, user) => Reject(s, id, commented, user)
    case NewRevisionOp(id, user) => NewRevision(s, id, user)
  }

  /** The store after one call, which changes nothing when it fails. */
  function Step(s: Store, op: Op): Store
    requires UniqueReleased(s.boms)
  {
    var r := Apply(s, op);
    if r.Success? then r.value else s
  }

  lemma StepKeepsInv(s: Store, op: Op)
    requires Inv(s)
    ensures Inv(Step(s, op))
  {
    if Apply(s, op).Success? {
      hide ReleasedIndex, Acyclic, Explode;
      match op
      case CreateOp(item, input, user) => CreateKeepsInv(s, item, input, user);
      case UpdateOp(id, edit, user) => UpdateKeepsInv(s, id, edit, user);
      case SubmitOp(id, user) =>
        PutKeepsInv(s, id, s.boms[id].(status := PendingApproval), Submitted, user);
      case ApproveOp(id, user) => ApproveKeepsInv(s, id, user);
      case RejectOp(id, commented, user) =>
        PutKeepsInv(s, id, s.boms[id].(status := Rejected), RejectedEvent, user);
      case NewRevisionOp(id, user) => NewRevisionKeepsInv(s, id, user);
    }
  }

  /** The store after a run of calls. */
  ghost function Run(s: Store, ops: seq<Op>): (after: Store)
    requires Inv(s)
    ensures Inv(after)
    decreases |ops|
  {
    if ops == [] then s
    else
      StepKeepsInv(s, ops[0]);
      Run(Step(s, ops[0]), ops[1..])
  }

  /** A revision that has been released keeps its item, number, lines, creator and approver. */
  ghost predicate Frozen(before: Store, after: Store) {
    && |before.boms| <= |after.boms|
    && forall i :: 0 <= i < |before.boms| && Live(before.boms[i]) ==>
      && after.boms[i] == before.boms[i].(status := after.boms[i].status)
      && Live(after.boms[i])
      && (before.boms[i].status.Obsolete? ==> after.boms[i].status.Obsolete?)
  }

  lemma StepFreezes(s: Store, op: Op)
    requires Inv(s)
    ensures Frozen(s, Step(s, op))
  {
  }

  lemma {:induction false} RunFreezes(s: Store, ops: seq<Op>)
    requires Inv(s)
    ensures Frozen(s, Run(s, ops))
    decreases |ops|
  {
    if ops != [] {
      var next := Step(s, ops[0]);
      StepKeepsInv(s, ops[0]);
      StepFreezes(s, ops[0]);
      RunFreezes(next, ops[1..]);
      FrozenTransitive(s, next, Run(next, ops[1..]));
    }
  }

  lemma FrozenTransitive(a: Store, b: Store, c: Store)
    requires Frozen(a, b) && Frozen(b, c)
    ensures Frozen(a, c)
  {
  }

  lemma EmptyStoreOk(items: map<Item, bool>)
    ensures Inv(Store(items, [], []))
  {
    forall p
      ensures !Cycle(ReleasedIndex([]), p)
    {
      if |p| >= 2 {
        assert !ChildOf(ReleasedIndex([]), p[0], p[1]);
      }
    }
  }

  /**
   Every run from an empty table: each item has at most one released BOM, no revision was
   approved by its creator, the graph of all released BOMs is acyclic, and so no explosion of
   either kind, from any item, can report a cycle.
   */
  lemma EveryRunIsSafe(items: map<Item, bool>, ops: seq<Op>)
    ensures Inv(Store(items, [], []))
    ensures var boms := Run(Store(items, [], []), ops).boms;
      && UniqueReleased(boms)
      && (forall i :: 0 <= i < |boms| && boms[i].status.Released? ==>
        boms[i].approvedBy.Some? && boms[i].approvedBy.value != boms[i].createdBy && boms[i].lines != [])
      && Acyclic(ReleasedIndex(boms))
      && forall mode, top :: var r := Explode(mode, ReleasedIndex(boms), top); r.Failure? ==> r.error.DepthError?
  {
    EmptyStoreOk(items);
    var boms := Run(Store(items, [], []), ops).boms;
    forall i | 0 <= i < |boms| && boms[i].status.Released?
      ensures boms[i].approvedBy.Some? && boms[i].approvedBy.value != boms[i].createdBy && boms[i].lines != []
    {
      assert RowOk(boms[i]);
    }
    forall mode, top
      ensures var r := Explode(mode, ReleasedIndex(boms), top); r.Failure? ==> r.error.DepthError?
    {
      AcyclicNeverReportsCycle(mode, ReleasedIndex(boms), top);
    }
  }
}
