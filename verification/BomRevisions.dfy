/** What each call of the BOM workflow does to the table of revisions, row by row. */
module BomRevisions {
  import opened Wrappers
  import opened BomExplosion
  import opened BomRelease
  import opened BomReleaseLaws
  import BomAncestors

  // ---------------------------------------------------------------- new rows

  /** The number is one above the highest of the item's rows, or 1 for its first. */
  ghost predicate NextNumber(boms: seq<BomRow>, item: Item, revision: nat) {
    && (forall i :: 0 <= i < |boms| && boms[i].itemId == item ==> boms[i].revision < revision)
    && (revision == 1 || exists i :: 0 <= i < |boms| && boms[i].itemId == item && boms[i].revision + 1 == revision)
  }

  lemma {:induction false} LatestAttained(boms: seq<BomRow>, item: Item)
    ensures var r := LatestRevision(boms, item);
      r == 0 || exists i :: 0 <= i < |boms| && boms[i].itemId == item && boms[i].revision == r
  {
    if boms != [] {
      var init, last := boms[..|boms| - 1], boms[|boms| - 1];
      LatestAttained(init, item);
      var r := LatestRevision(init, item);
      if r != 0 && r == LatestRevision(boms, item) {
        var i :| 0 <= i < |init| && init[i].itemId == item && init[i].revision == r;
        assert boms[i].itemId == item && boms[i].revision == r;
      }
    }
  }

  lemma NextIs(boms: seq<BomRow>, item: Item)
    ensures NextNumber(boms, item, LatestRevision(boms, item) + 1)
  {
    LatestAttained(boms, item);
  }

  /** The line as entered, without wastage and bought unless it says otherwise. */
  ghost predicate EnteredAs(line: Line, input: LineInput) {
    && line.itemId == input.itemId && line.quantityPerUnit == input.quantityPerUnit
    && line.unitOfMeasure == input.unitOfMeasure
    && (input.wastagePercent.Some? ==> line.wastagePercent == input.wastagePercent.value)
    && (input.wastagePercent.None? ==> line.wastagePercent == 0.0)
    && (input.makeBuy.Some? ==> line.makeBuy == input.makeBuy)
    && (input.makeBuy.None? ==> line.makeBuy == Some(Buy))
  }

  ghost predicate AllEntered(lines: seq<Line>, input: seq<LineInput>) {
    |lines| == |input| && forall k :: 0 <= k < |lines| ==> EnteredAs(lines[k], input[k])
  }

  /** Every line names an active item other than the one it goes into. */
  predicate Usable(items: map<Item, bool>, item: Item, input: seq<LineInput>) {
    forall k :: 0 <= k < |input| ==>
      input[k].itemId != item && input[k].itemId in items && items[input[k].itemId]
  }

  ghost predicate AddsDraft(s: Store, t: Store, item: Item, user: User) {
    && t.items == s.items && |t.boms| == |s.boms| + 1 && t.boms[..|s.boms|] == s.boms
    && var row := t.boms[|s.boms|];
    && row.itemId == item && row.status.Draft? && row.createdBy == user && row.approvedBy.None?
    && NextNumber(s.boms, item, row.revision)
  }

  /** A BOM is created exactly for a known item with usable lines, as a draft with those lines in order. */
  lemma CreateAdds(s: Store, item: Item, input: seq<LineInput>, user: User)
    requires UniqueReleased(s.boms)
    ensures var t := BomReleaseLaws.Step(s, CreateOp(item, input, user));
      if item in s.items && Usable(s.items, item, input) then
        AddsDraft(s, t, item, user) && AllEntered(t.boms[|s.boms|].lines, input)
      else t == s
  {
    NextIs(s.boms, item);
    hide LatestRevision, NextNumber, UniqueReleased;
  }

  /** A new revision is a draft of the same item with the same lines. */
  lemma NewRevisionAdds(s: Store, id: nat, user: User)
    requires UniqueReleased(s.boms)
    ensures var t := BomReleaseLaws.Step(s, NewRevisionOp(id, user));
      if id < |s.boms| then
        && AddsDraft(s, t, s.boms[id].itemId, user) && t.boms[|s.boms|].lines == s.boms[id].lines
        && exists i :: 0 <= i < |s.boms| && s.boms[i].itemId == s.boms[id].itemId
                       && s.boms[i].revision + 1 == t.boms[|s.boms|].revision
      else t == s
  {
    if id < |s.boms| {
      NextIs(s.boms, s.boms[id].itemId);
      LatestAttained(s.boms, s.boms[id].itemId);
    }
    hide LatestRevision, UniqueReleased;
  }

  // ---------------------------------------------------------------- rows that are there

  predicate InWork(row: BomRow) {
    row.status.Draft? || row.status.Rejected?
  }

  /** What the approval of row `id` explodes: the released BOMs of the other items, and its own. */
  ghost predicate ApprovalIndex(boms: seq<BomRow>, id: nat, index: Lookup)
    requires id < |boms|
  {
    && (forall item :: item in index <==>
          || item == boms[id].itemId
          || exists i :: 0 <= i < |boms| && boms[i].status.Released? && boms[i].itemId == item)
    && index[boms[id].itemId] == Bom(boms[id].itemId, boms[id].revision, boms[id].lines)
    && forall i :: 0 <= i < |boms| && boms[i].status.Released? && boms[i].itemId != boms[id].itemId ==>
         index[boms[i].itemId] == Bom(boms[i].itemId, boms[i].revision, boms[i].lines)
  }

  /** The approver is not the creator, and both explosions of the item succeed. */
  ghost predicate CanRelease(s: Store, id: nat, user: User) {
    && id < |s.boms| && s.boms[id].status.PendingApproval? && s.boms[id].createdBy != user
    && exists index :: ApprovalIndex(s.boms, id, index)
         && Explode(General, index, s.boms[id].itemId).Success?
         && Explode(Procurement, index, s.boms[id].itemId).Success?
  }

  /** How a call may change a row, and when it does. */
  ghost predicate RowChanges(s: Store, op: Op, i: nat, row: BomRow)
    requires i < |s.boms|
  {
    var was := s.boms[i];
    match op
    case UpdateOp(id, edit, _) =>
      && id == i && InWork(was) && (edit.Some? ==> Usable(s.items, was.itemId, edit.value))
      && row == was.(status := Draft, lines := row.lines)
      && (edit.None? ==> row.lines == was.lines) && (edit.Some? ==> AllEntered(row.lines, edit.value))
    case SubmitOp(id, _) => id == i && InWork(was) && was.lines != [] && row == was.(status := PendingApproval)
    case ApproveOp(id, user) =>
      && CanRelease(s, id, user)
      && ((id == i && row == was.(status := Released, approvedBy := Some(user)))
          || (id != i && was.status.Released? && was.itemId == s.boms[id].itemId && row == was.(status := Obsolete)))
    case RejectOp(id, commented, user) =>
      && id == i && commented && was.status.PendingApproval? && was.createdBy != user
      && row == was.(status := Rejected)
    case _ => false
  }

  ghost predicate RowAfter(s: Store, t: Store, op: Op, i: nat)
    requires i < |s.boms|
  {
    && i < |t.boms|
    && (RowChanges(s, op, i, t.boms[i]) || (t.boms[i] == s.boms[i] && forall row :: !RowChanges(s, op, i, row)))
  }

  lemma GateIsApprovalIndex(boms: seq<BomRow>, id: nat, index: Lookup)
    requires UniqueReleased(boms) && id < |boms|
    ensures ApprovalIndex(boms, id, index) <==> index == GateIndex(boms, id)
  {
    ReleasedIndexEntry(boms);
    hide ReleasedIndex;
    var gate := GateIndex(boms, id);
    assert ApprovalIndex(boms, id, gate) by {
      forall item
        ensures item in gate <==>
                || item == boms[id].itemId
                || exists i :: 0 <= i < |boms| && boms[i].status.Released? && boms[i].itemId == item
      {
        if item in gate && item != boms[id].itemId {
          var i: nat :| ReleasedFor(boms, i, item);
        }
      }
    }
    if ApprovalIndex(boms, id, index) {
      assert forall item :: item in index <==> item in gate;
      forall item | item in index
        ensures index[item] == gate[item]
      {
        if item != boms[id].itemId {
          var i :| 0 <= i < |boms| && boms[i].status.Released? && boms[i].itemId == item;
        }
      }
    }
  }

  lemma ApproveAfter(s: Store, id: nat, user: User, i: nat)
    requires UniqueReleased(s.boms) && i < |s.boms|
    ensures RowAfter(s, BomReleaseLaws.Step(s, ApproveOp(id, user)), ApproveOp(id, user), i)
    ensures CanRelease(s, id, user) <==> Approve(s, id, user).Success?
  {
    if id < |s.boms| {
      forall index
        ensures ApprovalIndex(s.boms, id, index) <==> index == GateIndex(s.boms, id)
      {
        GateIsApprovalIndex(s.boms, id, index);
      }
    }
    hide ApprovalIndex, Explode, GateIndex, UniqueReleased;
  }

  /** A row changes exactly as its status and the caller allow. */
  lemma RowMoves(s: Store, op: Op, i: nat)
    requires UniqueReleased(s.boms) && i < |s.boms|
    ensures RowAfter(s, BomReleaseLaws.Step(s, op), op, i)
  {
    match op
    case ApproveOp(id, user) => ApproveAfter(s, id, user, i);
    case UpdateOp(id, edit, user) => UpdateAfter(s, id, edit, user, i);
    case _ => hide LatestRevision, UniqueReleased, CanRelease;
  }

  lemma UpdateAfter(s: Store, id: nat, edit: Option<seq<LineInput>>, user: User, i: nat)
    requires UniqueReleased(s.boms) && i < |s.boms|
    ensures RowAfter(s, BomReleaseLaws.Step(s, UpdateOp(id, edit, user)), UpdateOp(id, edit, user), i)
  {
    hide UniqueReleased;
    if id < |s.boms| && edit.Some? {
      assert AllEntered(LinesOf(edit.value), edit.value);
      assert Usable(s.items, s.boms[id].itemId, edit.value) <==>
             !Mentions(edit.value, s.boms[id].itemId) && ItemsUsable(s.items, edit.value);
    }
  }

  // ---------------------------------------------------------------- from revision to release

  ghost predicate Copied(s: Store, b: Store, id: nat, user: User)
    requires id < |s.boms|
  {
    && Inv(b) && |b.boms| == |s.boms| + 1
    && var row := b.boms[|s.boms|];
    && row.itemId == s.boms[id].itemId && row.lines == s.boms[id].lines && row.createdBy == user
    && (row.status.PendingApproval? <==> row.lines != []) && !row.status.Released?
    && UniqueReleased(s.boms) && ReleasedIndex(b.boms) == ReleasedIndex(s.boms)
  }

  lemma RevisionSubmitted(s: Store, id: nat, user: User)
    requires Inv(s) && id < |s.boms|
    ensures UniqueReleased(BomReleaseLaws.Step(s, NewRevisionOp(id, user)).boms)
    ensures Copied(s, BomReleaseLaws.Step(BomReleaseLaws.Step(s, NewRevisionOp(id, user)), SubmitOp(|s.boms|, user)),
              id, user)
  {
    var revise, submit := NewRevisionOp(id, user), SubmitOp(|s.boms|, user);
    NewRevisionAdds(s, id, user);
    StepKeepsInv(s, revise);
    var a := BomReleaseLaws.Step(s, revise);
    StepKeepsInv(a, submit);
    BomAncestors.OthersKeepIndex(s, revise);
    if Apply(a, submit).Success? {
      BomAncestors.OthersKeepIndex(a, submit);
    }
    hide Acyclic, RowOk, UniqueRevisions, ReleasedIndex, NextNumber, UniqueReleased;
  }

  lemma CopyApproved(s: Store, b: Store, id: nat, user: User, approver: User)
    requires id < |s.boms| && Copied(s, b, id, user)
    ensures var n, source := |s.boms|, s.boms[id];
      var t := BomReleaseLaws.Step(b, ApproveOp(n, approver));
      && |t.boms| == n + 1 && t.boms[n].itemId == source.itemId && t.boms[n].lines == source.lines
      && var index := ReleasedIndex(s.boms)[source.itemId := Bom(source.itemId, t.boms[n].revision, source.lines)];
      && (t.boms[n].status.Released? <==>
            && source.lines != [] && user != approver
            && Explode(General, index, source.itemId).Success? && Explode(Procurement, index, source.itemId).Success?)
      && (t.boms[n].status.Released? ==> UniqueReleased(t.boms) && ReleasedIndex(t.boms) == index)
  {
    ReleaseTakesGateIndex(b.boms, |s.boms|, approver);
    hide Inv, Explode, ReleasedIndex, UniqueReleased;
  }

  /**
   A new revision that is submitted and approved without an edit is released exactly when the
   source has lines, another user approves it and its explosions succeed; and then the item is made
   of the source's lines.
   */
  lemma RevisionReleased(s: Store, id: nat, user: User, approver: User)
    requires Inv(s) && id < |s.boms|
    ensures var n, source := |s.boms|, s.boms[id];
      var t := Run(s, [NewRevisionOp(id, user), SubmitOp(n, user), ApproveOp(n, approver)]);
      && |t.boms| == n + 1 && t.boms[n].itemId == source.itemId && t.boms[n].lines == source.lines
      && var index := ReleasedIndex(s.boms)[source.itemId := Bom(source.itemId, t.boms[n].revision, source.lines)];
      && (t.boms[n].status.Released? <==>
            && source.lines != [] && user != approver
            && Explode(General, index, source.itemId).Success? && Explode(Procurement, index, source.itemId).Success?)
      && (t.boms[n].status.Released? ==> ReleasedIndex(t.boms) == index)
  {
    var n := |s.boms|;
    var revise, submit, approve := NewRevisionOp(id, user), SubmitOp(n, user), ApproveOp(n, approver);
    StepKeepsInv(s, revise);
    RevisionSubmitted(s, id, user);
    BomAncestors.RunThree(s, revise, submit, approve);
    hide BomReleaseLaws.Step, Run, Explode, ReleasedIndex, UniqueReleased, RowOk, Acyclic, UniqueRevisions;
    CopyApproved(s, BomReleaseLaws.Step(BomReleaseLaws.Step(s, revise), submit), id, user, approver);
  }

  // ---------------------------------------------------------------- refusals and the event log

  /** Which error a refused call gives. */
  lemma RefusedWith(s: Store, op: Op)
    requires UniqueReleased(s.boms) && Apply(s, op).Failure?
    ensures var error := Apply(s, op).error;
      match op
      case CreateOp(item, _, _) => error == if item !in s.items then NotFound else BadRequest
      case UpdateOp(id, _, _) =>
        error == if id >= |s.boms| then NotFound else if !InWork(s.boms[id]) then Forbidden else BadRequest
      case SubmitOp(id, _) => error == if id >= |s.boms| then NotFound else BadRequest
      case RejectOp(id, commented, _) =>
        error == if !commented then BadRequest else if id >= |s.boms| then NotFound
                 else if !s.boms[id].status.PendingApproval? then BadRequest else Forbidden
      case NewRevisionOp(_, _) => error == NotFound
      case ApproveOp(id, user) =>
        if id >= |s.boms| then error == NotFound
        else if !s.boms[id].status.PendingApproval? then error == BadRequest
        else if s.boms[id].createdBy == user then error == Forbidden
        else error.CannotExplode? && exists mode, index ::
               ApprovalIndex(s.boms, id, index) && Explode(mode, index, s.boms[id].itemId) == Failure(error.failure)
  {
    if op.ApproveOp? && op.id < |s.boms| {
      GateIsApprovalIndex(s.boms, op.id, GateIndex(s.boms, op.id));
    }
    hide Explode, GateIndex, ApprovalIndex, UniqueReleased, LatestRevision;
  }

  /** The rows among the first n that the release of `id` makes obsolete, in order, and no others. */
  lemma {:induction false} SupersededAre(boms: seq<BomRow>, id: nat, n: nat)
    requires id < |boms| && n <= |boms|
    ensures var ids := SupersededIds(boms, id, n);
      && (forall i: nat :: i in ids <==>
            i < n && i != id && boms[i].status.Released? && boms[i].itemId == boms[id].itemId)
      && forall a, b :: 0 <= a < b < |ids| ==> ids[a] < ids[b]
  {
    if n > 0 {
      SupersededAre(boms, id, n - 1);
      var before := SupersededIds(boms, id, n - 1);
      assert forall a :: 0 <= a < |before| ==> before[a] in before;
    }
  }

  /** The events a call appends. */
  ghost predicate Logged(s: Store, op: Op, added: seq<Event>) {
    match op
    case CreateOp(_, _, user) => added == [Event(|s.boms|, Created, user)]
    case NewRevisionOp(_, user) => added == [Event(|s.boms|, RevisionCreated, user)]
    case UpdateOp(id, _, user) => added == [Event(id, Updated, user)]
    case SubmitOp(id, user) => added == [Event(id, Submitted, user)]
    case RejectOp(id, _, user) => added == [Event(id, RejectedEvent, user)]
    case ApproveOp(id, user) =>
      && id < |s.boms| && |added| >= 2
      && added[0] == Event(id, Approved, user) && added[1] == Event(id, ReleasedEvent, user)
      && (forall a :: 2 <= a < |added| ==> added[a] == Event(added[a].bomId, Obsoleted, user))
      && (forall a, b :: 2 <= a < b < |added| ==> added[a].bomId < added[b].bomId)
      && forall i: nat :: (exists a :: 2 <= a < |added| && added[a].bomId == i) <==>
           i < |s.boms| && i != id && s.boms[i].status.Released? && s.boms[i].itemId == s.boms[id].itemId
  }

  /** A call that goes through logs what it did, to each revision and by whom; a refused one nothing. */
  lemma EventsLogged(s: Store, op: Op)
    requires UniqueReleased(s.boms)
    ensures var t, n := BomReleaseLaws.Step(s, op), |s.events|;
      && n <= |t.events| && t.events[..n] == s.events
      && (if Apply(s, op).Success? then Logged(s, op, t.events[n..]) else t.events == s.events)
  {
    if op.ApproveOp? && Apply(s, op).Success? {
      ApprovalLogged(s, op.id, op.user);
      var added := [Event(op.id, Approved, op.user), Event(op.id, ReleasedEvent, op.user)]
                   + ObsoleteEvents(SupersededIds(s.boms, op.id, |s.boms|), op.user);
      assert BomReleaseLaws.Step(s, op).events == s.events + added;
      assert (s.events + added)[|s.events|..] == added;
    }
    hide Explode, GateIndex, UniqueReleased, LatestRevision, SupersededIds, ObsoleteEvents;
  }

  lemma ApprovalLogged(s: Store, id: nat, user: User)
    requires id < |s.boms|
    ensures Logged(s, ApproveOp(id, user), [Event(id, Approved, user), Event(id, ReleasedEvent, user)]
                                           + ObsoleteEvents(SupersededIds(s.boms, id, |s.boms|), user))
  {
    SupersededAre(s.boms, id, |s.boms|);
    var ids := SupersededIds(s.boms, id, |s.boms|);
    hide SupersededIds;
    var added := [Event(id, Approved, user), Event(id, ReleasedEvent, user)] + ObsoleteEvents(ids, user);
    assert forall a :: 2 <= a < |added| ==> added[a] == Event(ids[a - 2], Obsoleted, user);
    forall a, b | 2 <= a < b < |added|
      ensures added[a].bomId < added[b].bomId
    {
      assert ids[a - 2] < ids[b - 2];
    }
    forall i: nat
      ensures (exists a :: 2 <= a < |added| && added[a].bomId == i) <==> i in ids
    {
      if i in ids {
        var a :| 0 <= a < |ids| && ids[a] == i;
        assert added[a + 2].bomId == i;
      }
    }
    hide ObsoleteEvents;
  }
}
