/**
 The BOM revision workflow of src/modules/bom/bom.service.ts:
   DRAFT -> PENDING_APPROVAL -> RELEASED | REJECTED, REJECTED -> PENDING_APPROVAL,
   RELEASED -> OBSOLETE when a newer revision of the item is released.

 Each operation is a function on the stored rows; class `BomService` updates the rows step by
 step and is proved equal to it. A row's id is its position in the table.
 */
module BomRelease {
  import opened Wrappers
  import opened BomExplosion

  type User = string

  datatype Status = Draft | PendingApproval | Rejected | Released | Obsolete

  datatype BomRow = BomRow(
    itemId: Item, revision: nat, status: Status, lines: seq<Line>, createdBy: User, approvedBy: Option<User>)

  datatype EventKind =
    Created | Updated | Submitted | Approved | ReleasedEvent | Obsoleted | RejectedEvent | RevisionCreated

  datatype Event = Event(bomId: nat, kind: EventKind, actor: User)

  /** `items` says of each known item whether it is active. */
  datatype Store = Store(items: map<Item, bool>, boms: seq<BomRow>, events: seq<Event>)

  datatype LineInput = LineInput(
    itemId: Item, quantityPerUnit: real, unitOfMeasure: string, wastagePercent: Option<real>, makeBuy: Option<Source>)

  datatype Error = NotFound | BadRequest | Forbidden | CannotExplode(failure: Failure)

  // ---------------------------------------------------------------- helpers

  function LineOf(l: LineInput): Line {
    Line(l.itemId, l.quantityPerUnit,
         if l.wastagePercent.Some? then l.wastagePercent.value else 0.0,
         l.unitOfMeasure,
         if l.makeBuy.Some? then l.makeBuy else Some(Buy))
  }

  function LinesOf(ls: seq<LineInput>): seq<Line> {
    seq(|ls|, i requires 0 <= i < |ls| => LineOf(ls[i]))
  }

  predicate Mentions(ls: seq<LineInput>, item: Item) {
    exists i :: 0 <= i < |ls| && ls[i].itemId == item
  }

  predicate ItemsUsable(items: map<Item, bool>, ls: seq<LineInput>) {
    forall i :: 0 <= i < |ls| ==> ls[i].itemId in items && items[ls[i].itemId]
  }

  /** The highest revision number of the item so far, 0 when it has none. */
  function LatestRevision(boms: seq<BomRow>, item: Item): (r: nat)
    ensures forall i :: 0 <= i < |boms| && boms[i].itemId == item ==> boms[i].revision <= r
  {
    if boms == [] then 0
    else
      var last, before := boms[|boms| - 1], LatestRevision(boms[..|boms| - 1], item);
      if last.itemId == item && last.revision > before then last.revision else before
  }

  predicate Editable(row: BomRow) {
    row.status.Draft? || row.status.Rejected?
  }

  function BomOf(row: BomRow): Bom {
    Bom(row.itemId, row.revision, row.lines)
  }

  ghost predicate UniqueReleased(boms: seq<BomRow>) {
    forall i, j :: 0 <= i < j < |boms| && boms[i].status.Released? && boms[j].status.Released? ==>
      boms[i].itemId != boms[j].itemId
  }

  /** The released BOM of every item that has one. */
  function ReleasedIndex(boms: seq<BomRow>): Lookup
    requires UniqueReleased(boms)
  {
    map i | 0 <= i < |boms| && boms[i].status.Released? :: boms[i].itemId := BomOf(boms[i])
  }

  ghost predicate ReleasedFor(boms: seq<BomRow>, i: nat, item: Item) {
    i < |boms| && boms[i].status.Released? && boms[i].itemId == item
  }

  /** The index is the only map that holds exactly the released rows. */
  lemma ReleasedIndexIs(boms: seq<BomRow>, index: Lookup)
    requires UniqueReleased(boms)
    requires forall i :: 0 <= i < |boms| && boms[i].status.Released? ==>
      boms[i].itemId in index && index[boms[i].itemId] == BomOf(boms[i])
    requires forall item :: item in index ==> exists i: nat :: ReleasedFor(boms, i, item)
    ensures ReleasedIndex(boms) == index
  {
  }

  /** Reading the index: an entry is a released row. */
  lemma ReleasedIndexEntry(boms: seq<BomRow>)
    requires UniqueReleased(boms)
    ensures forall i :: 0 <= i < |boms| && boms[i].status.Released? ==>
      boms[i].itemId in ReleasedIndex(boms) && ReleasedIndex(boms)[boms[i].itemId] == BomOf(boms[i])
    ensures forall item :: item in ReleasedIndex(boms) ==> exists i: nat :: ReleasedFor(boms, i, item)
  {
    forall item | item in ReleasedIndex(boms)
      ensures exists i: nat :: ReleasedFor(boms, i, item)
    {
      var i: nat :| i < |boms| && boms[i].status.Released? && boms[i].itemId == item;
      assert ReleasedFor(boms, i, item);
    }
  }

  /** What the release gate explodes: the released BOMs, with the pending one taking its item's place. */
  function GateIndex(boms: seq<BomRow>, id: nat): Lookup
    requires UniqueReleased(boms) && id < |boms|
  {
    ReleasedIndex(boms)[boms[id].itemId := BomOf(boms[id])]
  }

  /** The row holds the item's released revision and is about to be replaced by `id`. */
  predicate SupersededBy(boms: seq<BomRow>, id: nat, i: nat)
    requires id < |boms| && i < |boms|
  {
    boms[i].itemId == boms[id].itemId && boms[i].status.Released? && i != id
  }

  /** The ids among the first n that `id` supersedes. */
  function SupersededIds(boms: seq<BomRow>, id: nat, n: nat): seq<nat>
    requires id < |boms| && n <= |boms|
  {
    if n == 0 then []
    else SupersededIds(boms, id, n - 1) + if SupersededBy(boms, id, n - 1) then [n - 1] else []
  }

  function ObsoleteEvents(ids: seq<nat>, actor: User): seq<Event> {
    seq(|ids|, i requires 0 <= i < |ids| => Event(ids[i], Obsoleted, actor))
  }

  /** The rows after `id` is released by `user`. */
  function ReleaseRows(boms: seq<BomRow>, id: nat, user: User): seq<BomRow>
    requires id < |boms|
  {
    seq(|boms|, i requires 0 <= i < |boms| =>
      if i == id then boms[i].(status := Released, approvedBy := Some(user))
      else if SupersededBy(boms, id, i) then boms[i].(status := Obsolete)
      else boms[i])
  }

  // ---------------------------------------------------------------- the operations

  function Create(s: Store, item: Item, lines: seq<LineInput>, user: User): Result<Store, Error> {
    if item !in s.items then Failure(NotFound)
    else if Mentions(lines, item) || !ItemsUsable(s.items, lines) then Failure(BadRequest)
    else Success(Append(s, BomRow(item, LatestRevision(s.boms, item) + 1, Draft, LinesOf(lines), user, None), Created))
  }

  function Append(s: Store, row: BomRow, kind: EventKind): Store {
    s.(boms := s.boms + [row], events := s.events + [Event(|s.boms|, kind, row.createdBy)])
  }

  function Update(s: Store, id: nat, lines: Option<seq<LineInput>>, user: User): Result<Store, Error> {
    if id >= |s.boms| then Failure(NotFound)
    else if !Editable(s.boms[id]) then Failure(Forbidden)
    else if lines.Some? && (Mentions(lines.value, s.boms[id].itemId) || !ItemsUsable(s.items, lines.value)) then
      Failure(BadRequest)
    else
      var row := s.boms[id].(status := Draft);
      Success(Put(s, id, if lines.Some? then row.(lines := LinesOf(lines.value)) else row, Updated, user))
  }

  function Put(s: Store, id: nat, row: BomRow, kind: EventKind, actor: User): Store
    requires id < |s.boms|
  {
    s.(boms := s.boms[id := row], events := s.events + [Event(id, kind, actor)])
  }

  function Submit(s: Store, id: nat, user: User): Result<Store, Error> {
    if id >= |s.boms| then Failure(NotFound)
    else if !Editable(s.boms[id]) || s.boms[id].lines == [] then Failure(BadRequest)
    else Success(Put(s, id, s.boms[id].(status := PendingApproval), Submitted, user))
  }

  function Approve(s: Store, id: nat, user: User): Result<Store, Error>
    requires UniqueReleased(s.boms)
  {
    if id >= |s.boms| then Failure(NotFound)
    else if !s.boms[id].status.PendingApproval? then Failure(BadRequest)
    else if s.boms[id].createdBy == user then Failure(Forbidden)
    else
      var gate := Explode(General, GateIndex(s.boms, id), s.boms[id].itemId);
      var cost := Explode(Procurement, GateIndex(s.boms, id), s.boms[id].itemId);
      if gate.Failure? then Failure(CannotExplode(gate.error))
      else if cost.Failure? then Failure(CannotExplode(cost.error))
      else Success(s.(
        boms := ReleaseRows(s.boms, id, user),
        events := s.events + [Event(id, Approved, user), Event(id, ReleasedEvent, user)]
                  + ObsoleteEvents(SupersededIds(s.boms, id, |s.boms|), user)))
  }

  function Reject(s: Store, id: nat, commented: bool, user: User): Result<Store, Error> {
    if !commented then Failure(BadRequest)
    else if id >= |s.boms| then Failure(NotFound)
    else if !s.boms[id].status.PendingApproval? then Failure(BadRequest)
    else if s.boms[id].createdBy == user then Failure(Forbidden)
    else Success(Put(s, id, s.boms[id].(status := Rejected), RejectedEvent, user))
  }

  function NewRevision(s: Store, id: nat, user: User): Result<Store, Error> {
    if id >= |s.boms| then Failure(NotFound)
    else
      var source := s.boms[id];
      Success(Append(s, BomRow(source.itemId, LatestRevision(s.boms, source.itemId) + 1, Draft, source.lines, user,
          None),
                     RevisionCreated))
  }

  // ---------------------------------------------------------------- loading the index

  /** The row is selected for the gate: it is released, or it is the pending one. */
  predicate InGate(boms: seq<BomRow>, id: nat, i: nat)
    requires i < |boms|
  {
    boms[i].status.Released? || i == id
  }

  /** byItem holds the rows of `done`, the pending row winning for its item. */
  ghost predicate Loaded(boms: seq<BomRow>, id: nat, done: set<nat>, byItem: Lookup)
    requires id < |boms|
  {
    && (forall i :: i in done ==> i < |boms| && InGate(boms, id, i))
    && (forall item :: item in byItem ==> exists i :: i in done && boms[i].itemId == item)
    && (forall i :: i in done ==> boms[i].itemId in byItem)
    && (forall i :: i in done && boms[i].itemId != boms[id].itemId ==> byItem[boms[i].itemId] == BomOf(boms[i]))
    && (id in done ==> byItem[boms[id].itemId] == BomOf(boms[id]))
  }

  lemma LoadedNext(boms: seq<BomRow>, id: nat, done: set<nat>, byItem: Lookup, i: nat)
    requires UniqueReleased(boms) && id < |boms| && Loaded(boms, id, done, byItem)
    requires i < |boms| && InGate(boms, id, i) && i !in done
    ensures Loaded(boms, id, done + {i},
                   if i == id || boms[i].itemId !in byItem then byItem[boms[i].itemId := BomOf(boms[i])] else byItem)
  {
    var next := if i == id || boms[i].itemId !in byItem then byItem[boms[i].itemId := BomOf(boms[i])] else byItem;
    forall item | item in next
      ensures exists j :: j in done + {i} && boms[j].itemId == item
    {
      if item in byItem {
        var j :| j in done && boms[j].itemId == item;
        assert j in done + {i};
      } else {
        assert i in done + {i};
      }
    }
  }

  lemma LoadedAll(boms: seq<BomRow>, id: nat, done: set<nat>, byItem: Lookup)
    requires UniqueReleased(boms) && id < |boms| && Loaded(boms, id, done, byItem)
    requires forall i: nat :: i < |boms| && InGate(boms, id, i) ==> i in done
    ensures byItem == GateIndex(boms, id)
  {
  }

  // ---------------------------------------------------------------- the service

  class BomService {
    const items: map<Item, bool>
    var boms: seq<BomRow>
    var events: seq<Event>

    constructor (items: map<Item, bool>)
      ensures State() == Store(items, [], [])
    {
      this.items := items;
      boms, events := [], [];
    }

    function State(): Store
      reads this
    {
      Store(items, boms, events)
    }

    /** revisionNumber of the next BOM for the item. */
    method NextRevisionNumber(item: Item) returns (next: nat)
      ensures next == LatestRevision(boms, item) + 1
    {
      var latest: nat := 0;
      for i := 0 to |boms|
        invariant latest == LatestRevision(boms[..i], item)
      {
        assert boms[..i + 1][..i] == boms[..i];
        if boms[i].itemId == item && boms[i].revision > latest {
          latest := boms[i].revision;
        }
      }
      assert boms[..|boms|] == boms;
      next := latest + 1;
    }

    method CreateBom(item: Item, lines: seq<LineInput>, user: User) returns (outcome: Outcome<Error>)
      modifies this
      ensures Follows(old(State()), State(), outcome, Create(old(State()), item, lines, user))
    {
      if item !in items {
        return Fail(NotFound);
      }
      if Mentions(lines, item) || !ItemsUsable(items, lines) {
        return Fail(BadRequest);
      }
      var next := NextRevisionNumber(item);
      events := events + [Event(|boms|, Created, user)];
      boms := boms + [BomRow(item, next, Draft, LinesOf(lines), user, None)];
      return Pass;
    }

    method UpdateBom(id: nat, lines: Option<seq<LineInput>>, user: User) returns (outcome: Outcome<Error>)
      modifies this
      ensures Follows(old(State()), State(), outcome, Update(old(State()), id, lines, user))
    {
      if id >= |boms| {
        return Fail(NotFound);
      }
      if !Editable(boms[id]) {
        return Fail(Forbidden);
      }
      if lines.Some? {
        if Mentions(lines.value, boms[id].itemId) || !ItemsUsable(items, lines.value) {
          return Fail(BadRequest);
        }
      }
      if boms[id].status.Rejected? {
        boms := boms[id := boms[id].(status := Draft)];
      }
      if lines.Some? {
        boms := boms[id := boms[id].(lines := LinesOf(lines.value))];
      }
      events := events + [Event(id, Updated, user)];
      return Pass;
    }

    method SubmitBom(id: nat, user: User) returns (outcome: Outcome<Error>)
      modifies this
      ensures Follows(old(State()), State(), outcome, Submit(old(State()), id, user))
    {
      if id >= |boms| {
        return Fail(NotFound);
      }
      if !Editable(boms[id]) || |boms[id].lines| == 0 {
        return Fail(BadRequest);
      }
      boms := boms[id := boms[id].(status := PendingApproval)];
      events := events + [Event(id, Submitted, user)];
      return Pass;
    }

    /** The Map the gate and the cost snapshot explode; the rows come in no particular order. */
    method LoadIndex(id: nat) returns (byItem: Lookup)
      requires UniqueReleased(boms) && id < |boms|
      ensures byItem == GateIndex(boms, id)
    {
      var rows := set i: nat | i < |boms| && InGate(boms, id, i);
      assert Loaded(boms, id, {}, map[]);
      hide Loaded, GateIndex, BomOf, UniqueReleased;
      ghost var all, done := rows, {};
      byItem := map[];
      while rows != {}
        invariant done + rows == all
        invariant done !! rows && Loaded(boms, id, done, byItem)
        decreases rows
      {
        var i :| i in rows;
        LoadedNext(boms, id, done, byItem, i);
        if i == id || boms[i].itemId !in byItem {
          byItem := byItem[boms[i].itemId := BomOf(boms[i])];
        }
        rows, done := rows - {i}, done + {i};
      }
      LoadedAll(boms, id, done, byItem);
    }

    method ApproveBom(id: nat, user: User) returns (outcome: Outcome<Error>)
      requires UniqueReleased(boms)
      modifies this
      ensures Follows(old(State()), State(), outcome, Approve(old(State()), id, user))
    {
      if id >= |boms| {
        return Fail(NotFound);
      }
      if !boms[id].status.PendingApproval? {
        return Fail(BadRequest);
      }
      if boms[id].createdBy == user {
        return Fail(Forbidden);
      }
      var byItem := LoadIndex(id);
      var gate := ExplodeBom(General, byItem, boms[id].itemId);
      if gate.Failure? {
        return Fail(CannotExplode(gate.error));
      }
      var cost := ExplodeBom(Procurement, byItem, boms[id].itemId);
      if cost.Failure? {
        return Fail(CannotExplode(cost.error));
      }
      Release(id, user);
      return Pass;
    }

    /** The transaction of an approval: obsolete the revisions it supersedes, release this one, log both. */
    method Release(id: nat, user: User)
      requires id < |boms|
      modifies this
      ensures boms == ReleaseRows(old(boms), id, user)
      ensures events == old(events) + [Event(id, Approved, user), Event(id, ReleasedEvent, user)]
                        + ObsoleteEvents(SupersededIds(old(boms), id, |old(boms)|), user)
    {
      var superseded := [];
      for i := 0 to |boms|
        invariant |boms| == |old(boms)| && events == old(events) && superseded == SupersededIds(old(boms), id, i)
        invariant forall j :: 0 <= j < i ==>
          boms[j] == if SupersededBy(old(boms), id, j) then old(boms)[j].(status := Obsolete) else old(boms)[j]
        invariant boms[i..] == old(boms)[i..]
      {
        if boms[i].itemId == boms[id].itemId && boms[i].status.Released? && i != id {
          superseded := superseded + [i];
          boms := boms[i := boms[i].(status := Obsolete)];
        }
      }
      boms := boms[id := boms[id].(status := Released, approvedBy := Some(user))];
      assert boms == ReleaseRows(old(boms), id, user);
      events := events + [Event(id, Approved, user), Event(id, ReleasedEvent, user)];
      ghost var logged, log := events, ObsoleteEvents(superseded, user);
      for k := 0 to |superseded|
        invariant boms == ReleaseRows(old(boms), id, user) && events == logged + log[..k]
      {
        events := events + [Event(superseded[k], Obsoleted, user)];
      }
      assert log[..|superseded|] == log;
    }

    method RejectBom(id: nat, commented: bool, user: User) returns (outcome: Outcome<Error>)
      modifies this
      ensures Follows(old(State()), State(), outcome, Reject(old(State()), id, commented, user))
    {
      if !commented {
        return Fail(BadRequest);
      }
      if id >= |boms| {
        return Fail(NotFound);
      }
      if !boms[id].status.PendingApproval? {
        return Fail(BadRequest);
      }
      if boms[id].createdBy == user {
        return Fail(Forbidden);
      }
      boms := boms[id := boms[id].(status := Rejected)];
      events := events + [Event(id, RejectedEvent, user)];
      return Pass;
    }

    method CreateRevision(id: nat, user: User) returns (outcome: Outcome<Error>)
      modifies this
      ensures Follows(old(State()), State(), outcome, NewRevision(old(State()), id, user))
    {
      if id >= |boms| {
        return Fail(NotFound);
      }
      var source := boms[id];
      var next := NextRevisionNumber(source.itemId);
      events := events + [Event(|boms|, RevisionCreated, user)];
      boms := boms + [BomRow(source.itemId, next, Draft, source.lines, user, None)];
      return Pass;
    }
  }
}
