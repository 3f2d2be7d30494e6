/** The three-table order repository: the version-guarded save and the three-read load. */
module OrderRepo {
  import opened Wrappers
  import opened Orders
  import opened OrderAggregate
  import opened NumberOrder

  datatype Header = Header(
    allowPartial: bool,
    promiseDate: Option<Instant>,
    promiseCptId: Option<string>,
    promiseBasis: Option<Basis>,
    held: bool,
    requiredShipBy: Option<Instant>,
    version: int)

  datatype LineRow = LineRow(sku: SKU, quantity: int, pathId: PathId, giftWrap: bool, status: LineStatus, reservationId: Option<string>)

  datatype GroupRow = GroupRow(lineNos: seq<int>, cptId: Option<string>, cutoffAt: Instant, basis: Basis)

  /** The primary key of a child row: the order and the position in it. */
  datatype Key = Key(id: OrderId, no: int)

  datatype Tables = Tables(orders: map<OrderId, Header>, lines: map<Key, LineRow>, groups: map<Key, GroupRow>)

  datatype SaveError = ConcurrentModification

  // ---------------------------------------------------------------- what a save writes

  function HeaderOf(s: OrderState): Header {
    Header(s.allowPartial, s.promiseDate, s.promiseCptId, s.promiseBasis, s.held, s.requiredShipBy, s.version)
  }

  /** The update leaves the shipment preference as it was stored. */
  function Updated(stored: Header, s: OrderState): Header {
    Header(stored.allowPartial, s.promiseDate, s.promiseCptId, s.promiseBasis, s.held, s.requiredShipBy, stored.version + 1)
  }

  function RowOf(l: Line): LineRow {
    LineRow(l.sku, l.quantity, l.pathId, l.giftWrap, l.status, l.reservationId)
  }

  /** An existing line row gets a new status and reservation id and keeps everything else. */
  function Upserted(rows: map<Key, LineRow>, id: OrderId, l: Line): map<Key, LineRow> {
    var key := Key(id, l.lineNo);
    if key in rows then rows[key := rows[key].(status := l.status, reservationId := l.reservationId)]
    else rows[key := RowOf(l)]
  }

  function UpsertedUpTo(rows: map<Key, LineRow>, id: OrderId, ls: seq<Line>, k: nat): map<Key, LineRow>
    requires k <= |ls|
  {
    if k == 0 then rows else Upserted(UpsertedUpTo(rows, id, ls, k - 1), id, ls[k - 1])
  }

  function GroupRowOf(g: PromiseGroup): GroupRow {
    GroupRow(g.lineNos, if g.promise.cptId == "" then None else Some(g.promise.cptId), g.promise.cutoffAt, g.promise.basis)
  }

  function Without(rows: map<Key, GroupRow>, id: OrderId): map<Key, GroupRow> {
    map key | key in rows && key.id != id :: rows[key]
  }

  function InsertedUpTo(rows: map<Key, GroupRow>, id: OrderId, gs: seq<PromiseGroup>, k: nat): map<Key, GroupRow>
    requires k <= |gs|
  {
    if k == 0 then rows else InsertedUpTo(rows, id, gs, k - 1)[Key(id, k) := GroupRowOf(gs[k - 1])]
  }

  predicate GuardPasses(t: Tables, s: OrderState) {
    s.id in t.orders ==> t.orders[s.id].version == s.version
  }

  function SavedHeaders(orders: map<OrderId, Header>, s: OrderState): map<OrderId, Header> {
    orders[s.id := if s.id in orders then Updated(orders[s.id], s) else HeaderOf(s)]
  }

  function SavedTables(t: Tables, s: OrderState): Tables {
    Tables(
      SavedHeaders(t.orders, s),
      UpsertedUpTo(t.lines, s.id, s.lines, |s.lines|),
      InsertedUpTo(Without(t.groups, s.id), s.id, s.promiseGroups, |s.promiseGroups|))
  }

  // ---------------------------------------------------------------- what a load reads

  function Numbers<V>(rows: map<Key, V>, id: OrderId): set<No> {
    set key | key in rows && key.id == id :: No(key.no)
  }

  function LineFrom(no: int, r: LineRow): Line {
    Line(no, r.sku, r.quantity, r.pathId, r.giftWrap, r.status, r.reservationId)
  }

  function LinesAt(rows: map<Key, LineRow>, id: OrderId, nos: seq<int>): (r: seq<Line>)
    requires forall k :: 0 <= k < |nos| ==> Key(id, nos[k]) in rows
    ensures |r| == |nos|
  {
    seq(|nos|, k requires 0 <= k < |nos| => LineFrom(nos[k], rows[Key(id, nos[k])]))
  }

  function GroupFrom(r: GroupRow): PromiseGroup {
    PromiseGroup(r.lineNos, Promise(if r.cptId.Some? then r.cptId.value else "", r.cutoffAt, r.basis))
  }

  function GroupsAt(rows: map<Key, GroupRow>, id: OrderId, nos: seq<int>): (r: seq<PromiseGroup>)
    requires forall k :: 0 <= k < |nos| ==> Key(id, nos[k]) in rows
    ensures |r| == |nos|
  {
    seq(|nos|, k requires 0 <= k < |nos| => GroupFrom(rows[Key(id, nos[k])]))
  }

  function StoredLines(rows: map<Key, LineRow>, id: OrderId): seq<Line> {
    InOrderMembers(Numbers(rows, id));
    LinesAt(rows, id, InOrder(Numbers(rows, id)))
  }

  function StoredGroups(rows: map<Key, GroupRow>, id: OrderId): seq<PromiseGroup> {
    InOrderMembers(Numbers(rows, id));
    GroupsAt(rows, id, InOrder(Numbers(rows, id)))
  }

  function Find(t: Tables, id: OrderId): Option<OrderState> {
    if id !in t.orders then None
    else
      var h := t.orders[id];
      Some(OrderState(id, StoredLines(t.lines, id), h.allowPartial, h.promiseDate, h.promiseCptId, h.promiseBasis,
        StoredGroups(t.groups, id), h.held, h.requiredShipBy, h.version))
  }

  // ---------------------------------------------------------------- the repository

  class Repository {
    var orders: map<OrderId, Header>
    var lines: map<Key, LineRow>
    var groups: map<Key, GroupRow>

    function Contents(): Tables
      reads this
    {
      Tables(orders, lines, groups)
    }

    constructor ()
      ensures Contents() == Tables(map[], map[], map[])
    {
      orders, lines, groups := map[], map[], map[];
    }

    /** Guarded update, else insert, else conflict. */
    method SaveHeader(o: Order) returns (error: Option<SaveError>, inserted: bool)
      modifies `orders
      ensures error.None? <==> GuardPasses(old(Contents()), o.State())
      ensures error.Some? ==> orders == old(orders)
      ensures error.None? ==> orders == SavedHeaders(old(orders), o.State())
      ensures inserted <==> o.id !in old(orders)
    {
      inserted := false;
      if o.id in orders && orders[o.id].version == o.version {
        var h := orders[o.id];
        orders := orders[o.id := Header(h.allowPartial, o.promiseDate, o.promiseCptId, o.promiseBasis, o.heldAtIntake,
          o.requiredShipBy, h.version + 1)];
      } else {
        if o.id in orders { return Some(ConcurrentModification), false; }
        orders := orders[o.id := Header(o.allowPartial, o.promiseDate, o.promiseCptId, o.promiseBasis, o.heldAtIntake,
          o.requiredShipBy, o.version)];
        inserted := true;
      }
      return None, inserted;
    }

    /** The header first, so that a conflict is found before any child row is touched; then the lines,
        then the groups. The version in memory follows an update but not an insert. */
    method Save(o: Order) returns (error: Option<SaveError>)
      modifies this, o`version
      ensures error.None? <==> GuardPasses(old(Contents()), old(o.State()))
      ensures error.Some? ==> Contents() == old(Contents()) && o.State() == old(o.State())
      ensures error.None? ==> Contents() == SavedTables(old(Contents()), old(o.State()))
      ensures error.None? ==>
                o.State() == if o.id in old(orders) then old(o.State()).(version := old(o.version) + 1) else old(o.State())
    {
      var inserted: bool;
      error, inserted := SaveHeader(o);
      if error.Some? { return; }
      SaveLines(o);
      PersistPromiseGroups(o);
      if !inserted { o.version := o.version + 1; }
    }

    method SaveLines(o: Order)
      modifies `lines
      ensures lines == UpsertedUpTo(old(lines), o.id, o.State().lines, |o.lines|)
    {
      ghost var ls := o.State().lines;
      for i := 0 to |o.lines|
        invariant lines == UpsertedUpTo(old(lines), o.id, ls, i)
      {
        var l := o.lines[i];
        var key := Key(o.id, l.lineNo);
        if key in lines {
          lines := lines[key := lines[key].(status := l.status, reservationId := l.reservationId)];
        } else {
          lines := lines[key := LineRow(l.sku, l.quantity, l.pathId, l.giftWrap, l.status, l.reservationId)];
        }
      }
    }

    method PersistPromiseGroups(o: Order)
      modifies `groups
      ensures groups == InsertedUpTo(Without(old(groups), o.id), o.id, o.promiseGroups, |o.promiseGroups|)
    {
      groups := Without(groups, o.id);
      for i := 0 to |o.promiseGroups|
        invariant groups == InsertedUpTo(Without(old(groups), o.id), o.id, o.promiseGroups, i)
      {
        groups := groups[Key(o.id, i + 1) := GroupRowOf(o.promiseGroups[i])];
      }
    }

    /** Header, then lines by number, then groups by number. */
    method FindByID(id: OrderId) returns (found: Option<Order>)
      ensures found.None? <==> Find(Contents(), id).None?
      ensures found.Some? ==> fresh(found.value) && found.value.Valid() && Find(Contents(), id) == Some(found.value.State())
    {
      if id !in orders { return None; }
      var h := orders[id];
      var rehydrated := FetchLines(id);
      var promiseGroups := FetchPromiseGroups(id);
      var o := new Order.Rehydrate(OrderState(id, Views(rehydrated), h.allowPartial, h.promiseDate, h.promiseCptId,
        h.promiseBasis, promiseGroups, h.held, h.requiredShipBy, h.version), rehydrated);
      return Some(o);
    }

    method FetchLines(id: OrderId) returns (ls: seq<OrderLine>)
      ensures fresh(ls) && Distinct(ls) && Views(ls) == StoredLines(lines, id)
    {
      ls := [];
      var todo := Numbers(lines, id);
      ghost var all := InOrder(todo);
      InOrderMembers(todo);
      while todo != {}
        invariant fresh(ls) && Distinct(ls)
        invariant todo <= Numbers(lines, id)
        invariant |ls| <= |all| && all[|ls|..] == InOrder(todo)
        invariant Views(ls) == LinesAt(lines, id, all[..|ls|])
        decreases todo
      {
        var no := Least(todo).n;
        assert all[|ls|] == InOrder(todo)[0] == no;
        assert all[|ls| + 1..] == InOrder(todo)[1..] == InOrder(todo - {No(no)});
        var line := new OrderLine(LineFrom(no, lines[Key(id, no)]));
        assert Views(ls + [line]) == Views(ls) + [line.View()];
        ls := ls + [line];
        todo := todo - {No(no)};
      }
      assert all[..|ls|] == all;
    }

    method FetchPromiseGroups(id: OrderId) returns (gs: seq<PromiseGroup>)
      ensures gs == StoredGroups(groups, id)
    {
      gs := [];
      var todo := Numbers(groups, id);
      ghost var all := InOrder(todo);
      InOrderMembers(todo);
      while todo != {}
        invariant todo <= Numbers(groups, id)
        invariant |gs| <= |all| && all[|gs|..] == InOrder(todo)
        invariant gs == GroupsAt(groups, id, all[..|gs|])
        decreases todo
      {
        var no := Least(todo).n;
        assert all[|gs|] == InOrder(todo)[0] == no;
        assert all[|gs| + 1..] == InOrder(todo)[1..] == InOrder(todo - {No(no)});
        gs := gs + [GroupFrom(groups[Key(id, no)])];
        todo := todo - {No(no)};
      }
      assert all[..|gs|] == all;
    }
  }

  // ---------------------------------------------------------------- saving and loading

  predicate SameGoodsRow(l: Line, r: LineRow) {
    r.sku == l.sku && r.quantity == l.quantity && r.pathId == l.pathId && r.giftWrap == l.giftWrap
  }

  /** The stored rows of an order are rows of these lines, at the same goods: no use case changes the
      goods of a line, adds a line or removes one, or changes the shipment preference. */
  ghost predicate Fits(t: Tables, s: OrderState) {
    && (s.id in t.orders ==> t.orders[s.id].allowPartial == s.allowPartial)
    && forall n :: No(n) in Numbers(t.lines, s.id) ==> 1 <= n <= |s.lines| && SameGoodsRow(s.lines[n - 1], t.lines[Key(s.id, n)])
  }

  lemma {:induction false} UpsertedHolds(rows: map<Key, LineRow>, id: OrderId, ls: seq<Line>, k: nat)
    requires WellNumbered(ls) && k <= |ls|
    requires forall n :: No(n) in Numbers(rows, id) ==> 1 <= n <= |ls| && SameGoodsRow(ls[n - 1], rows[Key(id, n)])
    ensures forall n | 1 <= n <= k :: Key(id, n) in UpsertedUpTo(rows, id, ls, k) && UpsertedUpTo(rows, id, ls, k)[Key(id, n)] == RowOf(ls[n - 1])
    ensures forall key: Key | key.id != id || key.no < 1 || key.no > k ::
              (key in UpsertedUpTo(rows, id, ls, k) <==> key in rows) && (key in rows ==> UpsertedUpTo(rows, id, ls, k)[key] == rows[key])
  {
    if k > 0 {
      UpsertedHolds(rows, id, ls, k - 1);
      var before := UpsertedUpTo(rows, id, ls, k - 1);
      assert Key(id, k) in before ==> No(k) in Numbers(rows, id);
    }
  }

  lemma {:induction false} InsertedHolds(rows: map<Key, GroupRow>, id: OrderId, gs: seq<PromiseGroup>, k: nat)
    requires k <= |gs|
    ensures forall n | 1 <= n <= k :: Key(id, n) in InsertedUpTo(rows, id, gs, k) && InsertedUpTo(rows, id, gs, k)[Key(id, n)] == GroupRowOf(gs[n - 1])
    ensures forall key: Key | key.id != id || key.no < 1 || key.no > k ::
              (key in InsertedUpTo(rows, id, gs, k) <==> key in rows) && (key in rows ==> InsertedUpTo(rows, id, gs, k)[key] == rows[key])
  {
    if k > 0 {
      InsertedHolds(rows, id, gs, k - 1);
    }
  }

  lemma StoredLinesAre(rows: map<Key, LineRow>, id: OrderId, ls: seq<Line>)
    requires WellNumbered(ls) && Numbers(rows, id) == Range(1, |ls|)
    requires forall n :: 1 <= n <= |ls| ==> Key(id, n) in rows && rows[Key(id, n)] == RowOf(ls[n - 1])
    ensures StoredLines(rows, id) == ls
  {
    RangeInOrder(1, |ls|);
    InOrderMembers(Numbers(rows, id));
  }

  lemma StoredGroupsAre(rows: map<Key, GroupRow>, id: OrderId, gs: seq<PromiseGroup>)
    requires Numbers(rows, id) == Range(1, |gs|)
    requires forall n :: 1 <= n <= |gs| ==> Key(id, n) in rows && rows[Key(id, n)] == GroupRowOf(gs[n - 1])
    ensures StoredGroups(rows, id) == gs
  {
    RangeInOrder(1, |gs|);
    InOrderMembers(Numbers(rows, id));
  }

  lemma NumbersAre<V>(rows: map<Key, V>, id: OrderId, n: nat)
    requires forall key :: key in rows && key.id == id ==> 1 <= key.no <= n
    requires forall k :: 1 <= k <= n ==> Key(id, k) in rows
    ensures Numbers(rows, id) == Range(1, n)
  {
    forall x | x in Numbers(rows, id) ensures x in Range(1, n) {
      assert x == No(x.n);
    }
    forall x | x in Range(1, n) ensures x in Numbers(rows, id) {
      assert x == No(x.n) && Key(id, x.n) in rows;
    }
  }

  lemma LinesAfterSave(t: Tables, s: OrderState)
    requires Fits(t, s) && WellNumbered(s.lines)
    ensures StoredLines(SavedTables(t, s).lines, s.id) == s.lines
  {
    var u := SavedTables(t, s);
    UpsertedHolds(t.lines, s.id, s.lines, |s.lines|);
    forall key | key in u.lines && key.id == s.id ensures 1 <= key.no <= |s.lines| {
      assert key in t.lines ==> No(key.no) in Numbers(t.lines, s.id);
    }
    NumbersAre(u.lines, s.id, |s.lines|);
    StoredLinesAre(u.lines, s.id, s.lines);
  }

  lemma GroupsAfterSave(t: Tables, s: OrderState)
    ensures StoredGroups(SavedTables(t, s).groups, s.id) == s.promiseGroups
  {
    var u := SavedTables(t, s);
    InsertedHolds(Without(t.groups, s.id), s.id, s.promiseGroups, |s.promiseGroups|);
    NumbersAre(u.groups, s.id, |s.promiseGroups|);
    StoredGroupsAre(u.groups, s.id, s.promiseGroups);
  }

  /** Load after save gives back the very order that was saved, at the version now stored, although
      the update rewrites neither the goods nor the shipment preference. */
  lemma FindAfterSave(t: Tables, s: OrderState)
    requires GuardPasses(t, s) && Fits(t, s) && WellNumbered(s.lines)
    ensures Find(SavedTables(t, s), s.id)
         == Some(if s.id in t.orders then s.(version := s.version + 1) else s)
  {
    LinesAfterSave(t, s);
    GroupsAfterSave(t, s);
  }

  /** Saving one order leaves every other order as it was. */
  lemma SaveTouchesOneOrder(t: Tables, s: OrderState, other: OrderId)
    requires Fits(t, s) && WellNumbered(s.lines) && other != s.id
    ensures Find(SavedTables(t, s), other) == Find(t, other)
  {
    var u := SavedTables(t, s);
    UpsertedHolds(t.lines, s.id, s.lines, |s.lines|);
    InsertedHolds(Without(t.groups, s.id), s.id, s.promiseGroups, |s.promiseGroups|);
    SameNumbers(t.lines, u.lines, other);
    SameNumbers(t.groups, u.groups, other);
    InOrderMembers(Numbers(t.lines, other));
    assert StoredLines(u.lines, other) == StoredLines(t.lines, other);
    assert StoredGroups(u.groups, other) == StoredGroups(t.groups, other) by {
      InOrderMembers(Numbers(t.groups, other));
    }
    InOrderMembers(Numbers(t.groups, other));
  }

  lemma SameNumbers<V>(rows: map<Key, V>, others: map<Key, V>, id: OrderId)
    requires forall key: Key :: key.id == id ==> (key in rows <==> key in others)
    ensures Numbers(rows, id) == Numbers(others, id)
  {
    forall x | x in Numbers(rows, id) ensures x in Numbers(others, id) {
      assert Key(id, x.n) in others;
    }
    forall x | x in Numbers(others, id) ensures x in Numbers(rows, id) {
      assert Key(id, x.n) in rows;
    }
  }

  /** What a save leaves behind fits the next save of the same order. */
  lemma SavedOrderFitsAgain(t: Tables, s: OrderState, next: OrderState)
    requires GuardPasses(t, s) && Fits(t, s) && WellNumbered(s.lines)
    requires next.id == s.id && next.allowPartial == s.allowPartial && SameGoodsThroughout(s.lines, next.lines)
    ensures Fits(SavedTables(t, s), next)
  {
    var u := SavedTables(t, s);
    UpsertedHolds(t.lines, s.id, s.lines, |s.lines|);
    forall n | No(n) in Numbers(u.lines, s.id)
      ensures 1 <= n <= |next.lines| && SameGoodsRow(next.lines[n - 1], u.lines[Key(s.id, n)])
    {
      assert Key(s.id, n) in t.lines ==> No(n) in Numbers(t.lines, s.id);
      assert SameGoods(s.lines[n - 1], next.lines[n - 1]);
    }
  }
}
