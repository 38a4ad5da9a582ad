/**
 * The inventory tables of the warehouse: `cell_products` (at most one product
 * binding per storage cell) and `loading_slots` (status, product, quantity per
 * outbound slot), with the value-level transitions that the route handlers in
 * server.js apply to them.
 */
module Inventory {
  import opened Wrappers

  /** Identifiers as they arrive in a request; the empty string is JavaScript's falsy value. */
  type Id = string

  /** One `cell_products` row: the product bound to a cell and its quantity. */
  datatype Stock = Stock(product: Id, quantity: int)

  datatype SlotStatus = Empty | Ready | Reserved

  /** One `loading_slots` row. */
  datatype Slot = Slot(status: SlotStatus, product: Option<Id>, quantity: int)

  const EmptySlot := Slot(Empty, None, 0)

  /** Bound quantities are positive: a binding that would reach zero is deleted instead. */
  ghost predicate StockValid(cells: map<Id, Stock>) {
    forall c :: c in cells ==> cells[c].quantity > 0
  }

  /** EMPTY holds nothing; READY holds a product in positive quantity. */
  ghost predicate SlotWellFormed(s: Slot) {
    && (s.status == Empty <==> s.product.None? && s.quantity == 0)
    && (s.status == Ready ==> s.product.Some? && s.quantity > 0)
  }

  ghost predicate SlotsWellFormed(slots: map<Id, Slot>) {
    forall s :: s in slots ==> SlotWellFormed(slots[s])
  }

  /** Quantity held at a cell, reading a missing binding as zero. */
  function Level(cells: map<Id, Stock>, c: Id): int {
    if c in cells then cells[c].quantity else 0
  }

  /** The `quantity || 1` defaulting of the assign routes. */
  function DefaultQuantity(quantity: int): (r: int)
    ensures r != 0
    ensures quantity == 0 ==> r == 1
    ensures quantity != 0 ==> r == quantity
    ensures quantity >= 0 ==> r > 0
  {
    if quantity == 0 then 1 else quantity
  }

  /**
   * An `UPDATE loading_slots ... WHERE id = slotId`: overwrites an existing
   * slot and touches nothing when no slot has that id (it never inserts).
   */
  function Overwrite(slots: map<Id, Slot>, slotId: Id, slot: Slot): (r: map<Id, Slot>)
    ensures r.Keys == slots.Keys
    ensures slotId in slots ==> r[slotId] == slot
    ensures forall s :: s in slots && s != slotId ==> r[s] == slots[s]
    ensures SlotsWellFormed(slots) && SlotWellFormed(slot) ==> SlotsWellFormed(r)
  {
    if slotId in slots then slots[slotId := slot] else slots
  }

  datatype TakeError = CellIsEmpty | NotEnoughQuantity

  /** What a successful take moves out of a cell, and the cell table afterwards. */
  datatype Taken = Taken(product: Id, moved: int, cells: map<Id, Stock>)

  /**
   * Steps 1-3 of fill-from-cell on the cell table: read the binding, pick the
   * move quantity (the requested one when positive, else all of it), refuse
   * a move larger than the binding, then delete or decrement the binding.
   */
  function TakeFromCell(cells: map<Id, Stock>, cellId: Id, requested: int): (r: Result<Taken, TakeError>)
    ensures r == Failure(CellIsEmpty) <==> cellId !in cells
    ensures r == Failure(NotEnoughQuantity) <==>
              cellId in cells && 0 < requested && cells[cellId].quantity < requested
    ensures r.Success? ==> cellId in cells
    ensures r.Success? ==>
              var bound := cells[cellId];
              && r.value.product == bound.product
              && r.value.moved == (if requested > 0 then requested else bound.quantity)
              && Level(r.value.cells, cellId) + r.value.moved == bound.quantity
              && (cellId in r.value.cells <==> r.value.moved != bound.quantity)
              && (cellId in r.value.cells ==>
                    r.value.cells[cellId].product == bound.product && r.value.cells[cellId].quantity > 0)
              && r.value.cells - {cellId} == cells - {cellId}
    ensures r.Success? && StockValid(cells) ==> StockValid(r.value.cells) && r.value.moved > 0
  {
    if cellId !in cells then Failure(CellIsEmpty)
    else
      var bound := cells[cellId];
      var moveQty := if requested > 0 then requested else bound.quantity;
      if moveQty > bound.quantity then Failure(NotEnoughQuantity)
      else if moveQty == bound.quantity then Success(Taken(bound.product, moveQty, cells - {cellId}))
      else Success(Taken(bound.product, moveQty, cells[cellId := Stock(bound.product, bound.quantity - moveQty)]))
  }

  /** Sum of the quantities bound to all cells. */
  ghost function TotalStock(cells: map<Id, Stock>): int
    decreases |cells|
  {
    if cells == map[] then 0
    else
      var c :| c in cells;
      cells[c].quantity + TotalStock(cells - {c})
  }

  /** The total can be split at any cell, not only at the one TotalStock picks. */
  lemma {:induction false} TotalStockRemove(cells: map<Id, Stock>, c: Id)
    requires c in cells
    ensures TotalStock(cells) == cells[c].quantity + TotalStock(cells - {c})
    decreases |cells|
  {
    assert cells != map[];
    var d :| d in cells && TotalStock(cells) == cells[d].quantity + TotalStock(cells - {d});
    if d != c {
      TotalStockRemove(cells - {d}, c);
      TotalStockRemove(cells - {c}, d);
      assert cells - {d} - {c} == cells - {c} - {d};
    }
  }

  /** A successful take removes from the cell table exactly the quantity it moves. */
  lemma TakeConservesTotal(cells: map<Id, Stock>, cellId: Id, requested: int)
    requires TakeFromCell(cells, cellId, requested).Success?
    ensures var t := TakeFromCell(cells, cellId, requested).value;
            TotalStock(t.cells) + t.moved == TotalStock(cells)
  {
    var t := TakeFromCell(cells, cellId, requested).value;
    TotalStockRemove(cells, cellId);
    if cellId in t.cells {
      TotalStockRemove(t.cells, cellId);
      assert t.cells - {cellId} == cells - {cellId};
    } else {
      assert t.cells == cells - {cellId};
    }
  }

  /**
   * Filling a slot id that names no slot still debits the cell: the moved
   * quantity leaves the cell table and arrives nowhere (when the ledger's slot
   * reference is not a foreign key, so the fill can commit).
   */
  lemma UnknownSlotLosesStock(cells: map<Id, Stock>, slots: map<Id, Slot>, cellId: Id, slotId: Id, requested: int)
    requires StockValid(cells)
    requires slotId !in slots
    requires TakeFromCell(cells, cellId, requested).Success?
    ensures var t := TakeFromCell(cells, cellId, requested).value;
            && Overwrite(slots, slotId, Slot(Ready, Some(t.product), t.moved)) == slots
            && TotalStock(t.cells) < TotalStock(cells)
  {
    TakeConservesTotal(cells, cellId, requested);
  }
}
