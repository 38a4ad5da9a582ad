/**
 * The state-changing route handlers of server.js over one warehouse: the
 * inventory tables, the operation ledger and the registered actuator address.
 * Each handler is a method; a database error is a `Fault` parameter naming the
 * SQL statement that throws, and the actuator's reply is a parameter too.
 */
module Server {
  import opened Wrappers
  import opened Inventory
  import opened Ledger
  import opened Gateway

  /**
   * Whether a handler's database work throws: `FailAt(k)` makes its k-th SQL
   * statement (0-based, in the order the handler issues them) raise an error.
   */
  datatype Fault = NoFault | FailAt(query: nat) {
    predicate Hits(k: nat) {
      FailAt? && query == k
    }

    predicate HitsWithin(lo: nat, hi: nat) {
      FailAt? && lo <= query <= hi
    }
  }

  /** The HTTP answer of a handler: status code and JSON body. */
  datatype Reply =
    | BadRequest(error: string)                     // 400 {error}
    | ServerError                                   // 500 {error, detail}
    | Succeeded                                     // 200 {success: true}
    | Registered(baseUrl: string)                   // 200 {ok: true, esp32_base_url}
    | Moved(id: nat, ok: bool, response: string)     // 200 {success: true, id, ok, response}
    | Dispatched(id: nat, ok: bool, response: string) // 200 {id, ok, response}

  const MissingIpMessage := "Missing 'ip' query param"
  const ProductIdRequiredMessage := "product_id is required"
  const CellIdRequiredMessage := "cell_id is required"
  const CellEmptyMessage := "Cell is empty"
  const NotEnoughMessage := "Not enough quantity in cell"
  const OpFieldsRequiredMessage := "op_type and cmd are required"
  const AutoLoading := "AUTO_LOADING"

  /** The 400 texts of fill-from-cell's two business-rule refusals; they tell the two apart. */
  function TakeErrorMessage(e: TakeError): (r: string)
    ensures r == CellEmptyMessage <==> e == CellIsEmpty
    ensures r == NotEnoughMessage <==> e == NotEnoughQuantity
  {
    match e
    case CellIsEmpty => CellEmptyMessage
    case NotEnoughQuantity => NotEnoughMessage
  }

  class Warehouse {
    /** `cell_products`, keyed by cell id. */
    var cells: map<Id, Stock>
    /** `loading_slots`, keyed by slot id. */
    var slots: map<Id, Slot>
    /** `operations`; the row with id n is `ops[n - 1]`. */
    var ops: seq<Operation>
    /** The module-level actuator address, unset until a controller registers. */
    var baseUrl: Option<string>
    /** Every request attempted to the actuator, oldest first (the transport may still have failed). */
    ghost var sent: seq<Transmission>

    ghost predicate Valid()
      reads this
    {
      StockValid(cells) && SlotsWellFormed(slots) && LedgerWellFormed(ops)
    }

    /** Process start over the tables as the database holds them: no address registered. */
    constructor (cells0: map<Id, Stock>, slots0: map<Id, Slot>, ops0: seq<Operation>)
      ensures cells == cells0 && slots == slots0 && ops == ops0
      ensures baseUrl == None && sent == []
    {
      cells, slots, ops := cells0, slots0, ops0;
      baseUrl := None;
      sent := [];
    }

    /** GET /api/esp32/register?ip=...: the last registration wins. */
    method Register(ip: string) returns (reply: Reply)
      modifies this`baseUrl
      ensures ip == "" ==> reply == BadRequest(MissingIpMessage) && baseUrl == old(baseUrl)
      ensures ip != "" ==> baseUrl == Some(BaseUrlFor(ip)) && reply == Registered(BaseUrlFor(ip))
    {
      if ip == "" {
        return BadRequest(MissingIpMessage);
      }
      baseUrl := Some(BaseUrlFor(ip));
      reply := Registered(BaseUrlFor(ip));
    }

    /**
     * sendCommandToESP32: without an address, a fixed refusal and no request;
     * otherwise one attempted request whose outcome is `transport`.
     */
    method SendCommand(cmd: string, transport: ActuatorReply) returns (result: ActuatorReply)
      modifies this`sent
      ensures result == Dispatch(baseUrl, transport)
      ensures sent == old(sent) + Transmitted(baseUrl, cmd)
    {
      if baseUrl.None? {
        return ActuatorReply(false, NotRegisteredMessage);
      }
      sent := sent + [Transmission(baseUrl.value, cmd)];
      result := transport;
    }

    /** POST /api/cells/:cellId/assign: an upsert replacing any binding of the cell. */
    method AssignCell(cellId: Id, productId: Id, quantity: int, fault: Fault) returns (reply: Reply)
      modifies this`cells
      ensures productId == "" ==> reply == BadRequest(ProductIdRequiredMessage) && cells == old(cells)
      ensures productId != "" && fault.Hits(0) ==> reply == ServerError && cells == old(cells)
      ensures productId != "" && !fault.Hits(0) ==>
                reply == Succeeded && cells == old(cells)[cellId := Stock(productId, DefaultQuantity(quantity))]
      ensures old(Valid()) && quantity >= 0 ==> Valid()
    {
      if productId == "" {
        return BadRequest(ProductIdRequiredMessage);
      }
      if fault.Hits(0) {
        return ServerError;
      }
      cells := cells[cellId := Stock(productId, DefaultQuantity(quantity))];
      reply := Succeeded;
    }

    /** POST /api/cells/:cellId/clear: deleting a missing binding is not an error. */
    method ClearCell(cellId: Id, fault: Fault) returns (reply: Reply)
      modifies this`cells
      ensures fault.Hits(0) ==> reply == ServerError && cells == old(cells)
      ensures !fault.Hits(0) ==> reply == Succeeded && cells == old(cells) - {cellId}
      ensures old(Valid()) ==> Valid()
    {
      if fault.Hits(0) {
        return ServerError;
      }
      cells := cells - {cellId};
      reply := Succeeded;
    }

    /** POST /api/loading-slots/:slotId/assign: marks an existing slot READY with the product. */
    method AssignSlot(slotId: Id, productId: Id, quantity: int, fault: Fault) returns (reply: Reply)
      modifies this`slots
      ensures productId == "" ==> reply == BadRequest(ProductIdRequiredMessage) && slots == old(slots)
      ensures productId != "" && fault.Hits(0) ==> reply == ServerError && slots == old(slots)
      ensures productId != "" && !fault.Hits(0) ==>
                && reply == Succeeded
                && slots == Overwrite(old(slots), slotId, Slot(Ready, Some(productId), DefaultQuantity(quantity)))
      ensures old(Valid()) && quantity >= 0 ==> Valid()
    {
      if productId == "" {
        return BadRequest(ProductIdRequiredMessage);
      }
      if fault.Hits(0) {
        return ServerError;
      }
      if slotId in slots {
        slots := slots[slotId := Slot(Ready, Some(productId), DefaultQuantity(quantity))];
      }
      reply := Succeeded;
    }

    /** POST /api/loading-slots/:slotId/clear: an existing slot becomes EMPTY. */
    method ClearSlot(slotId: Id, fault: Fault) returns (reply: Reply)
      modifies this`slots
      ensures fault.Hits(0) ==> reply == ServerError && slots == old(slots)
      ensures !fault.Hits(0) ==> reply == Succeeded && slots == Overwrite(old(slots), slotId, EmptySlot)
      ensures old(Valid()) ==> Valid()
    {
      if fault.Hits(0) {
        return ServerError;
      }
      if slotId in slots {
        slots := slots[slotId := EmptySlot];
      }
      reply := Succeeded;
    }

    /**
     * POST /api/loading-slots/:slotId/fill-from-cell. Statements 0-3 (read the
     * binding, debit the cell, fill the slot, insert the PENDING row) run in one
     * transaction; the actuator is called and the row finalised (statement 4)
     * before the commit (statement 5), so a fault at 4 or 5 rolls the tables
     * back after the command has already been attempted.
     */
    method FillFromCell(slotId: Id, cellId: Id, quantity: int, transport: ActuatorReply, fault: Fault)
        returns (reply: Reply)
      modifies this`cells, this`slots, this`ops, this`sent
      ensures baseUrl == old(baseUrl)
      ensures cellId == "" ==> reply == BadRequest(CellIdRequiredMessage) && unchanged(this)
      ensures cellId != "" && fault.Hits(0) ==> reply == ServerError && unchanged(this)
      ensures cellId != "" && !fault.Hits(0) && TakeFromCell(old(cells), cellId, quantity).Failure? ==>
                && reply == BadRequest(TakeErrorMessage(TakeFromCell(old(cells), cellId, quantity).error))
                && unchanged(this)
      ensures cellId != "" && TakeFromCell(old(cells), cellId, quantity).Success? && fault.HitsWithin(1, 3) ==>
                reply == ServerError && unchanged(this)
      ensures cellId != "" && TakeFromCell(old(cells), cellId, quantity).Success? && fault.HitsWithin(4, 5) ==>
                && reply == ServerError
                && cells == old(cells) && slots == old(slots) && ops == old(ops)
                && sent == old(sent) + Transmitted(baseUrl, MoveCommand(cellId, slotId))
      ensures cellId != "" && TakeFromCell(old(cells), cellId, quantity).Success? && !fault.HitsWithin(0, 5) ==>
                var t := TakeFromCell(old(cells), cellId, quantity).value;
                var d := Dispatch(baseUrl, transport);
                && reply == Moved(|old(ops)| + 1, d.ok, d.response)
                && cells == t.cells
                && slots == Overwrite(old(slots), slotId, Slot(Ready, Some(t.product), t.moved))
                && ops == old(ops) + [Finalize(MoveOperation(t.product, cellId, slotId), d)]
                && sent == old(sent) + Transmitted(baseUrl, MoveCommand(cellId, slotId))
      // what leaves the cells is what the target slot now holds
      ensures reply.Moved? && slotId in old(slots) ==> TotalStock(cells) + slots[slotId].quantity == TotalStock(old(cells))
      // no row written by this route is ever left PENDING
      ensures |old(ops)| <= |ops| && ops[..|old(ops)|] == old(ops)
      ensures forall i :: |old(ops)| <= i < |ops| ==> ops[i].status != Pending
      ensures old(Valid()) ==> Valid()
    {
      if cellId == "" {
        return BadRequest(CellIdRequiredMessage);
      }
      if fault.Hits(0) {
        return ServerError;
      }
      if cellId !in cells {
        return BadRequest(CellEmptyMessage);
      }
      var bound := cells[cellId];
      var moveQty := if quantity > 0 then quantity else bound.quantity;
      if moveQty > bound.quantity {
        return BadRequest(NotEnoughMessage);
      }
      TakeConservesTotal(cells, cellId, quantity);
      reply := MoveAndRecord(slotId, cellId, bound, moveQty, transport, fault);
    }

    /**
     * The writes of fill-from-cell once the binding `bound` of `cellId` is
     * known to cover `moveQty`: statements 1-5, with a rollback of all three
     * tables on any fault.
     */
    method MoveAndRecord(slotId: Id, cellId: Id, bound: Stock, moveQty: int, transport: ActuatorReply, fault: Fault)
        returns (reply: Reply)
      requires cellId in cells && cells[cellId] == bound && moveQty <= bound.quantity
      modifies this`cells, this`slots, this`ops, this`sent
      ensures fault.HitsWithin(1, 3) ==> reply == ServerError && unchanged(this)
      ensures fault.HitsWithin(4, 5) ==>
                && reply == ServerError
                && cells == old(cells) && slots == old(slots) && ops == old(ops)
                && sent == old(sent) + Transmitted(baseUrl, MoveCommand(cellId, slotId))
      ensures !fault.HitsWithin(1, 5) ==>
                var d := Dispatch(baseUrl, transport);
                && reply == Moved(|old(ops)| + 1, d.ok, d.response)
                && cells == (if moveQty == bound.quantity then old(cells) - {cellId}
                             else old(cells)[cellId := Stock(bound.product, bound.quantity - moveQty)])
                && slots == Overwrite(old(slots), slotId, Slot(Ready, Some(bound.product), moveQty))
                && ops == old(ops) + [Finalize(MoveOperation(bound.product, cellId, slotId), d)]
                && sent == old(sent) + Transmitted(baseUrl, MoveCommand(cellId, slotId))
    {
      // beginTransaction: what a rollback restores
      var cells0, slots0, ops0 := cells, slots, ops;

      if fault.Hits(1) {
        return ServerError;
      }
      if moveQty == bound.quantity {
        cells := cells - {cellId};
      } else {
        cells := cells[cellId := Stock(bound.product, bound.quantity - moveQty)];
      }

      if fault.Hits(2) {
        cells, slots, ops := cells0, slots0, ops0;
        return ServerError;
      }
      if slotId in slots {
        slots := slots[slotId := Slot(Ready, Some(bound.product), moveQty)];
      }

      var cmd := MoveCommand(cellId, slotId);
      if fault.Hits(3) {
        cells, slots, ops := cells0, slots0, ops0;
        return ServerError;
      }
      ops := ops + [MoveOperation(bound.product, cellId, slotId)];
      var id := |ops|;

      var outcome := SendCommand(cmd, transport);

      if fault.Hits(4) {
        cells, slots, ops := cells0, slots0, ops0;
        return ServerError;
      }
      ops := ops[id - 1 := Finalize(ops[id - 1], outcome)];

      // commit
      if fault.Hits(5) {
        cells, slots, ops := cells0, slots0, ops0;
        return ServerError;
      }
      reply := Moved(id, outcome.ok, outcome.response);
    }

    /**
     * Insert a PENDING row (statement 0), dispatch, then finalise it
     * (statement 1). There is no transaction: each statement commits alone,
     * so a fault at statement 1 leaves the row PENDING.
     */
    method Record(row: Operation, transport: ActuatorReply, fault: Fault) returns (reply: Reply)
      requires row.status == Pending
      modifies this`ops, this`sent
      ensures fault.Hits(0) ==> reply == ServerError && ops == old(ops) && sent == old(sent)
      ensures fault.Hits(1) ==>
                && reply == ServerError
                && ops == old(ops) + [row]
                && sent == old(sent) + Transmitted(baseUrl, row.cmd)
      ensures !fault.HitsWithin(0, 1) ==>
                var d := Dispatch(baseUrl, transport);
                && reply == Dispatched(|old(ops)| + 1, d.ok, d.response)
                && ops == old(ops) + [Finalize(row, d)]
                && sent == old(sent) + Transmitted(baseUrl, row.cmd)
    {
      if fault.Hits(0) {
        return ServerError;
      }
      ops := ops + [row];
      var id := |ops|;
      var outcome := SendCommand(row.cmd, transport);
      if fault.Hits(1) {
        return ServerError;
      }
      ops := ops[id - 1 := Finalize(ops[id - 1], outcome)];
      reply := Dispatched(id, outcome.ok, outcome.response);
    }

    /** POST /api/operations: an ad-hoc command recorded in the ledger and dispatched. */
    method SubmitOperation(opType: string, productId: Id, cellId: Id, slotId: Id, cmd: string,
                           transport: ActuatorReply, fault: Fault) returns (reply: Reply)
      modifies this`ops, this`sent
      ensures opType == "" || cmd == "" ==>
                reply == BadRequest(OpFieldsRequiredMessage) && ops == old(ops) && sent == old(sent)
      ensures opType != "" && cmd != "" ==>
                var row := PendingOperation(opType, OrNull(productId), OrNull(cellId), OrNull(slotId), cmd);
                var d := Dispatch(baseUrl, transport);
                && (fault.Hits(0) ==> reply == ServerError && ops == old(ops) && sent == old(sent))
                && (fault.Hits(1) ==> reply == ServerError && ops == old(ops) + [row])
                && (!fault.HitsWithin(0, 1) ==>
                      reply == Dispatched(|old(ops)| + 1, d.ok, d.response) && ops == old(ops) + [Finalize(row, d)])
                && (!fault.Hits(0) ==> sent == old(sent) + Transmitted(baseUrl, cmd))
      ensures old(Valid()) ==> Valid()
    {
      if opType == "" || cmd == "" {
        return BadRequest(OpFieldsRequiredMessage);
      }
      var row := PendingOperation(opType, OrNull(productId), OrNull(cellId), OrNull(slotId), cmd);
      reply := Record(row, transport, fault);
    }

    /** POST /api/auto/loading/start: no mode check on the server side. */
    method StartAutoLoading(transport: ActuatorReply, fault: Fault) returns (reply: Reply)
      modifies this`ops, this`sent
      ensures var row := PendingOperation(AutoLoading, None, None, None, AutoLoading);
              var d := Dispatch(baseUrl, transport);
              && (fault.Hits(0) ==> reply == ServerError && ops == old(ops) && sent == old(sent))
              && (fault.Hits(1) ==> reply == ServerError && ops == old(ops) + [row])
              && (!fault.HitsWithin(0, 1) ==>
                    reply == Dispatched(|old(ops)| + 1, d.ok, d.response) && ops == old(ops) + [Finalize(row, d)])
              && (!fault.Hits(0) ==> sent == old(sent) + Transmitted(baseUrl, AutoLoading))
      ensures old(Valid()) ==> Valid()
    {
      var row := PendingOperation(AutoLoading, None, None, None, AutoLoading);
      reply := Record(row, transport, fault);
    }
  }

  /** Relocation scenarios checked against the contracts above. */
  method RelocationScenarios(transport: ActuatorReply)
  {
    // All ten units move when no quantity is given; no controller is registered.
    var w := new Warehouse(map["C1" := Stock("P1", 10)], map["S1" := EmptySlot], []);
    var r := w.FillFromCell("S1", "C1", 0, transport, NoFault);
    assert "C1" !in w.cells;
    assert w.slots["S1"] == Slot(Ready, Some("P1"), 10);
    assert r == Moved(1, false, NotRegisteredMessage);
    assert |w.ops| == 1 && w.ops[0].status == Error && w.ops[0].errorMessage == Some(NotRegisteredMessage);
    assert w.ops[0].cmd == "MOVE_TO_LOADING cell=C1 slot=S1";
    assert w.sent == [];

    // Three of ten units move; the cell keeps seven.
    w := new Warehouse(map["C1" := Stock("P1", 10)], map["S1" := EmptySlot], []);
    r := w.FillFromCell("S1", "C1", 3, transport, NoFault);
    assert w.cells["C1"] == Stock("P1", 7);
    assert w.slots["S1"] == Slot(Ready, Some("P1"), 3);

    // An empty cell is refused and nothing is written.
    r := w.FillFromCell("S1", "C2", 0, transport, NoFault);
    assert r == BadRequest(CellEmptyMessage);
    assert |w.ops| == 1;

    // Asking for more than the cell holds is refused.
    r := w.FillFromCell("S1", "C1", 8, transport, NoFault);
    assert r == BadRequest(NotEnoughMessage);
    assert w.cells["C1"] == Stock("P1", 7);
  }

  /** A controller that registers later takes over every following command. */
  method RegistrationScenario(transport: ActuatorReply)
  {
    var w := new Warehouse(map[], map[], []);
    var r := w.Register("10.0.0.5");
    r := w.Register("10.0.0.9");
    assert BaseUrlFor("10.0.0.9") == "http://10.0.0.9";
    assert w.baseUrl == Some("http://10.0.0.9");
    r := w.StartAutoLoading(transport, NoFault);
    assert w.sent == [Transmission("http://10.0.0.9", AutoLoading)];
    assert r == Dispatched(1, transport.ok, transport.response);
    assert w.ops[0].status == (if transport.ok then Done else Error);
  }
}
