/**
 * The `operations` table: one row per relocation or command attempt, created
 * PENDING and finalised once to DONE or ERROR from the actuator's reply, and
 * the command string a relocation sends to the actuator.
 */
module Ledger {
  import opened Wrappers
  import opened Inventory
  import opened Gateway

  datatype OpStatus = Pending | Done | Error

  /**
   * One `operations` row. `completed` stands for `completed_at` being set;
   * the timestamps' values come from the database clock and are not modelled.
   */
  datatype Operation = Operation(
    opType: string,
    productId: Option<Id>,
    cellId: Option<Id>,
    slotId: Option<Id>,
    cmd: string,
    status: OpStatus,
    errorMessage: Option<string>,
    completed: bool)

  /** A PENDING row has no outcome yet; DONE has a completion time; ERROR has a message. */
  ghost predicate OperationWellFormed(op: Operation) {
    match op.status
    case Pending => !op.completed && op.errorMessage.None?
    case Done => op.completed && op.errorMessage.None?
    case Error => !op.completed && op.errorMessage.Some?
  }

  ghost predicate LedgerWellFormed(ops: seq<Operation>) {
    forall i :: 0 <= i < |ops| ==> OperationWellFormed(ops[i])
  }

  /** The `x || null` of an optional reference column. */
  function OrNull(id: Id): (r: Option<Id>)
    ensures r.None? <==> id == ""
    ensures r.Some? ==> r.value == id
  {
    if id == "" then None else Some(id)
  }

  /** The row as inserted: PENDING, no outcome columns set. */
  function PendingOperation(opType: string, productId: Option<Id>, cellId: Option<Id>, slotId: Option<Id>, cmd: string): (op: Operation)
    ensures op.status == Pending && OperationWellFormed(op)
    ensures op.opType == opType && op.cmd == cmd
    ensures op.productId == productId && op.cellId == cellId && op.slotId == slotId
  {
    Operation(opType, productId, cellId, slotId, cmd, Pending, None, false)
  }

  const MoveOpType := "MOVE_TO_LOADING_ZONE"
  const MovePrefix := "MOVE_TO_LOADING cell="
  const SlotTag := " slot="

  /** The command a relocation from `cellId` to `slotId` sends to the actuator. */
  function MoveCommand(cellId: Id, slotId: Id): (c: string)
    ensures |c| == |MovePrefix| + |cellId| + |SlotTag| + |slotId|
    ensures c[..|MovePrefix|] == MovePrefix
    ensures c[|MovePrefix|..|MovePrefix| + |cellId|] == cellId
    ensures c[|MovePrefix| + |cellId|..|MovePrefix| + |cellId| + |SlotTag|] == SlotTag
    ensures c[|MovePrefix| + |cellId| + |SlotTag|..] == slotId
  {
    MovePrefix + cellId + SlotTag + slotId
  }

  /** The row fill-from-cell inserts for a move of `product` from `cellId` into `slotId`. */
  function MoveOperation(product: Id, cellId: Id, slotId: Id): (op: Operation)
    ensures op.status == Pending && OperationWellFormed(op)
    ensures op.opType == MoveOpType && op.cmd == MoveCommand(cellId, slotId)
    ensures op.productId == Some(product) && op.cellId == Some(cellId) && op.slotId == Some(slotId)
  {
    PendingOperation(MoveOpType, Some(product), Some(cellId), Some(slotId), MoveCommand(cellId, slotId))
  }

  /**
   * The status UPDATE after dispatch: DONE with a completion time when the
   * actuator accepted, otherwise ERROR carrying the actuator's response.
   * Only the outcome columns change.
   */
  function Finalize(op: Operation, reply: ActuatorReply): (f: Operation)
    requires op.status == Pending
    ensures f.status != Pending
    ensures f.status == Done <==> reply.ok
    ensures f.status == Done ==> f.completed
    ensures f.status == Error ==> f.errorMessage == Some(reply.response)
    ensures f.(status := op.status, errorMessage := op.errorMessage, completed := op.completed) == op
    ensures OperationWellFormed(op) ==> OperationWellFormed(f)
  {
    if reply.ok then op.(status := Done, completed := true)
    else op.(status := Error, errorMessage := Some(reply.response))
  }

  /** Position of the first `ch` in `s`, or `|s|` when there is none. */
  function IndexOf(s: string, ch: char): (i: nat)
    ensures i <= |s|
    ensures i < |s| ==> s[i] == ch
    ensures forall k :: 0 <= k < i ==> s[k] != ch
  {
    if s == [] then 0
    else if s[0] == ch then 0
    else 1 + IndexOf(s[1..], ch)
  }

  /**
   * Reads a move command back into its cell and slot ids: the cell id runs
   * up to the first space, the slot id is everything after " slot=".
   */
  function ParseMoveCommand(cmd: string): (r: Option<(Id, Id)>)
    ensures r.Some? ==> ' ' !in r.value.0 && cmd == MoveCommand(r.value.0, r.value.1)
  {
    if |cmd| < |MovePrefix| || cmd[..|MovePrefix|] != MovePrefix then None
    else
      var rest := cmd[|MovePrefix|..];
      var i := IndexOf(rest, ' ');
      var tail := rest[i..];
      if |tail| < |SlotTag| || tail[..|SlotTag|] != SlotTag then None
      else
        assert cmd == MovePrefix + rest[..i] + SlotTag + tail[|SlotTag|..];
        Some((rest[..i], tail[|SlotTag|..]))
  }

  /**
   * The command string identifies its cell and slot exactly when the cell id
   * holds no space; a cell id with a space makes the text ambiguous.
   */
  lemma MoveCommandRoundTrip(cellId: Id, slotId: Id)
    ensures ParseMoveCommand(MoveCommand(cellId, slotId)) == Some((cellId, slotId)) <==> ' ' !in cellId
  {
    var cmd := MoveCommand(cellId, slotId);
    if ' ' !in cellId {
      assert cmd[..|MovePrefix|] == MovePrefix;
      var rest := cmd[|MovePrefix|..];
      assert rest == cellId + SlotTag + slotId;
      var i := IndexOf(rest, ' ');
      assert rest[|cellId|] == ' ';
      assert forall k :: 0 <= k < |cellId| ==> rest[k] == cellId[k];
      assert i == |cellId|;
      assert rest[..i] == cellId;
      assert rest[i..] == SlotTag + slotId;
    }
  }
}
