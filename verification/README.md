# Smart-warehouse relocation core, in Dafny

This project models the state-changing part of the warehouse server (`server.js`). The server keeps four pieces of state:

- `cell_products`: at most one product binding per storage cell.
- `loading_slots`: each outbound slot's status (`EMPTY`, `READY` or `RESERVED`), product and quantity.
- `operations`: an append-only ledger of commands. Each row is created `PENDING` and finalised to `DONE` or `ERROR`.
- The actuator (ESP32 controller) base address, set when the controller registers.

The route handlers that change this state are the methods of `Server.Warehouse`. The central one is `fill-from-cell`. In one database transaction it:

1. reads the cell's binding;
2. picks the move quantity;
3. deletes or decrements the binding;
4. overwrites the target slot as `READY`;
5. inserts a `PENDING` ledger row with the command `MOVE_TO_LOADING cell=<cell> slot=<slot>`;
6. calls the actuator;
7. finalises the row;
8. commits.

Any database error rolls the tables back.

Files:

- `wrappers.dfy`: `Option` and `Result`.
- `inventory.dfy` (module `Inventory`): stock bindings, slots, their invariants, the take-from-cell step, and the total-stock conservation lemmas.
- `ledger.dfy` (module `Ledger`): ledger rows, their one-shot finalisation, the move command and a reader for it.
- `gateway.dfy` (module `Gateway`): the registered address and the outcome of a dispatch.
- `server.dfy` (module `Server`): the `Warehouse` class, one method per route, and two client methods that replay the relocation and registration scenarios.

How the environment is modelled:

- **Actuator.** The HTTP exchange becomes a parameter `transport: ActuatorReply(ok, response)`. A thrown fetch error is a `transport` with `ok = false`. With no registered address, no request is made and the outcome is the fixed "not registered" refusal. The ghost field `sent` records every request attempted to a registered address, including one where the transport threw before anything left (server.js:57, 60-62).
- **Database errors.** They are a parameter `fault: Fault`. `FailAt(k)` makes the handler's k-th SQL statement throw, counting from 0 in the order the handler issues them. For `fill-from-cell` the statements are:
  - 0: select the binding;
  - 1: delete or update the binding;
  - 2: update the slot;
  - 3: insert the ledger row;
  - 4: update the ledger row;
  - 5: commit.
- **Request fields.** Ids are strings, and a falsy id is `""`. An absent `quantity` is 0, because all three routes treat a missing quantity exactly like 0.

Behaviour of server.js worth noting:

- **Commit timing.** In the code, the actuator call and the status update come before `commit`. So a successful fill commits the inventory change, the ledger row and its terminal status together. A row from this route is never left `PENDING`. A database fault at statement 4 or 5 rolls everything back after the command was already attempted. `FillFromCell`'s contract states this case.
- **Mode gate.** `/api/auto/loading/start` has no server-side mode check. `StartAutoLoading` has no mode input.
- **Quantity and existence checks.** Assign routes accept any quantity through `quantity || 1`, including negatives. They also do not check that the cell or product exists. So the positive-stock invariant is proved only for non-negative quantities.
- **Registration.** The stored address is `"http://" + ip`, not the value verbatim.

## Model

| member | source | states |
|---|---|---|
| `Inventory.DefaultQuantity` | server.js:165-170 | a falsy (0) quantity becomes 1, any other is kept; the result is never 0 and is positive for non-negative input |
| `Inventory.Overwrite` | server.js:318-323 | an UPDATE by slot id replaces exactly that slot when it exists, never creates one, leaves every other slot alone, and keeps slots well-formed when the new row is |
| `Inventory.TakeFromCell` | server.js:283-315 | fails "Cell is empty" iff the cell has no binding; fails "not enough" iff a positive request exceeds the binding; otherwise moves the request if positive else the whole binding, deletes the binding iff the move equals it, else keeps the product with `old - moved` (> 0); all other cells are untouched; positive stock stays positive and the move is positive |
| `Inventory.TakeConservesTotal` | server.js:305-315 | the sum of all bound quantities drops by exactly the moved quantity |
| `Inventory.UnknownSlotLosesStock` | server.js:305-323 | when the slot id names no slot, the slot table is untouched yet the cells' total still drops: assuming `operations.loading_slot_id` has no foreign key (so the INSERT at line 327 succeeds), the moved stock arrives nowhere |
| `Ledger.OrNull` | server.js:397 | an optional reference column is NULL exactly when the request field is falsy |
| `Ledger.PendingOperation` | server.js:395-398 | an inserted row is PENDING with no outcome columns, carrying the given type, references and command |
| `Ledger.MoveCommand` | server.js:326 | the command is `MOVE_TO_LOADING cell=`, then the cell id, then ` slot=`, then the slot id, each at a fixed position |
| `Ledger.MoveOperation` | server.js:326-331 | fill-from-cell's row is a PENDING `MOVE_TO_LOADING_ZONE` row referencing product, cell and slot with the move command |
| `Ledger.Finalize` | server.js:336-346 | the row leaves PENDING; DONE iff the actuator accepted (completion time set), otherwise ERROR with the response as message; no other column changes |
| `Ledger.ParseMoveCommand` | server.js:326 | a reference inverse of the line-326 command (server.js never parses it): whatever it reads back, re-composed, gives the command it read, with a space-free cell id |
| `Ledger.MoveCommandRoundTrip` | server.js:326 | the move command gives back its cell and slot ids exactly when the cell id contains no space |
| `Gateway.BaseUrlFor` | server.js:86 | the stored address is `http://` followed by the registered ip |
| `Gateway.Dispatch` | server.js:45-63 | never accepted without a registered address, in which case the response is the fixed "not registered" text; otherwise the transport's outcome passes through unchanged |
| `Gateway.Transmitted` | server.js:46-57 | a dispatch attempts one request to the registered address, or none when unregistered |
| `Server.TakeErrorMessage` | server.js:291-302 | "Cell is empty" exactly for a missing binding and "Not enough quantity in cell" exactly for a request larger than the binding |
| `Server.Warehouse.constructor` | server.js:17 | the process starts with no actuator address and nothing sent |
| `Server.Warehouse.Register` | server.js:80-90 | an empty ip is refused and changes nothing; otherwise the address is overwritten with `http://ip` (last registration wins) |
| `Server.Warehouse.SendCommand` | server.js:45-64 | the outcome is `Dispatch` of the current address; a request is attempted only when registered |
| `Server.Warehouse.AssignCell` | server.js:154-179 | a missing product id or a database error changes nothing; otherwise the binding is upserted with the defaulted quantity; positive stock is kept for non-negative quantities |
| `Server.Warehouse.ClearCell` | server.js:182-195 | the binding is deleted (no error when absent) unless the database fails |
| `Server.Warehouse.AssignSlot` | server.js:221-245 | a missing product id or a database error changes nothing; otherwise an existing slot becomes READY with the product and defaulted quantity |
| `Server.Warehouse.ClearSlot` | server.js:248-266 | an existing slot becomes EMPTY with no product and quantity 0 unless the database fails |
| `Server.Warehouse.FillFromCell` | server.js:269-357 | a falsy cell id, an empty cell or too large a request is refused with nothing changed; a database fault rolls back cells, slots and ledger (after statement 3, the command has already been attempted); on success the cells, slot and ledger are exactly the take, the READY overwrite and one appended finalised row, the cells lose what the slot now holds, and no row it writes is left PENDING |
| `Server.Warehouse.MoveAndRecord` | server.js:304-352 | the transactional writes of fill-from-cell: a fault at statements 1-3 changes nothing, at 4-5 restores the tables after dispatch, otherwise delete-or-decrement, slot overwrite, and one finalised row |
| `Server.Warehouse.Record` | server.js:395-421 | insert PENDING, dispatch, finalise; a fault on the insert changes nothing, a fault on the update leaves the row PENDING after the command was attempted |
| `Server.Warehouse.SubmitOperation` | server.js:385-422 | a missing `op_type` or `cmd` is refused with nothing changed; otherwise one row with NULL for falsy references is appended and finalised to DONE/ERROR by the dispatch |
| `Server.Warehouse.StartAutoLoading` | server.js:425-457 | without any mode check, appends one `AUTO_LOADING` row and finalises it by the dispatch of `AUTO_LOADING` |

## Left out

- HTTP transport: the request to the actuator, `encodeURIComponent` and reading the response body are replaced by the `transport` parameter.
- `/api/cmd`, the direct pass-through dispatch, is not part of this model. It writes no table.
- Read-only routes are not part of this model: `/api/cells`, `/api/products`, `/api/loading-slots` and `/api/operations`, with their joins, ordering and the 50-row limit.
- Product creation (`POST /api/products`) is not part of this model.
- The browser client (`app.js`), including its manual/automatic mode toggle, is not part of this model.
- Express routing, static files, the pass-through auth middleware and logging are not modelled.
- Clocks: `created_at` and `completed_at` values are not modelled. `completed` records only whether `completed_at` was set.
- Operation ids are the 1-based ledger position. MySQL auto-increment gaps are not modelled.
- The `cells` and `products` tables are not modelled. The model takes `cell_products.cell_id` and the product references to be foreign keys, so an assign naming a missing cell or product fails as a database error (the `fault` parameter). Without that key the binding would be stored, but fill-from-cell's JOIN with `cells` (server.js:286) would not see it and would answer "Cell is empty", whereas `FillFromCell` would move the stock.
- The schema is not part of this model, so whether `operations.loading_slot_id` references `loading_slots` is unknown. The model takes it to have no foreign key, so filling an unknown slot id commits. If the key exists, that INSERT fails and the whole fill rolls back, which is the `FailAt(3)` case of `FillFromCell`.
- Concurrency between requests, such as two fills racing on one cell, is outside this sequential model.
- JavaScript coercion is not modelled: numeric ids, string quantities, and `===` between a string and a number. Quantities are integers.
