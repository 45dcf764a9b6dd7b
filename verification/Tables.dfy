/** The payment tables as the repositories see them: statements that insert and
    update rows in place, with their WHERE guards and unique constraints. */
module Tables {
  import opened Model

  /** What a statement reports.  Any statement may fail, and one that writes may
      have taken effect although it reports a failure. */
  datatype DbResult<+T> = Ok(value: T) | NoRow | UniqueViolation | Failure

  class Database {
    var invoices: map<Uuid, Invoice>
    var attempts: map<Uuid, Attempt>
    var keys: map<KeyId, KeyRow>
    var outbox: map<EventKey, Attempt>
    var inbound: map<Uuid, InboundStatus>

    /** How many statements and commits have reported a failure so far. */
    ghost var faults: nat

    function Rows(): Db
      reads this
    {
      Db(invoices, attempts, keys, outbox, inbound)
    }

    /** Other sessions commit what such sessions may. */
    method OthersCommit()
      modifies this
      ensures DbGrows(old(Rows()), Rows()) && old(inbound).Keys <= inbound.Keys && faults == old(faults)
    {
      var rows: Db := *;
      if DbGrows(Rows(), rows) && inbound.Keys <= rows.inbound.Keys {
        Rollback(rows);
      }
    }

    /** Put the rows back. */
    method Rollback(to: Db)
      modifies this
      ensures Rows() == to && faults == old(faults)
    {
      invoices, attempts, keys, outbox, inbound := to.invoices, to.attempts, to.keys, to.outbox, to.inbound;
    }

    /** Commits.  A failing commit has taken effect, or lost everything since `begun`. */
    method Commit(begun: Db) returns (ok: bool)
      modifies this
      ensures Rows() == old(Rows()) || (!ok && Rows() == begun)
      ensures faults == if ok then old(faults) else old(faults) + 1
    {
      ok := *;
      var lost: bool := *;
      if !ok && lost {
        Rollback(begun);
      }
      faults := if ok then faults else faults + 1;
    }

    // ---------------------------------------------------------------- invoices

    /** SELECT ... FOR UPDATE.  Others commit while it waits for the row. */
    method LockInvoice(id: Uuid) returns (r: DbResult<Invoice>)
      modifies this
      ensures DbGrows(old(Rows()), Rows()) && old(inbound).Keys <= inbound.Keys
      ensures r.Ok? ==> id in invoices && invoices[id] == r.value
      ensures r.NoRow? ==> id !in invoices
      ensures !r.UniqueViolation?
      ensures faults == if r.Failure? then old(faults) + 1 else old(faults)
    {
      OthersCommit();
      var fails: bool := *;
      r := if fails then Failure else if id in invoices then Ok(invoices[id]) else NoRow;
      faults := if r.Failure? then faults + 1 else faults;
    }

    method UpdateInvoiceStatus(id: Uuid, status: InvoiceStatus) returns (ok: bool)
      modifies this`invoices, this`faults
      ensures || (!ok && invoices == old(invoices))
              || invoices == if id in old(invoices) then old(invoices)[id := old(invoices)[id].(status := status)]
                             else old(invoices)
      ensures faults == if ok then old(faults) else old(faults) + 1
    {
      ok := *;
      var done: bool := *;
      if (ok || done) && id in invoices {
        invoices := invoices[id := invoices[id].(status := status)];
      }
      faults := if ok then faults else faults + 1;
    }

    method MarkInvoicePaidIfOpen(id: Uuid) returns (ok: bool)
      modifies this`invoices, this`faults
      ensures (!ok && invoices == old(invoices)) || invoices == MarkPaidIfOpen(old(Rows()), id)
      ensures faults == if ok then old(faults) else old(faults) + 1
    {
      ok := *;
      var done: bool := *;
      if (ok || done) && id in invoices && invoices[id].status in {Draft, Open} {
        invoices := invoices[id := invoices[id].(status := Paid)];
      }
      faults := if ok then faults else faults + 1;
    }

    // ---------------------------------------------------------------- idempotency keys

    method GetByKey(key: KeyId) returns (r: DbResult<KeyRow>)
      modifies this`faults
      ensures r.Ok? ==> key in keys && keys[key] == r.value
      ensures r.NoRow? ==> key !in keys
      ensures !r.UniqueViolation?
      ensures faults == if r.Failure? then old(faults) + 1 else old(faults)
    {
      var fails: bool := *;
      r := if fails then Failure else if key in keys then Ok(keys[key]) else NoRow;
      faults := if r.Failure? then faults + 1 else faults;
    }

    method CreateKey(key: KeyId, row: KeyRow) returns (r: DbResult<()>)
      modifies this`keys, this`faults
      ensures r.Ok? ==> key !in old(keys) && keys == old(keys)[key := row]
      ensures r.UniqueViolation? ==> key in old(keys)
      ensures !r.Ok? ==> keys == old(keys) || (r.Failure? && key !in old(keys) && keys == old(keys)[key := row])
      ensures !r.NoRow?
      ensures faults == if r.Failure? then old(faults) + 1 else old(faults)
    {
      var fails: bool := *;
      var done: bool := *;
      r := if fails then Failure else if key in keys then UniqueViolation else Ok(());
      if key !in keys && (!fails || done) {
        keys := keys[key := row];
      }
      faults := if r.Failure? then faults + 1 else faults;
    }

    // ---------------------------------------------------------------- payment attempts

    method GetAttempt(id: Uuid) returns (r: DbResult<Attempt>)
      modifies this`faults
      ensures r.Ok? ==> id in attempts && attempts[id] == r.value
      ensures r.NoRow? ==> id !in attempts
      ensures !r.UniqueViolation?
      ensures faults == if r.Failure? then old(faults) + 1 else old(faults)
    {
      var fails: bool := *;
      r := if fails then Failure else if id in attempts then Ok(attempts[id]) else NoRow;
      faults := if r.Failure? then faults + 1 else faults;
    }

    method GetPendingByInvoice(invoice: Uuid) returns (r: DbResult<Attempt>)
      modifies this`faults
      ensures r.Ok? ==> PendingOn(Rows(), invoice)
      ensures r.Ok? ==> exists a :: a in attempts && attempts[a] == r.value
      ensures r.Ok? ==> r.value.invoice == invoice && r.value.status.Pending?
      ensures r.NoRow? ==> !PendingOn(Rows(), invoice)
      ensures !r.UniqueViolation?
      ensures faults == if r.Failure? then old(faults) + 1 else old(faults)
    {
      var fails: bool := *;
      if fails {
        r := Failure;
      } else if a :| a in attempts && attempts[a].invoice == invoice && attempts[a].status.Pending? {
        r := Ok(attempts[a]);
      } else {
        r := NoRow;
      }
      faults := if r.Failure? then faults + 1 else faults;
    }

    /** The primary key and the partial index on pending attempts are unique. */
    method CreateAttempt(id: Uuid, row: Attempt) returns (r: DbResult<()>)
      modifies this`attempts, this`faults
      ensures r.Ok? ==> id !in old(attempts) && attempts == old(attempts)[id := row]
      ensures r.Ok? && row.status.Pending? ==> !PendingOn(old(Rows()), row.invoice)
      ensures r.UniqueViolation? ==> id in old(attempts) || (row.status.Pending? && PendingOn(old(Rows()), row.invoice))
      ensures !r.Ok? ==>
                || attempts == old(attempts)
                || (r.Failure? && id !in old(attempts) && attempts == old(attempts)[id := row])
      ensures !r.NoRow?
      ensures faults == if r.Failure? then old(faults) + 1 else old(faults)
    {
      var fails: bool := *;
      var done: bool := *;
      var taken := id in attempts || (row.status.Pending? && PendingOn(Rows(), row.invoice));
      r := if fails then Failure else if taken then UniqueViolation else Ok(());
      if !taken && (!fails || done) {
        attempts := attempts[id := row];
      }
      faults := if r.Failure? then faults + 1 else faults;
    }

    /** Whether a row was updated. */
    method UpdateAttemptIfPending(id: Uuid, status: AttemptStatus, ref: Option<Uuid>, code: Option<FailureCode>)
      returns (r: DbResult<bool>)
      modifies this`attempts, this`faults
      ensures r.Ok? || r.Failure?
      ensures r.Ok? ==> (r.value <==> id in old(attempts) && old(attempts)[id].status.Pending?)
      ensures || (r.Failure? && attempts == old(attempts))
              || attempts == if id in old(attempts) && old(attempts)[id].status.Pending?
                             then old(attempts)[
                                    id := old(attempts)[id].(status := status, pspRef := ref, failureCode := code)]
                             else old(attempts)
      ensures faults == if r.Failure? then old(faults) + 1 else old(faults)
    {
      var fails: bool := *;
      var done: bool := *;
      var hit := id in attempts && attempts[id].status.Pending?;
      r := if fails then Failure else Ok(hit);
      if hit && (!fails || done) {
        attempts := attempts[id := attempts[id].(status := status, pspRef := ref, failureCode := code)];
      }
      faults := if r.Failure? then faults + 1 else faults;
    }

    // ---------------------------------------------------------------- outbox and inbound events

    /** ON CONFLICT DO NOTHING. */
    method CreateEvent(key: EventKey, payload: Attempt) returns (ok: bool)
      modifies this`outbox, this`faults
      ensures (!ok && outbox == old(outbox)) || outbox == Enqueue(old(Rows()), key, payload)
      ensures faults == if ok then old(faults) else old(faults) + 1
    {
      ok := *;
      var done: bool := *;
      if (ok || done) && key !in outbox {
        outbox := outbox[key := payload];
      }
      faults := if ok then faults else faults + 1;
    }

    method CreateInbound(event: Uuid) returns (r: DbResult<()>)
      modifies this`inbound, this`faults
      ensures r.Ok? ==> event !in old(inbound) && inbound == old(inbound)[event := InPending]
      ensures r.UniqueViolation? ==> event in old(inbound)
      ensures !r.Ok? ==>
                || inbound == old(inbound)
                || (r.Failure? && event !in old(inbound) && inbound == old(inbound)[event := InPending])
      ensures !r.NoRow?
      ensures faults == if r.Failure? then old(faults) + 1 else old(faults)
    {
      var fails: bool := *;
      var done: bool := *;
      r := if fails then Failure else if event in inbound then UniqueViolation else Ok(());
      if event !in inbound && (!fails || done) {
        inbound := inbound[event := InPending];
      }
      faults := if r.Failure? then faults + 1 else faults;
    }

    method GetInbound(event: Uuid) returns (r: DbResult<InboundStatus>)
      modifies this`faults
      ensures r.Ok? ==> event in inbound && inbound[event] == r.value
      ensures r.NoRow? ==> event !in inbound
      ensures !r.UniqueViolation?
      ensures faults == if r.Failure? then old(faults) + 1 else old(faults)
    {
      var fails: bool := *;
      r := if fails then Failure else if event in inbound then Ok(inbound[event]) else NoRow;
      faults := if r.Failure? then faults + 1 else faults;
    }

    method MarkInbound(event: Uuid, status: InboundStatus) returns (ok: bool)
      modifies this`inbound, this`faults
      ensures || (!ok && inbound == old(inbound))
              || inbound == if event in old(inbound) then old(inbound)[event := status] else old(inbound)
      ensures faults == if ok then old(faults) else old(faults) + 1
    {
      ok := *;
      var done: bool := *;
      if (ok || done) && event in inbound {
        inbound := inbound[event := status];
      }
      faults := if ok then faults else faults + 1;
    }
  }
}
