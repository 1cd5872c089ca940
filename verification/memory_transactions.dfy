/** The memory transaction repository (internal/adapters/repository/memory/transaction_repository.go). */
module MemoryTransactions {
  import opened Domain
  import Reference
  import Transactions

  class TransactionRepository {
    var transactions: Transactions.Table
    var attempts: map<string, nat>

    constructor ()
      ensures transactions == map[] && attempts == map[]
    {
      transactions, attempts := map[], map[];
    }

    method NextAttempt(o: string) returns (attempt: nat)
      modifies this`attempts
      ensures attempt == Reference.NextAttempt(old(attempts), o) && attempts == old(attempts)[o := attempt]
      ensures attempt == if o in old(attempts) then old(attempts)[o] + 1 else 1
    {
      attempts := attempts[o := (if o in attempts then attempts[o] else 0) + 1];
      attempt := attempts[o];
    }

    method Save(tx: Transaction) returns (r: Result<()>)
      modifies this`transactions
      ensures (transactions, r) == Transactions.Save(old(transactions), tx)
    {
      if tx.id in transactions {
        return Err(Conflict);
      }
      transactions := transactions[tx.id := tx];
      r := Ok(());
    }

    method GetByID(id: string) returns (r: Result<Transaction>)
      ensures r == if id in transactions then Ok(transactions[id]) else Err(NotFound)
    {
      if id !in transactions {
        return Err(NotFound);
      }
      r := Ok(transactions[id]);
    }

    method Complete(id: string, status: Status, completedAt: Time) returns (r: Result<Transactions.Completion>)
      modifies this`transactions
      ensures (transactions, r) == Transactions.Complete(old(transactions), id, status, completedAt)
    {
      if !status.IsFinal() {
        return Err(InvalidStatus);
      }
      if id !in transactions {
        return Err(NotFound);
      }
      var transaction := transactions[id];
      if transaction.status.IsFinal() {
        if transaction.status == status {
          return Ok(Transactions.Completion(transaction, false));
        }
        return Err(Conflict);
      }
      transaction := transaction.(status := status);
      transaction := transaction.(updatedAt := completedAt);
      transaction := transaction.(completedAt := Some(completedAt));
      transactions := transactions[id := transaction];
      r := Ok(Transactions.Completion(transaction, true));
    }
  }
}
