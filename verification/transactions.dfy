/** The transaction table: conditional insert and exactly-once completion, in memory and as
    the Redis script. */
module Transactions {
  import opened Domain

  type Table = map<string, Transaction>

  /** Save: conflict on an existing id (SETNX in Redis). */
  function Save(t: Table, tx: Transaction): (Table, Result<()>) {
    if tx.id in t then (t, Err(Conflict)) else (t[tx.id := tx], Ok(()))
  }

  datatype Completion = Completion(transaction: Transaction, changed: bool)

  function Finished(tx: Transaction, status: Status, now: Time): Transaction {
    tx.(status := status, updatedAt := now, completedAt := Some(now))
  }

  /** Complete of the memory repository. */
  function Complete(t: Table, id: string, status: Status, now: Time): (Table, Result<Completion>) {
    if !status.IsFinal() then (t, Err(InvalidStatus))
    else if id !in t then (t, Err(NotFound))
    else if t[id].status.IsFinal() then
      (t, if t[id].status == status then Ok(Completion(t[id], false)) else Err(Conflict))
    else
      var done := Finished(t[id], status, now);
      (t[id := done], Ok(Completion(done, true)))
  }

  datatype ScriptReply = Missing | Clash(current: Status) | Idempotent(tx: Transaction) | Changed(tx: Transaction)

  /** completeTransactionScript, one atomic step. */
  function Script(t: Table, id: string, status: Status, now: Time): (Table, ScriptReply) {
    if id !in t then (t, Missing)
    else
      var current := t[id].status;
      if current == Success || current == Failure then
        (t, if current == status then Idempotent(t[id]) else Clash(current))
      else
        var updated := Finished(t[id], status, now);
        (t[id := updated], Changed(updated))
  }

  /** What the Go wrapper makes of the script's reply. */
  function Decoded(reply: ScriptReply): Result<Completion> {
    match reply
    case Missing => Err(NotFound)
    case Clash(_) => Err(Conflict)
    case Idempotent(tx) => Ok(Completion(tx, false))
    case Changed(tx) => Ok(Completion(tx, true))
  }

  lemma ScriptAgrees(t: Table, id: string, status: Status, now: Time)
    requires status.IsFinal()
    ensures var (t', reply) := Script(t, id, status, now);
            Complete(t, id, status, now) == (t', Decoded(reply))
  {
  }

  // ---------------------------------------------------------------- runs

  datatype Call = Create(tx: Transaction) | Finish(id: string, status: Status, now: Time)

  function Step(t: Table, c: Call): (Table, Result<bool>) {
    match c
    case Create(tx) =>
      var (t', r) := Save(t, tx);
      (t', if r.Ok? then Ok(false) else Err(r.error))
    case Finish(id, status, now) =>
      var (t', r) := Complete(t, id, status, now);
      (t', if r.Ok? then Ok(r.value.changed) else Err(r.error))
  }

  function TableAfter(calls: seq<Call>): Table {
    if calls == [] then map[] else Step(TableAfter(calls[..|calls| - 1]), calls[|calls| - 1]).0
  }

  /** How often a completion of the id was reported as a change. */
  function Changes(calls: seq<Call>, id: string): nat {
    if calls == [] then 0
    else
      var rest, c := calls[..|calls| - 1], calls[|calls| - 1];
      Changes(rest, id) + if c.Finish? && c.id == id && Step(TableAfter(rest), c).1 == Ok(true) then 1 else 0
  }

  /** A transaction created as pending is completed exactly when it is final, and at most
      once, whatever creations and callbacks arrive in whatever order. */
  lemma {:induction false} CompletedAtMostOnce(calls: seq<Call>, id: string)
    requires forall c :: c in calls && c.Create? ==> c.tx.status == Pending
    ensures Changes(calls, id) <= 1
    ensures Changes(calls, id) == 1 <==> id in TableAfter(calls) && TableAfter(calls)[id].status.IsFinal()
  {
    if calls != [] {
      var rest, c := calls[..|calls| - 1], calls[|calls| - 1];
      assert c in calls;
      CompletedAtMostOnce(rest, id);
    }
  }

  /** A final status, once set, is the status for the rest of the run. */
  lemma {:induction false} FinalIsForever(calls: seq<Call>, n: nat, id: string)
    requires n <= |calls| && id in TableAfter(calls[..n]) && TableAfter(calls[..n])[id].status.IsFinal()
    ensures id in TableAfter(calls) && TableAfter(calls)[id] == TableAfter(calls[..n])[id]
  {
    if n == |calls| {
      assert calls[..n] == calls;
    } else {
      var rest := calls[..|calls| - 1];
      assert rest[..n] == calls[..n];
      FinalIsForever(rest, n, id);
    }
  }

  // ---------------------------------------------------------------- attempt numbers

  function AttemptsOf(attempts: map<string, nat>, o: string): nat {
    if o in attempts then attempts[o] else 0
  }

  /** Every stored transaction is numbered from one up to the attempts of its order, and no two
      of one order share a number. */
  ghost predicate Numbered(t: Table, attempts: map<string, nat>) {
    && (forall id :: id in t ==> 1 <= t[id].attemptNo <= AttemptsOf(attempts, t[id].orderId))
    && (forall id, id' :: id in t && id' in t && id != id' && t[id].orderId == t[id'].orderId ==>
          t[id].attemptNo != t[id'].attemptNo)
  }

  /** A number taken and not used. */
  lemma TakenStaysNumbered(t: Table, attempts: map<string, nat>, o: string)
    requires Numbered(t, attempts)
    ensures Numbered(t, attempts[o := AttemptsOf(attempts, o) + 1])
  {
  }

  /** A number taken by a new transaction. */
  lemma SavedStaysNumbered(t: Table, attempts: map<string, nat>, tx: Transaction)
    requires Numbered(t, attempts) && tx.id !in t && tx.attemptNo == AttemptsOf(attempts, tx.orderId) + 1
    ensures Numbered(t[tx.id := tx], attempts[tx.orderId := tx.attemptNo])
  {
  }

  lemma CompletionKeepsNumbers(t: Table, id: string, status: Status, now: Time)
    ensures var t' := Complete(t, id, status, now).0;
            && t'.Keys == t.Keys
            && forall x :: x in t ==> t'[x].orderId == t[x].orderId && t'[x].attemptNo == t[x].attemptNo
  {
  }

  lemma SameStaysNumbered(t: Table, t': Table, attempts: map<string, nat>)
    requires Numbered(t, attempts) && t'.Keys == t.Keys
    requires forall x :: x in t ==> t'[x].orderId == t[x].orderId && t'[x].attemptNo == t[x].attemptNo
    ensures Numbered(t', attempts)
  {
  }
}
