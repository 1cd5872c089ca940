/** Attempt numbers under interleavings: however the threads of however many replicas overlap,
    no two transactions of an order are stored with one number. */
module InterleavingAttempts {
  import opened Domain
  import opened Reference
  import opened Interleaving
  import opened Transactions

  /** The number a thread has taken and is about to store. */
  datatype Claim = Claim(orderId: string, attempt: nat)

  function ClaimOf(pc: Pc): Option<Claim> {
    match pc
    case Submitting(req, _, _, StoreTransaction(attempt, _)) => Some(Claim(req.orderId, attempt))
    case _ => None
  }

  /** Taken, and stored by nobody yet. */
  ghost predicate Unstored(s: Shared, c: Claim) {
    && 1 <= c.attempt <= AttemptsOf(s.attempts, c.orderId)
    && forall id :: id in s.txns && s.txns[id].orderId == c.orderId ==> s.txns[id].attemptNo != c.attempt
  }

  ghost predicate ClaimsOk(w: Global) {
    && (forall t :: t in w.threads && ClaimOf(w.threads[t].pc).Some? ==>
          Unstored(w.shared, ClaimOf(w.threads[t].pc).value))
    && (forall t, u :: t in w.threads && u in w.threads && t != u && ClaimOf(w.threads[t].pc).Some? ==>
          ClaimOf(w.threads[t].pc) != ClaimOf(w.threads[u].pc))
  }

  ghost predicate Inv(w: Global) {
    Numbered(w.shared.txns, w.shared.attempts) && ClaimsOk(w)
  }

  // ---------------------------------------------------------------- what a step does to the numbers

  /** Neither the numbers of the table nor the attempts change, and no number is taken. */
  ghost predicate Neutral(s: Shared, s': Shared, pc': Pc) {
    && s'.attempts == s.attempts
    && s'.txns.Keys == s.txns.Keys
    && (forall id :: id in s.txns ==>
          s'.txns[id].orderId == s.txns[id].orderId && s'.txns[id].attemptNo == s.txns[id].attemptNo)
    && ClaimOf(pc').None?
  }

  lemma CompleteIsNeutral(s: Shared, t: nat, input: CallbackInput)
    ensures var (s', pc') := CompleteStep(s, t, input);
            Neutral(s, s', pc')
  {
    hide Complete;
    CompletionKeepsNumbers(s.txns, input.transactionId, input.status, s.clock);
    CompletedTable(s, t, input);
  }

  lemma CompletedTable(s: Shared, t: nat, input: CallbackInput)
    ensures var txns := CompleteStep(s, t, input).0.txns;
            txns == s.txns || txns == Complete(s.txns, input.transactionId, input.status, s.clock).0
    ensures CompleteStep(s, t, input).0.attempts == s.attempts
  {
  }

  lemma PrepareIsNeutral(e: Env, s: Shared, r: nat, l: Loop, now: Time, prepare: PreparePc)
    requires l.i < |e.Gateways()|
    ensures var (s', pc') := PrepareStep(e, s, r, l, now, prepare);
            Neutral(s, s', pc')
  {
    hide Breaker.Prune, SetCache, Store, Ensure;
  }

  lemma RequestIsNeutral(e: Env, s: Shared, r: nat, t: nat, pc: Pc, choice: Choice)
    requires pc.Begin? || pc.Snapshotting? || pc.Looping? || pc.Choosing? || pc.ChoosingHealthy?
    ensures var (s', pc') := ThreadStep(e, s, t, r, pc, choice);
            Neutral(s, s', pc')
  {
    hide Draw, FilterExcluded, SetSnapshot, ExcludedNow;
  }

  lemma TokenIsNeutral(e: Env, s: Shared, r: nat, t: nat, pc: Pc, choice: Choice)
    requires pc.Probing? || pc.Compensating?
    ensures var (s', pc') := ThreadStep(e, s, t, r, pc, choice);
            Neutral(s, s', pc')
  {
    hide Breaker.Acquire, Breaker.Release, SetCache, SetSnapshot, StoreAcquired, StoreReleased;
  }

  lemma CallbackIsNeutral(e: Env, s: Shared, r: nat, t: nat, pc: Pc, choice: Choice)
    requires pc.Receiving? || pc.Completed? || pc.Settling? || pc.Blacklisting? || pc.Finished? || pc.Inspecting?
             || pc.Stopped?
    ensures var (s', pc') := ThreadStep(e, s, t, r, pc, choice);
            Neutral(s, s', pc')
  {
    hide Breaker.Release, Breaker.Evaluate, Breaker.Verdict, Breaker.Prune, ExpiryOf, WindowStats, EventsAfter,
         LogAfter, BlacklistStep, SetCache, Store, StoreReleased, Ensure;
  }

  lemma OthersAreNeutral(e: Env, s: Shared, r: nat, t: nat, pc: Pc, choice: Choice)
    requires !pc.Submitting?
    ensures var (s', pc') := ThreadStep(e, s, t, r, pc, choice);
            Neutral(s, s', pc')
  {
    hide Neutral, PrepareStep, CompleteStep;
    match pc
    case Preparing(l, now, prepare) =>
      if l.i < |e.Gateways()| {
        PrepareIsNeutral(e, s, r, l, now, prepare);
      } else {
        StoppedIsNeutral(s);
      }
    case Completing(input) => CompleteIsNeutral(s, t, input);
    case Probing(_, _, _, _) => TokenIsNeutral(e, s, r, t, pc, choice);
    case Compensating(_, _, _) => TokenIsNeutral(e, s, r, t, pc, choice);
    case Begin(_) => RequestIsNeutral(e, s, r, t, pc, choice);
    case Snapshotting(_, _) => RequestIsNeutral(e, s, r, t, pc, choice);
    case Looping(_) => RequestIsNeutral(e, s, r, t, pc, choice);
    case Choosing(_, _) => RequestIsNeutral(e, s, r, t, pc, choice);
    case ChoosingHealthy(_, _) => RequestIsNeutral(e, s, r, t, pc, choice);
    case _ => CallbackIsNeutral(e, s, r, t, pc, choice);
  }

  lemma StoppedIsNeutral(s: Shared)
    ensures Neutral(s, s, Stopped)
  {
  }

  // ---------------------------------------------------------------- the three kinds of step

  function Moved(w: Global, t: nat, s': Shared, pc': Pc): Global
    requires t in w.threads
  {
    Global(s', w.threads[t := w.threads[t].(pc := pc')])
  }

  lemma NeutralKeeps(w: Global, t: nat, s': Shared, pc': Pc)
    requires Inv(w) && t in w.threads && Neutral(w.shared, s', pc')
    ensures Inv(Moved(w, t, s', pc'))
  {
    var w' := Moved(w, t, s', pc');
    forall u | u in w'.threads && ClaimOf(w'.threads[u].pc).Some?
      ensures Unstored(s', ClaimOf(w'.threads[u].pc).value)
    {
      assert Unstored(w.shared, ClaimOf(w.threads[u].pc).value);
    }
  }

  /** PrepareAttempt with a client takes the next number. */
  lemma TakingKeeps(w: Global, t: nat, s': Shared, pc': Pc, o: string)
    requires Inv(w) && t in w.threads && ClaimOf(w.threads[t].pc).None?
    requires var next := AttemptsOf(w.shared.attempts, o) + 1;
             s' == w.shared.(attempts := w.shared.attempts[o := next]) && ClaimOf(pc') == Some(Claim(o, next))
    ensures Inv(Moved(w, t, s', pc'))
  {
    var w' := Moved(w, t, s', pc');
    forall u | u in w'.threads && ClaimOf(w'.threads[u].pc).Some?
      ensures Unstored(s', ClaimOf(w'.threads[u].pc).value)
      ensures u != t ==> ClaimOf(w'.threads[u].pc) != ClaimOf(pc')
    {
      if u != t {
        assert Unstored(w.shared, ClaimOf(w.threads[u].pc).value);
      }
    }
  }

  /** StoreTransaction turns the thread's number into that of a new transaction. */
  lemma StoringKeeps(w: Global, t: nat, s': Shared, pc': Pc, tx: Transaction)
    requires Inv(w) && t in w.threads && ClaimOf(w.threads[t].pc) == Some(Claim(tx.orderId, tx.attemptNo))
    requires tx.id !in w.shared.txns && s' == w.shared.(txns := w.shared.txns[tx.id := tx]) && ClaimOf(pc').None?
    ensures Inv(Moved(w, t, s', pc'))
  {
    var w' := Moved(w, t, s', pc');
    assert Unstored(w.shared, Claim(tx.orderId, tx.attemptNo));
    forall u | u in w'.threads && ClaimOf(w'.threads[u].pc).Some?
      ensures Unstored(s', ClaimOf(w'.threads[u].pc).value)
    {
      assert Unstored(w.shared, ClaimOf(w.threads[u].pc).value);
      assert ClaimOf(w.threads[t].pc) != ClaimOf(w.threads[u].pc);
    }
  }

  lemma SubmitKeeps(
      w: Global, t: nat, req: Request, c: GatewayConfig, asProbe: bool, submit: SubmitPc, choice: Choice)
    requires Inv(w) && t in w.threads && w.threads[t].pc == Submitting(req, c, asProbe, submit)
    ensures var (s', pc') := SubmitStep(w.shared, req, c, asProbe, submit, choice);
            Inv(Moved(w, t, s', pc'))
  {
    hide Inv;
    var s := w.shared;
    var (s', pc') := SubmitStep(s, req, c, asProbe, submit, choice);
    match submit
    case PrepareAttempt =>
      if choice.registered {
        TakingKeeps(w, t, s', pc', req.orderId);
      } else {
        NeutralKeeps(w, t, s', pc');
      }
    case StoreTransaction(attempt, now) =>
      if choice.accepted && req.tx !in s.txns {
        StoringKeeps(w, t, s', pc', Transaction(req.tx, req.orderId, attempt, c.name, Pending, now, now, None));
      } else {
        NeutralKeeps(w, t, s', pc');
      }
  }

  lemma AdvanceKeeps(e: Env, w: Global, t: nat, choice: Choice)
    requires Inv(w) && t in w.threads
    ensures Inv(Apply(e, w, Advance(t, choice)))
  {
    hide ThreadStep, Inv, SubmitStep, Neutral, Observed;
    var r, pc := w.threads[t].replica, w.threads[t].pc;
    var (s', pc') := ThreadStep(e, w.shared, t, r, pc, choice);
    if pc.Submitting? {
      SubmitKeeps(w, t, pc.req, pc.choice, pc.asProbe, pc.submit, choice);
      SubmitIsTheStep(e, w.shared, t, r, pc, choice);
    } else {
      OthersAreNeutral(e, w.shared, r, t, pc, choice);
      NeutralKeeps(w, t, s', pc');
    }
    ObservationKeeps(Moved(w, t, s', pc'));
  }

  lemma SubmitIsTheStep(e: Env, s: Shared, t: nat, r: nat, pc: Pc, choice: Choice)
    requires pc.Submitting?
    ensures ThreadStep(e, s, t, r, pc, choice) == SubmitStep(s, pc.req, pc.choice, pc.asProbe, pc.submit, choice)
  {
    hide SubmitStep;
  }

  lemma ObservationKeeps(w: Global)
    requires Inv(w)
    ensures Inv(w.(shared := Observed(w.shared)))
  {
    var w' := w.(shared := Observed(w.shared));
    forall u | u in w'.threads && ClaimOf(w'.threads[u].pc).Some?
      ensures Unstored(w'.shared, ClaimOf(w'.threads[u].pc).value)
    {
      assert Unstored(w.shared, ClaimOf(w.threads[u].pc).value);
    }
  }

  lemma TickKeeps(w: Global, to: Time)
    requires Inv(w)
    ensures Inv(w.(shared := w.shared.(clock := to)))
  {
    var w' := w.(shared := w.shared.(clock := to));
    forall u | u in w'.threads && ClaimOf(w'.threads[u].pc).Some?
      ensures Unstored(w'.shared, ClaimOf(w'.threads[u].pc).value)
    {
      assert Unstored(w.shared, ClaimOf(w.threads[u].pc).value);
    }
  }

  lemma ArriveKeeps(w: Global, t: nat, r: nat, call: Interleaving.Call)
    requires Inv(w) && t !in w.threads
    ensures Inv(w.(threads := w.threads[t := Thread(r, Start(call))]))
  {
  }

  lemma {:induction false} AlwaysInv(e: Env, actions: seq<Action>)
    ensures Inv(After(e, actions))
  {
    hide Inv, Observed, Start;
    if actions == [] {
      assert Inv(NEW_GLOBAL) by { NothingTaken(); }
    } else {
      var w, a := After(e, actions[..|actions| - 1]), actions[|actions| - 1];
      AlwaysInv(e, actions[..|actions| - 1]);
      match a
      case Tick(to) =>
        TickKeeps(w, to);
        ObservationKeeps(w.(shared := w.shared.(clock := to)));
      case Arrive(t, r, call) =>
        if t !in w.threads {
          ArriveKeeps(w, t, r, call);
        }
      case Advance(t, choice) =>
        if t in w.threads {
          AdvanceKeeps(e, w, t, choice);
        }
    }
  }

  lemma NothingTaken()
    ensures Inv(NEW_GLOBAL)
  {
  }

  /** After any interleaving no two stored transactions of an order share an attempt number, and
      each number lies between one and the order's attempts. */
  lemma NumbersAreUnique(e: Env, actions: seq<Action>, id: string, id': string)
    requires id in After(e, actions).shared.txns && id' in After(e, actions).shared.txns
    ensures var s := After(e, actions).shared;
            var tx, tx' := s.txns[id], s.txns[id'];
            && 1 <= tx.attemptNo && tx.orderId in s.attempts && tx.attemptNo <= s.attempts[tx.orderId]
            && (id != id' && tx.orderId == tx'.orderId ==> tx.attemptNo != tx'.attemptNo)
  {
    hide After;
    AlwaysInv(e, actions);
  }
}
