/** List order: the rows of a transfer are locked in the order of its sorted list. Freedom from deadlock then follows
    from the exact condition in LockRings; without the order a concrete run gets stuck. */
module LockOrder {
  import opened Wrappers
  import opened Bank
  import opened Interleaving
  import opened LockWaits
  import opened LockRings
  import Money

  ghost predicate Wanting(s: State, sys: WalletId, i: TxnId) {
    i in s.txns && Wants(s.txns[i], sys).Some?
  }

  /** Each transaction in the ring waits for the next one. */
  ghost predicate WaitCycle(s: State, sys: WalletId, ring: seq<TxnId>) {
    && ring != []
    && (forall k :: 0 <= k < |ring| - 1 ==> WaitsFor(s, sys, ring[k], ring[k + 1]))
    && WaitsFor(s, sys, ring[|ring| - 1], ring[0])
  }

  ghost predicate AllOrdered(s: State, sys: WalletId) {
    forall i :: i in s.txns ==> HeldBeforeWanted(s.txns[i], sys)
  }

  lemma SortedIsStrict(db: Db, sys: WalletId, req: Request)
    requires Good(db, sys) && Shaped(db, req)
    ensures var list := SortedWallets(req, sys);
            && list[0] < list[1] < list[2]
            && WalletsToLock(req, sys) == {WalletRow(list[0]), WalletRow(list[1]), WalletRow(list[2])}
  {
    assert req.sender != sys && req.receiver != sys;
  }

  /** A transfer still locking holds an initial part of its sorted list and wants the next row of it. */
  lemma LockIsOrdered(db: Db, sys: WalletId, t: Txn, req: Request)
    requires Good(db, sys) && TransferKnows(db, sys, t, req) && t.op == Transfer(req) && t.pc == LockRows
    requires HeldBeforeWanted(t, sys)
    ensures var w := NextToLock(req, sys, t.held);
            && w in db.wallets && WalletRow(w) in WalletsToLock(req, sys) - t.held
            && HeldBeforeWanted(AfterLock(t, sys, w), sys)
  {
    SortedIsStrict(db, sys, req);
  }

  lemma BeginIsOrdered(s: State, sys: WalletId, i: TxnId, op: Op)
    requires AllOrdered(s, sys) && CanBegin(s, i, op)
    ensures AllOrdered(Next(s, sys, Begin(i, op)), sys)
  {
    assert HeldBeforeWanted(Start(op), sys);
  }

  lemma ContinuedIsOrdered(s: State, sys: WalletId, opening: Db, i: TxnId, t: Txn)
    requires Inv(s, sys, opening) && i in s.txns && Statement(s.db, sys, s.txns[i], Busy(s, i)) == Continue(t)
    ensures HeldBeforeWanted(t, sys)
  {
    StatementKnows(s, sys, opening, i);
    StatementLeavesLocking(s.db, sys, s.txns[i], Busy(s, i));
    KnowingIsOrdered(s.db, sys, t);
  }

  // What a step with outcome `r` does to the transactions in flight.
  ghost predicate Turns(s: State, s': State, i: TxnId, r: Outcome)
    requires i in s.txns
  {
    match r
    case Continue(t) => s'.txns == s.txns[i := t]
    case Blocked => s' == s
    case _ => s'.txns == s.txns - {i}
  }

  lemma StepTurns(s: State, sys: WalletId, i: TxnId)
    requires i in s.txns
    ensures Turns(s, Next(s, sys, Step(i)), i, Statement(s.db, sys, s.txns[i], Busy(s, i)))
  {}

  lemma TurnIsOrdered(s: State, s': State, sys: WalletId, i: TxnId, r: Outcome)
    requires i in s.txns && Turns(s, s', i, r) && AllOrdered(s, sys) && (r.Continue? ==> HeldBeforeWanted(r.txn, sys))
    ensures AllOrdered(s', sys)
  {}

  lemma OutcomeIsOrdered(s: State, sys: WalletId, opening: Db, i: TxnId, r: Outcome)
    requires Inv(s, sys, opening) && i in s.txns && r == Statement(s.db, sys, s.txns[i], Busy(s, i))
    ensures r.Continue? ==> HeldBeforeWanted(r.txn, sys)
  {
    if r.Continue? { ContinuedIsOrdered(s, sys, opening, i, r.txn); }
  }

  lemma StepIsOrdered(s: State, sys: WalletId, opening: Db, i: TxnId)
    requires Inv(s, sys, opening) && AllOrdered(s, sys) && i in s.txns
    ensures AllOrdered(Next(s, sys, Step(i)), sys)
  {
    var r := Statement(s.db, sys, s.txns[i], Busy(s, i));
    StepTurns(s, sys, i);
    OutcomeIsOrdered(s, sys, opening, i, r);
    TurnIsOrdered(s, Next(s, sys, Step(i)), sys, i, r);
  }

  lemma NextIsOrdered(s: State, sys: WalletId, opening: Db, a: Action)
    requires Inv(s, sys, opening) && AllOrdered(s, sys) && InListOrder(s, sys, a)
    ensures AllOrdered(Next(s, sys, a), sys)
  {
    match a
    case Begin(i, op) => if CanBegin(s, i, op) { BeginIsOrdered(s, sys, i, op); }
    case Lock(i, w) =>
      if CanLock(s, sys, i, w) {
        assert Knows(s.db, sys, s.txns[i]);
        LockIsOrdered(s.db, sys, s.txns[i], s.txns[i].op.req);
      }
    case Step(i) => if i in s.txns { StepIsOrdered(s, sys, opening, i); }
    case Abort(i) =>
  }

  lemma {:induction false} RunIsOrdered(opening: Db, sys: WalletId, actions: seq<Action>)
    requires Good(opening, sys) && OrderedRun(Init(opening), sys, actions)
    ensures AllOrdered(Run(Init(opening), sys, actions), sys)
  {
    if actions != [] {
      var prefix := actions[..|actions| - 1];
      RunIsOrdered(opening, sys, prefix);
      RunKeepsInv(opening, sys, prefix);
      NextIsOrdered(Run(Init(opening), sys, prefix), sys, opening, actions[|actions| - 1]);
    }
  }

  // ---------------------------------------------------------------- no cycle

  lemma {:induction false} WaitingClimbs(s: State, sys: WalletId, ring: seq<TxnId>, k: nat)
    requires AllOrdered(s, sys) && WaitCycle(s, sys, ring) && k < |ring|
    ensures Wanting(s, sys, ring[0]) && Wanting(s, sys, ring[k])
    ensures k > 0 ==> Before(Wants(s.txns[ring[0]], sys).value, Wants(s.txns[ring[k]], sys).value)
  {
    if k < |ring| - 1 {
      assert WaitsFor(s, sys, ring[k], ring[k + 1]);
    }
    if k > 0 {
      WaitingClimbs(s, sys, ring, k - 1);
      assert WaitsFor(s, sys, ring[k - 1], ring[k]);
      assert HeldBeforeWanted(s.txns[ring[k]], sys);
    }
  }

  /** With rows locked in list order, no reachable state of any number of transactions contains a wait cycle. */
  lemma NoWaitCycle(opening: Db, sys: WalletId, actions: seq<Action>, ring: seq<TxnId>)
    requires Good(opening, sys) && OrderedRun(Init(opening), sys, actions)
    ensures !WaitCycle(Run(Init(opening), sys, actions), sys, ring)
  {
    var s := Run(Init(opening), sys, actions);
    RunIsOrdered(opening, sys, actions);
    if WaitCycle(s, sys, ring) {
      WaitingClimbs(s, sys, ring, |ring| - 1);
    }
  }

  // ---------------------------------------------------------------- progress

  // In list order every row still missing comes at or after the next one.
  lemma MissingIsLater(db: Db, sys: WalletId, t: Txn, r: Row)
    requires Good(db, sys) && Knows(db, sys, t) && Locking(t) && HeldBeforeWanted(t, sys) && r in Missing(t, sys)
    ensures r == Wants(t, sys).value || Before(Wants(t, sys).value, r)
  {
    SortedIsStrict(db, sys, t.op.req);
  }

  lemma LackingClimbs(s: State, sys: WalletId, opening: Db, i: TxnId, j: TxnId)
    requires Inv(s, sys, opening) && AllOrdered(s, sys) && Lacks(s, sys, i, j)
    ensures WantsLater(s, sys, i, j)
  {
    var r :| r in Missing(s.txns[i], sys) && r in s.txns[j].held;
    assert Knows(s.db, sys, s.txns[i]);
    MissingIsLater(s.db, sys, s.txns[i], r);
    assert HeldBeforeWanted(s.txns[j], sys);
  }

  lemma {:induction false} RingClimbs(s: State, sys: WalletId, opening: Db, ring: seq<TxnId>, k: nat)
    requires Inv(s, sys, opening) && AllOrdered(s, sys) && LockRing(s, sys, ring) && 0 < k < |ring|
    ensures WantsLater(s, sys, ring[0], ring[k])
  {
    assert Lacks(s, sys, ring[k - 1], ring[Succ(ring, k - 1)]);
    LackingClimbs(s, sys, opening, ring[k - 1], ring[k]);
    if k > 1 { RingClimbs(s, sys, opening, ring, k - 1); }
  }

  lemma NoRingInOrder(s: State, sys: WalletId, opening: Db)
    requires Inv(s, sys, opening) && AllOrdered(s, sys)
    ensures !HasRing(s, sys)
  {
    if ring :| LockRing(s, sys, ring) {
      var last := |ring| - 1;
      assert Lacks(s, sys, ring[last], ring[Succ(ring, last)]);
      LackingClimbs(s, sys, opening, ring[last], ring[0]);
      if last > 0 { RingClimbs(s, sys, opening, ring, last); }
    }
  }

  /** While anything is in flight, some transaction can take its next step. */
  lemma SomeoneCanStep(opening: Db, sys: WalletId, actions: seq<Action>) returns (k: TxnId)
    requires Good(opening, sys) && OrderedRun(Init(opening), sys, actions)
    requires Run(Init(opening), sys, actions).txns != map[]
    ensures var s := Run(Init(opening), sys, actions);
            k in s.txns && InListOrder(s, sys, OwnAction(s, sys, k)) && Next(s, sys, OwnAction(s, sys, k)) != s
  {
    var s := Run(Init(opening), sys, actions);
    RunIsOrdered(opening, sys, actions);
    RunKeepsInv(opening, sys, actions);
    NoRingInOrder(s, sys, opening);
    k := FreeOne(s, sys, opening);
  }

  lemma {:induction false} OrderedJoins(s: State, sys: WalletId, actions: seq<Action>, more: seq<Action>)
    requires OrderedRun(s, sys, actions) && OrderedRun(Run(s, sys, actions), sys, more)
    ensures OrderedRun(s, sys, actions + more)
    ensures Run(s, sys, actions + more) == Run(Run(s, sys, actions), sys, more)
  {
    if more == [] {
      assert actions + more == actions;
    } else {
      var front := more[..|more| - 1];
      OrderedJoins(s, sys, actions, front);
      assert (actions + more)[..|actions + more| - 1] == actions + front;
    }
  }

  /** From every state reached in list order, everything in flight can be run to its end by its own
      statements, still in list order: nothing has to be aborted. */
  lemma EverythingCanFinish(opening: Db, sys: WalletId, actions: seq<Action>) returns (more: seq<Action>)
    requires Good(opening, sys) && OrderedRun(Init(opening), sys, actions)
    ensures OrderedRun(Init(opening), sys, actions + more)
    ensures Run(Init(opening), sys, actions + more).txns == map[] && OnlyStatements(more)
  {
    var s := Run(Init(opening), sys, actions);
    RunIsOrdered(opening, sys, actions);
    RunKeepsInv(opening, sys, actions);
    NoRingInOrder(s, sys, opening);
    more := FinishWithoutRing(s, sys, opening);
    OrderedJoins(Init(opening), sys, actions, more);
  }

  // ---------------------------------------------------------------- without the order

  /** In-flight transactions none of which can lock a row or run a statement. */
  ghost predicate Deadlocked(s: State, sys: WalletId) {
    && s.txns != map[]
    && (forall i, w :: Next(s, sys, Lock(i, w)) == s)
    && (forall i :: Next(s, sys, Step(i)) == s)
  }

  const ONE := Wallet(Some(1), Personal, true, 1000)
  const TWO := Wallet(Some(2), Personal, true, 1000)
  const TWO_WALLETS := Db(map[0 := Wallet(None, System, true, 0), 1 := ONE, 2 := TWO],
                          map[1 := User(Customer, Active), 2 := User(Customer, Active)], map[], [], [])
  const THERE := Request(Money.SendMoney, 1, 2, 10, 500, 7)
  const BACK := Request(Money.SendMoney, 2, 1, 10, 500, 8)

  const OPPOSITE := [Begin(1, Transfer(THERE)), Begin(2, Transfer(BACK)), Lock(1, 1), Lock(2, 2), Lock(1, 0)]

  function Holding(req: Request, held: set<Row>): Txn {
    Start(Transfer(req)).(held := held)
  }

  function Both(x: Txn, y: Txn): State {
    State(TWO_WALLETS, map[1 := x, 2 := y], map[1 := Transfer(THERE), 2 := Transfer(BACK)], [])
  }

  lemma OpeningIsGood()
    ensures Good(TWO_WALLETS, 0)
  {}

  lemma OppositeBegin()
    ensures Next(Next(Init(TWO_WALLETS), 0, OPPOSITE[0]), 0, OPPOSITE[1]) == Both(Holding(THERE, {}), Holding(BACK, {}))
  {
    assert Next(Init(TWO_WALLETS), 0, OPPOSITE[0]).txns == map[1 := Holding(THERE, {})];
    assert map[1 := Holding(THERE, {})][2 := Holding(BACK, {})] == map[1 := Holding(THERE, {}), 2 := Holding(BACK, {})];
  }

  lemma OppositeLock()
    ensures var s := Both(Holding(THERE, {}), Holding(BACK, {}));
            Next(Next(Next(s, 0, Lock(1, 1)), 0, Lock(2, 2)), 0, Lock(1, 0))
            == Both(Holding(THERE, {WalletRow(0), WalletRow(1)}), Holding(BACK, {WalletRow(2)}))
  {
    LockOne(THERE, {}, 1, {WalletRow(1)}, 2);
    LockOne(BACK, {}, 2, {WalletRow(2)}, 1);
    LockOne(THERE, {WalletRow(1)}, 0, {WalletRow(0), WalletRow(1)}, 2);
    var s := Both(Holding(THERE, {}), Holding(BACK, {}));
    TwoInFlight(s, Holding(THERE, {}), Holding(BACK, {}));
    var s1 := Both(Holding(THERE, {WalletRow(1)}), Holding(BACK, {}));
    assert Next(s, 0, Lock(1, 1)) == s1;
    TwoInFlight(s1, Holding(THERE, {WalletRow(1)}), Holding(BACK, {}));
    var s2 := Both(Holding(THERE, {WalletRow(1)}), Holding(BACK, {WalletRow(2)}));
    assert Next(s1, 0, Lock(2, 2)) == s2;
    TwoInFlight(s2, Holding(THERE, {WalletRow(1)}), Holding(BACK, {WalletRow(2)}));
  }

  lemma LockOne(req: Request, held: set<Row>, w: WalletId, after: set<Row>, missing: WalletId)
    requires after == held + {WalletRow(w)}
    requires WalletRow(missing) in WalletsToLock(req, 0) && WalletRow(missing) !in after
    ensures AfterLock(Holding(req, held), 0, w) == Holding(req, after)
  {}

  lemma OppositeIsStuck()
    ensures Deadlocked(Both(Holding(THERE, {WalletRow(0), WalletRow(1)}), Holding(BACK, {WalletRow(2)})), 0)
  {
    var x, y := Holding(THERE, {WalletRow(0), WalletRow(1)}), Holding(BACK, {WalletRow(2)});
    TwoInFlight(Both(x, y), x, y);
  }

  lemma OppositeIsRing()
    ensures LockRing(Both(Holding(THERE, {WalletRow(0), WalletRow(1)}), Holding(BACK, {WalletRow(2)})), 0, [1, 2])
  {
    assert WalletRow(2) in Missing(Holding(THERE, {WalletRow(0), WalletRow(1)}), 0);
    assert WalletRow(1) in Missing(Holding(BACK, {WalletRow(2)}), 0);
  }

  /** The sorted list alone is not enough: `WHERE id IN (...)` may lock its rows in any order, and two opposite
      transfers that each lock their sender first are stuck for good. */
  lemma AnyOrderCanDeadlock()
    ensures Good(TWO_WALLETS, 0)
    ensures Deadlocked(Run(Init(TWO_WALLETS), 0, OPPOSITE), 0)
    ensures HasRing(Reached(TWO_WALLETS, 0, OPPOSITE), 0) && !CanFinish(Reached(TWO_WALLETS, 0, OPPOSITE), 0)
  {
    OpeningIsGood();
    RunFive(Init(TWO_WALLETS), 0, OPPOSITE);
    OppositeBegin();
    OppositeLock();
    OppositeIsStuck();
    OppositeIsRing();
    FinishesExactlyWithoutRing(TWO_WALLETS, 0, OPPOSITE);
  }

  lemma TwoInFlight(s: State, x: Txn, y: Txn)
    requires s.txns == map[1 := x, 2 := y]
    ensures Busy(s, 1) == y.held && Busy(s, 2) == x.held
  {
    assert s.txns[1] == x && s.txns[2] == y;
    forall r | r in y.held ensures r in Busy(s, 1) { BusyHas(s, 1, 2, r); }
    forall r | r in x.held ensures r in Busy(s, 2) { BusyHas(s, 2, 1, r); }
  }

  lemma RunFive(s: State, sys: WalletId, a: seq<Action>)
    requires |a| == 5
    ensures Run(s, sys, a) == Next(Next(Next(Next(Next(s, sys, a[0]), sys, a[1]), sys, a[2]), sys, a[3]), sys, a[4])
  {
    assert a[..4][..3] == a[..3] && a[..3][..2] == a[..2] && a[..2][..1] == a[..1] && a[..1][..0] == [];
    assert Run(s, sys, a[..1]) == Next(s, sys, a[0]);
    assert Run(s, sys, a[..2]) == Next(Run(s, sys, a[..1]), sys, a[1]);
    assert Run(s, sys, a[..3]) == Next(Run(s, sys, a[..2]), sys, a[2]);
    assert Run(s, sys, a[..4]) == Next(Run(s, sys, a[..3]), sys, a[3]);
  }
}
