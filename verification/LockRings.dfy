/** Exactly when transfers that lock their rows in any order can still all finish: unless some of them form a ring, each
    lacking a wallet row that the next one holds. */
module LockRings {
  import opened Wrappers
  import opened Bank
  import opened Interleaving
  import opened LockWaits

  /** The rows a transfer's locking SELECT has not visited yet. */
  function Missing(t: Txn, sys: WalletId): set<Row>
    requires t.op.Transfer?
  {
    WalletsToLock(t.op.req, sys) - t.held
  }

  ghost predicate Lacks(s: State, sys: WalletId, i: TxnId, j: TxnId) {
    && i in s.txns && j in s.txns && Locking(s.txns[i]) && Locking(s.txns[j])
    && exists r :: r in Missing(s.txns[i], sys) && r in s.txns[j].held
  }

  function Succ(ring: seq<TxnId>, k: nat): nat {
    if k + 1 == |ring| then 0 else k + 1
  }

  ghost predicate LockRing(s: State, sys: WalletId, ring: seq<TxnId>) {
    ring != [] && forall k :: 0 <= k < |ring| ==> Lacks(s, sys, ring[k], ring[Succ(ring, k)])
  }

  ghost predicate HasRing(s: State, sys: WalletId) {
    exists ring :: LockRing(s, sys, ring)
  }

  /** Locks and statements alone can bring everything in flight to its end. */
  ghost predicate CanFinish(s: State, sys: WalletId) {
    exists more :: OnlyStatements(more) && Run(s, sys, more).txns == map[]
  }

  // ---------------------------------------------------------------- a ring stays

  lemma LockingStays(s: State, sys: WalletId, a: Action, i: TxnId, j: TxnId)
    requires Lacks(s, sys, i, j) && (a.Lock? || a.Step?)
    ensures var s' := Next(s, sys, a);
            && i in s'.txns && Locking(s'.txns[i]) && s'.txns[i].op == s.txns[i].op && s.txns[i].held <= s'.txns[i].held
            && (forall r :: r in Missing(s.txns[i], sys) && r in s.txns[j].held ==> r !in s'.txns[i].held)
  {
    forall r | r in Missing(s.txns[i], sys) && r in s.txns[j].held ensures r in Busy(s, i) { BusyHas(s, i, j, r); }
  }

  lemma RingStays(s: State, sys: WalletId, a: Action, ring: seq<TxnId>)
    requires LockRing(s, sys, ring) && (a.Lock? || a.Step?)
    ensures LockRing(Next(s, sys, a), sys, ring)
  {
    var s' := Next(s, sys, a);
    forall k | 0 <= k < |ring| ensures Lacks(s', sys, ring[k], ring[Succ(ring, k)]) {
      var i, j := ring[k], ring[Succ(ring, k)];
      assert Lacks(s, sys, i, j);
      var r :| r in Missing(s.txns[i], sys) && r in s.txns[j].held;
      LockingStays(s, sys, a, i, j);
      LockingStays(s, sys, a, j, ring[Succ(ring, Succ(ring, k))]);
      assert r in Missing(s'.txns[i], sys) && r in s'.txns[j].held;
    }
  }

  lemma {:induction false} RingStaysForever(s: State, sys: WalletId, more: seq<Action>, ring: seq<TxnId>)
    requires LockRing(s, sys, ring) && OnlyStatements(more)
    ensures LockRing(Run(s, sys, more), sys, ring) && Run(s, sys, more).txns != map[]
  {
    if more != [] {
      RingStaysForever(s, sys, more[..|more| - 1], ring);
      RingStays(Run(s, sys, more[..|more| - 1]), sys, more[|more| - 1], ring);
    }
    assert Lacks(Run(s, sys, more), sys, ring[0], ring[Succ(ring, 0)]);
  }

  // ---------------------------------------------------------------- without a ring someone is free

  /** Past its locking SELECT and holding rows. */
  predicate Settled(s: State, i: TxnId) {
    i in s.txns && !Locking(s.txns[i]) && s.txns[i].held != {}
  }

  /** Nobody holds a row it still has to lock. */
  ghost predicate Free(s: State, sys: WalletId, i: TxnId) {
    && i in s.txns && !Waiting(s, sys, i)
    && (Locking(s.txns[i]) ==> Missing(s.txns[i], sys) !! Busy(s, i))
  }

  /** A unique-index entry is held only together with SYSTEM's row, a user's row or sessions only by a suspension of
      that user, together with the row of the wallet. */
  lemma HeldWithWallet(db: Db, sys: WalletId, t: Txn)
    requires Knows(db, sys, t)
    ensures forall k :: KeyRow(k) in t.held ==> WalletRow(sys) in t.held
    ensures forall u :: UserRow(u) in t.held || SessionRows(u) in t.held ==>
              t.op.Suspend? && t.op.user == u && WalletRow(t.op.wallet) in t.held && OwnWallet(db, u, t.op.wallet)
  {}

  /** The only rows still wanted past the first lock, and the wallet row held meanwhile. */
  lemma WantedWithWallet(db: Db, sys: WalletId, t: Txn)
    requires Knows(db, sys, t) && !Locking(t) && t.held != {} && Wants(t, sys).Some?
    ensures var r := Wants(t, sys).value;
            || (r.KeyRow? && WalletRow(sys) in t.held)
            || (&& t.op.Suspend? && (r == UserRow(t.op.user) || r == SessionRows(t.op.user))
                && WalletRow(t.op.wallet) in t.held && OwnWallet(db, t.op.user, t.op.wallet))
  {}

  /** Whoever could hold the row a settled transaction wants would also hold a wallet row that one holds: SYSTEM's, or
      the only wallet of the user. */
  lemma SettledNeverWaits(s: State, sys: WalletId, opening: Db, i: TxnId)
    requires Inv(s, sys, opening) && Settled(s, i)
    ensures !Waiting(s, sys, i)
  {
    forall j ensures !WaitsFor(s, sys, i, j) {
      if j in s.txns && j != i && Wants(s.txns[i], sys).Some? {
        assert Knows(s.db, sys, s.txns[i]) && Knows(s.db, sys, s.txns[j]);
        WantedWithWallet(s.db, sys, s.txns[i]);
        HeldWithWallet(s.db, sys, s.txns[j]);
      }
    }
  }

  ghost predicate WantsLater(s: State, sys: WalletId, i: TxnId, j: TxnId) {
    && i in s.txns && j in s.txns && Wants(s.txns[i], sys).Some? && Wants(s.txns[j], sys).Some?
    && Before(Wants(s.txns[i], sys).value, Wants(s.txns[j], sys).value)
  }

  // When no settled transaction is left, whoever a locking transfer lacks a row of is locking too.
  lemma LacksSomeone(s: State, sys: WalletId, i: TxnId) returns (j: TxnId)
    requires i in s.txns && Locking(s.txns[i]) && !(Missing(s.txns[i], sys) !! Busy(s, i))
    requires forall j :: !Settled(s, j)
    ensures Lacks(s, sys, i, j)
  {
    var r :| r in Missing(s.txns[i], sys) && r in Busy(s, i);
    j :| j in s.txns && j != i && r in s.txns[j].held;
    assert !Settled(s, j);
  }

  ghost predicate LackChain(s: State, sys: WalletId, path: seq<TxnId>) {
    && path != []
    && (forall k :: 0 <= k < |path| ==> path[k] in s.txns && Locking(s.txns[path[k]]))
    && (forall k :: 0 <= k < |path| - 1 ==> Lacks(s, sys, path[k], path[k + 1]))
  }

  lemma ChainGrows(s: State, sys: WalletId, path: seq<TxnId>, j: TxnId)
    requires LackChain(s, sys, path) && Lacks(s, sys, path[|path| - 1], j)
    ensures LackChain(s, sys, path + [j])
  {}

  lemma TailIsRing(s: State, sys: WalletId, path: seq<TxnId>, m: nat)
    requires LackChain(s, sys, path) && m < |path| && Lacks(s, sys, path[|path| - 1], path[m])
    ensures LockRing(s, sys, path[m..])
  {
    var ring := path[m..];
    forall k | 0 <= k < |ring| ensures Lacks(s, sys, ring[k], ring[Succ(ring, k)]) {
      assert ring[k] == path[m + k] && ring[0] == path[m];
      assert k + 1 < |ring| ==> ring[k + 1] == path[m + k + 1];
    }
  }

  /** Following whoever lacks a row leads back to a transfer met before. */
  lemma {:induction false} ChainCloses(
      s: State, sys: WalletId, path: seq<TxnId>, rest: set<TxnId>) returns (ring: seq<TxnId>)
    requires LackChain(s, sys, path) && forall j :: !Settled(s, j)
    requires forall i :: i in s.txns && Locking(s.txns[i]) ==> !(Missing(s.txns[i], sys) !! Busy(s, i))
    requires forall i :: i in s.txns && i !in path ==> i in rest
    ensures LockRing(s, sys, ring)
    decreases rest
  {
    var j := LacksSomeone(s, sys, path[|path| - 1]);
    if j in path {
      var m :| 0 <= m < |path| && path[m] == j;
      TailIsRing(s, sys, path, m);
      ring := path[m..];
    } else {
      ChainGrows(s, sys, path, j);
      ring := ChainCloses(s, sys, path + [j], rest - {j});
    }
  }

  /** Without a ring some transaction in flight can take its next step, and no other holds a row it still has to
      lock. */
  lemma FreeOne(s: State, sys: WalletId, opening: Db) returns (k: TxnId)
    requires Inv(s, sys, opening) && s.txns != map[] && !HasRing(s, sys)
    ensures Free(s, sys, k) && InListOrder(s, sys, OwnAction(s, sys, k)) && Next(s, sys, OwnAction(s, sys, k)) != s
  {
    if i :| Settled(s, i) {
      SettledNeverWaits(s, sys, opening, i);
      k := i;
    } else if i :| i in s.txns && Locking(s.txns[i]) {
      k := FreeLocker(s, sys, opening, i);
    } else {
      assert s.txns.Keys != {};
      k :| k in s.txns;
      NobodyHolds(s, sys, k);
    }
    FreeSteps(s, sys, opening, k);
  }

  lemma NobodyHolds(s: State, sys: WalletId, k: TxnId)
    requires k in s.txns && forall i :: i in s.txns ==> !Locking(s.txns[i]) && !Settled(s, i)
    ensures Free(s, sys, k)
  {
    assert forall j :: j in s.txns ==> !Settled(s, j) && s.txns[j].held == {};
  }

  lemma FreeLocker(s: State, sys: WalletId, opening: Db, i: TxnId) returns (k: TxnId)
    requires Inv(s, sys, opening) && !HasRing(s, sys) && i in s.txns && Locking(s.txns[i]) && forall j :: !Settled(s, j)
    ensures Free(s, sys, k)
  {
    if forall k :: k in s.txns && Locking(s.txns[k]) ==> !(Missing(s.txns[k], sys) !! Busy(s, k)) {
      var ring := ChainCloses(s, sys, [i], s.txns.Keys);
      assert false;
    }
    k :| k in s.txns && Locking(s.txns[k]) && Missing(s.txns[k], sys) !! Busy(s, k);
    assert Knows(s.db, sys, s.txns[k]);
    NextIsMissing(s.db, sys, s.txns[k], s.txns[k].op.req);
  }

  lemma FreeSteps(s: State, sys: WalletId, opening: Db, i: TxnId)
    requires Inv(s, sys, opening) && Free(s, sys, i)
    ensures InListOrder(s, sys, OwnAction(s, sys, i)) && Next(s, sys, OwnAction(s, sys, i)) != s
  {
    var t := s.txns[i];
    assert Knows(s.db, sys, t);
    if Wants(t, sys).Some? { NotWaitingIsFree(s, sys, i); }
    if Locking(t) {
      NextIsMissing(s.db, sys, t, t.op.req);
      FreeLockSteps(s, sys, i, t.op.req);
    } else {
      FreeStatementSteps(s, sys, i);
    }
  }

  // ---------------------------------------------------------------- and its step makes no ring

  lemma FreeLacksNobody(s: State, sys: WalletId, k: TxnId, j: TxnId)
    requires Free(s, sys, k)
    ensures !Lacks(s, sys, k, j)
  {}

  lemma StillLacksNobody(s: State, sys: WalletId, opening: Db, k: TxnId, j: TxnId)
    requires Inv(s, sys, opening) && Free(s, sys, k) && Next(s, sys, OwnAction(s, sys, k)) != s
    ensures !Lacks(Next(s, sys, OwnAction(s, sys, k)), sys, k, j)
    ensures forall i :: i != k && j != k && Lacks(Next(s, sys, OwnAction(s, sys, k)), sys, i, j) ==> Lacks(s, sys, i, j)
  {
    var t, s' := s.txns[k], Next(s, sys, OwnAction(s, sys, k));
    OwnActionEffect(s, sys, k);
    FreeLacksNobody(s, sys, k, j);
    assert Knows(s.db, sys, t);
    if !Locking(t) { StatementLeavesLocking(s.db, sys, t, Busy(s, k)); }
  }

  lemma FreeStepMakesNoRing(s: State, sys: WalletId, opening: Db, k: TxnId)
    requires Inv(s, sys, opening) && Free(s, sys, k) && Next(s, sys, OwnAction(s, sys, k)) != s && !HasRing(s, sys)
    ensures !HasRing(Next(s, sys, OwnAction(s, sys, k)), sys)
  {
    var s' := Next(s, sys, OwnAction(s, sys, k));
    if ring :| LockRing(s', sys, ring) {
      forall m | 0 <= m < |ring| ensures ring[m] != k {
        assert Lacks(s', sys, ring[m], ring[Succ(ring, m)]);
        StillLacksNobody(s, sys, opening, k, ring[Succ(ring, m)]);
      }
      forall m | 0 <= m < |ring| ensures Lacks(s, sys, ring[m], ring[Succ(ring, m)]) {
        StillLacksNobody(s, sys, opening, k, ring[Succ(ring, m)]);
      }
      assert LockRing(s, sys, ring);
    }
  }

  // ---------------------------------------------------------------- everything finishes

  lemma {:induction false} RunFrom(s: State, sys: WalletId, a: Action, rest: seq<Action>)
    requires InListOrder(s, sys, a) && OrderedRun(Next(s, sys, a), sys, rest)
    ensures Run(s, sys, [a] + rest) == Run(Next(s, sys, a), sys, rest)
    ensures OrderedRun(s, sys, [a] + rest)
  {
    if rest == [] {
      assert [a] + rest == [a] && [a][..0] == [];
    } else {
      RunFrom(s, sys, a, rest[..|rest| - 1]);
      assert ([a] + rest)[..|rest|] == [a] + rest[..|rest| - 1];
    }
  }

  lemma OneLess(s: State, sys: WalletId, opening: Db) returns (a: Action)
    requires Inv(s, sys, opening) && s.txns != map[] && !HasRing(s, sys)
    ensures InListOrder(s, sys, a) && (a.Lock? || a.Step?)
    ensures var s' := Next(s, sys, a);
            && Inv(s', sys, opening) && !HasRing(s', sys)
            && LeftOver(s'.txns, s'.txns.Keys, sys) < LeftOver(s.txns, s.txns.Keys, sys)
  {
    var k := FreeOne(s, sys, opening);
    a := OwnAction(s, sys, k);
    OwnActionShortens(s, sys, opening, k);
    FreeStepMakesNoRing(s, sys, opening, k);
    NextKeepsInv(s, sys, opening, a);
  }

  /** `more`, in list order, consists of locks and statements and leaves nothing in flight. */
  ghost predicate Finishes(s: State, sys: WalletId, more: seq<Action>) {
    OrderedRun(s, sys, more) && OnlyStatements(more) && Run(s, sys, more).txns == map[]
  }

  lemma StepFirst(s: State, sys: WalletId, a: Action, rest: seq<Action>)
    requires InListOrder(s, sys, a) && (a.Lock? || a.Step?) && Finishes(Next(s, sys, a), sys, rest)
    ensures Finishes(s, sys, [a] + rest)
  {
    RunFrom(s, sys, a, rest);
  }

  /** Without a ring everything in flight can be run to its end, each SELECT going on in list order. */
  lemma {:induction false} FinishWithoutRing(s: State, sys: WalletId, opening: Db) returns (more: seq<Action>)
    requires Inv(s, sys, opening) && !HasRing(s, sys)
    ensures Finishes(s, sys, more)
    decreases LeftOver(s.txns, s.txns.Keys, sys)
  {
    if s.txns == map[] {
      return [];
    }
    var a := OneLess(s, sys, opening);
    var rest := FinishWithoutRing(Next(s, sys, a), sys, opening);
    StepFirst(s, sys, a, rest);
    more := [a] + rest;
  }

  /** In every run, rows locked in any order: what is in flight can be run to its end by locks and statements alone if
      and only if no transfers still locking form a ring in which each lacks a wallet row the next one holds. */
  lemma FinishesExactlyWithoutRing(opening: Db, sys: WalletId, actions: seq<Action>)
    requires Good(opening, sys)
    ensures CanFinish(Reached(opening, sys, actions), sys) <==> !HasRing(Reached(opening, sys, actions), sys)
  {
    var s := Reached(opening, sys, actions);
    RunKeepsInv(opening, sys, actions);
    if HasRing(s, sys) {
      var ring :| LockRing(s, sys, ring);
      forall more | OnlyStatements(more) ensures Run(s, sys, more).txns != map[] {
        RingStaysForever(s, sys, more, ring);
      }
    } else {
      var more := FinishWithoutRing(s, sys, opening);
    }
  }

  // ---------------------------------------------------------------- past the first lock nobody is blocked

  /** Past its locking SELECT, its freeze or its update of the wallet. */
  predicate PastFirstLock(t: Txn) {
    match t.op
    case Transfer(_) => t.pc != LockRows
    case Suspend(_, _) => t.pc != FindUser && t.pc != FreezeWallet
    case Activate(_) => t.pc != SetActiveFlag
    case _ => false
  }

  lemma PastFirstLockHolds(db: Db, sys: WalletId, t: Txn)
    requires Knows(db, sys, t) && PastFirstLock(t)
    ensures !Locking(t) && t.held != {} && (t.op.Transfer? ==> WalletRow(sys) in t.held)
  {}

  /** In every run at most one transfer is past its locking SELECT, because all of them lock SYSTEM's row. */
  lemma OneTransferAtATime(opening: Db, sys: WalletId, actions: seq<Action>, i: TxnId, j: TxnId)
    requires Good(opening, sys)
    requires var s := Reached(opening, sys, actions);
             && i in s.txns && s.txns[i].op.Transfer? && PastFirstLock(s.txns[i])
             && j in s.txns && s.txns[j].op.Transfer? && PastFirstLock(s.txns[j])
    ensures i == j
  {
    var s := Reached(opening, sys, actions);
    RunKeepsInv(opening, sys, actions);
    assert Knows(s.db, sys, s.txns[i]) && Knows(s.db, sys, s.txns[j]);
    PastFirstLockHolds(s.db, sys, s.txns[i]);
    PastFirstLockHolds(s.db, sys, s.txns[j]);
  }

  /** In every run, rows locked in any order, no transaction past its first lock is ever blocked: not a transfer on its
      idempotency key, not a suspension on the user's row or sessions. */
  lemma PastFirstLockNeverBlocked(opening: Db, sys: WalletId, actions: seq<Action>, i: TxnId)
    requires Good(opening, sys)
    requires var s := Reached(opening, sys, actions); i in s.txns && PastFirstLock(s.txns[i])
    ensures var s := Reached(opening, sys, actions); !Statement(s.db, sys, s.txns[i], Busy(s, i)).Blocked?
  {
    var s := Reached(opening, sys, actions);
    RunKeepsInv(opening, sys, actions);
    assert Knows(s.db, sys, s.txns[i]);
    PastFirstLockHolds(s.db, sys, s.txns[i]);
    SettledNeverWaits(s, sys, opening, i);
    if Wants(s.txns[i], sys).Some? { NotWaitingIsFree(s, sys, i); }
    StatementMoves(s.db, sys, s.txns[i], Busy(s, i));
  }
}
