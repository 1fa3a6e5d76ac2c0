/** What a transaction in flight waits for, its next action, and how many of those it has left. */
module LockWaits {
  import opened Wrappers
  import opened Bank
  import opened Interleaving

  // ---------------------------------------------------------------- the order

  function Class(r: Row): nat {
    match r
    case WalletRow(_) => 0
    case UserRow(_) => 1
    case SessionRows(_) => 2
    case KeyRow(_) => 3
  }

  function Number(r: Row): nat {
    match r
    case WalletRow(w) => w
    case UserRow(u) => u
    case SessionRows(u) => u
    case KeyRow(k) => k
  }

  predicate Before(a: Row, b: Row) {
    Class(a) < Class(b) || (Class(a) == Class(b) && Number(a) < Number(b))
  }

  /** `[sender, receiver, system].sort()` */
  function SortedWallets(req: Request, sys: WalletId): (r: seq<WalletId>)
    ensures |r| == 3 && r[0] <= r[1] <= r[2]
    ensures {r[0], r[1], r[2]} == {req.sender, req.receiver, sys}
  {
    var (a, b) := if req.sender <= req.receiver then (req.sender, req.receiver) else (req.receiver, req.sender);
    if sys <= a then [sys, a, b] else if sys <= b then [a, sys, b] else [a, b, sys]
  }

  function NextToLock(req: Request, sys: WalletId, held: set<Row>): WalletId {
    var list := SortedWallets(req, sys);
    if WalletRow(list[0]) !in held then list[0]
    else if WalletRow(list[1]) !in held then list[1]
    else list[2]
  }

  /** The locking SELECT visits its rows in list order. */
  predicate InListOrder(s: State, sys: WalletId, a: Action) {
    a.Lock? && CanLock(s, sys, a.id, a.wallet) ==>
      a.wallet == NextToLock(s.txns[a.id].op.req, sys, s.txns[a.id].held)
  }

  ghost predicate OrderedRun(s: State, sys: WalletId, actions: seq<Action>) {
    actions != [] ==>
      && OrderedRun(s, sys, actions[..|actions| - 1])
      && InListOrder(Run(s, sys, actions[..|actions| - 1]), sys, actions[|actions| - 1])
  }

  // ---------------------------------------------------------------- waiting

  /** A transfer whose locking SELECT is not through yet. */
  predicate Locking(t: Txn) {
    t.op.Transfer? && t.pc == LockRows
  }

  /** The row the next statement of a transaction must lock. */
  function Wants(t: Txn, sys: WalletId): Option<Row> {
    match t.op
    case Transfer(req) =>
      if t.pc == LockRows then Some(WalletRow(NextToLock(req, sys, t.held)))
      else if t.pc == InsertRow then Some(KeyRow(req.key))
      else None
    case Activate(w) => if t.pc == SetActiveFlag then Some(WalletRow(w)) else None
    case Suspend(u, w) =>
      if t.pc == FreezeWallet then Some(WalletRow(w))
      else if t.pc == RestrictUser then Some(UserRow(u))
      else if t.pc == ClearSessions then Some(SessionRows(u))
      else None
    case _ => Some(WrittenRow(t.op))
  }

  ghost predicate WaitsFor(s: State, sys: WalletId, i: TxnId, j: TxnId) {
    && i in s.txns && j in s.txns && i != j
    && Wants(s.txns[i], sys).Some? && Wants(s.txns[i], sys).value in s.txns[j].held
  }

  ghost predicate Waiting(s: State, sys: WalletId, i: TxnId) {
    exists j :: WaitsFor(s, sys, i, j)
  }

  ghost predicate HeldBeforeWanted(t: Txn, sys: WalletId) {
    Wants(t, sys).Some? ==> forall r :: r in t.held ==> Before(r, Wants(t, sys).value)
  }

  lemma KnowingIsOrdered(db: Db, sys: WalletId, t: Txn)
    requires Good(db, sys) && Knows(db, sys, t) && !Locking(t)
    ensures HeldBeforeWanted(t, sys)
  {}

  lemma NextIsMissing(db: Db, sys: WalletId, t: Txn, req: Request)
    requires TransferKnows(db, sys, t, req) && t.pc == LockRows
    ensures var w := NextToLock(req, sys, t.held); w in db.wallets && WalletRow(w) in WalletsToLock(req, sys) - t.held
  {
    var list := SortedWallets(req, sys);
    assert forall w :: w in {list[0], list[1], list[2]} <==> WalletRow(w) in WalletsToLock(req, sys);
  }

  // ---------------------------------------------------------------- the next action

  /** A transfer's SELECT visits its rows in list order; anything else runs its next statement. */
  function OwnAction(s: State, sys: WalletId, i: TxnId): Action
    requires i in s.txns
  {
    var t := s.txns[i];
    if Locking(t) then Lock(i, NextToLock(t.op.req, sys, t.held)) else Step(i)
  }

  lemma NotWaitingIsFree(s: State, sys: WalletId, i: TxnId)
    requires i in s.txns && !Waiting(s, sys, i) && Wants(s.txns[i], sys).Some?
    ensures Wants(s.txns[i], sys).value !in Busy(s, i)
  {
    var r := Wants(s.txns[i], sys).value;
    if r in Busy(s, i) {
      var j :| j in s.txns && j != i && r in s.txns[j].held;
      assert WaitsFor(s, sys, i, j);
    }
  }

  lemma FreeLockSteps(s: State, sys: WalletId, i: TxnId, req: Request)
    requires i in s.txns && s.txns[i].pc == LockRows && s.txns[i].op == Transfer(req)
    requires CanLock(s, sys, i, NextToLock(req, sys, s.txns[i].held))
    ensures InListOrder(s, sys, OwnAction(s, sys, i)) && Next(s, sys, OwnAction(s, sys, i)) != s
  {
    var w := NextToLock(req, sys, s.txns[i].held);
    assert WalletRow(w) in Next(s, sys, Lock(i, w)).txns[i].held;
  }

  lemma FreeStatementSteps(s: State, sys: WalletId, i: TxnId)
    requires i in s.txns && !Locking(s.txns[i]) && Knows(s.db, sys, s.txns[i])
    requires Wants(s.txns[i], sys).Some? ==> Wants(s.txns[i], sys).value !in Busy(s, i)
    ensures InListOrder(s, sys, OwnAction(s, sys, i)) && Next(s, sys, OwnAction(s, sys, i)) != s
  {
    StatementMoves(s.db, sys, s.txns[i], Busy(s, i));
    var s' := Next(s, sys, Step(i));
    assert i in s'.txns ==> s'.txns[i].pc != s.txns[i].pc;
  }

  lemma TransferMoves(db: Db, sys: WalletId, t: Txn, req: Request, busy: set<Row>)
    requires t.op == Transfer(req) && 1 <= Level(t.pc) <= 11 && (t.pc == InsertRow ==> KeyRow(req.key) !in busy)
    ensures var r := TransferStatement(db, sys, t, req, busy);
            !r.Blocked? && (r.Continue? ==> r.txn.pc != t.pc)
  {}

  lemma SuspendMoves(db: Db, t: Txn, u: UserId, w: WalletId, busy: set<Row>)
    requires t.op == Suspend(u, w) && SuspendKnows(db, t, u, w)
    requires t.pc == FreezeWallet ==> WalletRow(w) !in busy
    requires t.pc == RestrictUser ==> UserRow(u) !in busy
    requires t.pc == ClearSessions ==> SessionRows(u) !in busy
    ensures var r := SuspendStatement(db, t, u, w, busy);
            !r.Blocked? && (r.Continue? ==> r.txn.pc != t.pc)
  {}

  lemma StatementMoves(db: Db, sys: WalletId, t: Txn, busy: set<Row>)
    requires Knows(db, sys, t) && !Locking(t)
    requires Wants(t, sys).Some? ==> Wants(t, sys).value !in busy
    ensures var r := Statement(db, sys, t, busy);
            !r.Blocked? && (r.Continue? ==> r.txn.pc != t.pc)
  {
    match t.op
    case Transfer(req) => TransferMoves(db, sys, t, req, busy);
    case Suspend(u, w) => SuspendMoves(db, t, u, w, busy);
    case _ =>
  }

  lemma StatementLeavesLocking(db: Db, sys: WalletId, t: Txn, busy: set<Row>)
    requires Knows(db, sys, t)
    ensures var r := Statement(db, sys, t, busy);
            r.Continue? ==> !Locking(r.txn)
  {}

  // ---------------------------------------------------------------- what is left to do

  /** How many steps a transaction has left at most. */
  function Left(t: Txn, sys: WalletId): nat {
    match t.op
    case Transfer(req) =>
      if t.pc == LockRows then 12 + |WalletsToLock(req, sys) - t.held| else 12 - Min(Level(t.pc), 12)
    case _ =>
      match t.pc
      case FindUser => 5
      case FreezeWallet => 4
      case RestrictUser => 3
      case SetActiveFlag => 3
      case ClearSessions => 2
      case CheckOwner => 2
      case _ => 1
  }

  function Min(a: nat, b: nat): nat {
    if a < b then a else b
  }

  ghost function LeftOver(txns: map<TxnId, Txn>, ks: set<TxnId>, sys: WalletId): nat
    requires ks <= txns.Keys
  {
    if ks == {} then 0 else
      var k :| k in ks;
      Left(txns[k], sys) + LeftOver(txns, ks - {k}, sys)
  }

  lemma {:induction false} LeftTakesOut(txns: map<TxnId, Txn>, ks: set<TxnId>, k: TxnId, sys: WalletId)
    requires ks <= txns.Keys && k in ks
    ensures LeftOver(txns, ks, sys) == Left(txns[k], sys) + LeftOver(txns, ks - {k}, sys)
    decreases ks
  {
    var j :| j in ks && LeftOver(txns, ks, sys) == Left(txns[j], sys) + LeftOver(txns, ks - {j}, sys);
    if j != k {
      LeftTakesOut(txns, ks - {j}, k, sys);
      LeftTakesOut(txns, ks - {k}, j, sys);
      assert ks - {j} - {k} == ks - {k} - {j};
    }
  }

  lemma {:induction false} LeftAgrees(x: map<TxnId, Txn>, y: map<TxnId, Txn>, ks: set<TxnId>, sys: WalletId)
    requires ks <= x.Keys && ks <= y.Keys && forall k :: k in ks ==> x[k] == y[k]
    ensures LeftOver(x, ks, sys) == LeftOver(y, ks, sys)
    decreases ks
  {
    if ks != {} {
      var k :| k in ks;
      LeftTakesOut(x, ks, k, sys);
      LeftTakesOut(y, ks, k, sys);
      LeftAgrees(x, y, ks - {k}, sys);
    }
  }

  lemma TransferShortens(db: Db, sys: WalletId, t: Txn, req: Request, busy: set<Row>)
    requires t.op == Transfer(req) && Level(t.pc) <= 11
    ensures var r := TransferStatement(db, sys, t, req, busy);
            r.Continue? ==> r.txn.op == t.op && Level(t.pc) < Level(r.txn.pc) <= 11 && t.pc != LockRows
  {}

  lemma TransferLeft(db: Db, sys: WalletId, t: Txn, req: Request, busy: set<Row>)
    requires t.op == Transfer(req) && 1 <= Level(t.pc) <= 11
    ensures var r := TransferStatement(db, sys, t, req, busy);
            0 < Left(t, sys) && (r.Continue? ==> Left(r.txn, sys) < Left(t, sys))
  {
    TransferShortens(db, sys, t, req, busy);
  }

  lemma ActivateLeft(db: Db, sys: WalletId, t: Txn, w: WalletId, busy: set<Row>)
    requires t.op == Activate(w)
    ensures var r := ActivateStatement(db, t, w, busy);
            0 < Left(t, sys) && (r.Continue? ==> Left(r.txn, sys) < Left(t, sys))
  {}

  lemma SuspendLeft(db: Db, sys: WalletId, t: Txn, u: UserId, w: WalletId, busy: set<Row>)
    requires t.op == Suspend(u, w)
    ensures var r := SuspendStatement(db, t, u, w, busy);
            0 < Left(t, sys) && (r.Continue? ==> Left(r.txn, sys) < Left(t, sys))
  {}

  lemma StatementShortens(db: Db, sys: WalletId, t: Txn, busy: set<Row>)
    requires t.op.Transfer? ==> 1 <= Level(t.pc) <= 11
    ensures var r := Statement(db, sys, t, busy);
            0 < Left(t, sys) && (r.Continue? ==> Left(r.txn, sys) < Left(t, sys))
  {
    match t.op
    case Transfer(req) => TransferLeft(db, sys, t, req, busy);
    case Activate(w) => ActivateLeft(db, sys, t, w, busy);
    case Suspend(u, w) => SuspendLeft(db, sys, t, u, w, busy);
    case _ =>
  }

  lemma LockShortens(t: Txn, sys: WalletId, w: WalletId)
    requires t.op.Transfer? && t.pc == LockRows && WalletRow(w) in WalletsToLock(t.op.req, sys) - t.held
    ensures Left(AfterLock(t, sys, w), sys) < Left(t, sys)
  {
    var all := WalletsToLock(t.op.req, sys);
    assert all - (t.held + {WalletRow(w)}) == (all - t.held) - {WalletRow(w)};
  }

  /** A transaction that takes its next step leaves less to do, and the others as they were. */
  lemma OwnActionShortens(s: State, sys: WalletId, opening: Db, i: TxnId)
    requires Inv(s, sys, opening) && i in s.txns && Next(s, sys, OwnAction(s, sys, i)) != s
    ensures var s' := Next(s, sys, OwnAction(s, sys, i));
            LeftOver(s'.txns, s'.txns.Keys, sys) < LeftOver(s.txns, s.txns.Keys, sys)
  {
    var t, s' := s.txns[i], Next(s, sys, OwnAction(s, sys, i));
    OwnActionLeavesLess(s, sys, opening, i);
    if i in s'.txns {
      OneReplaced(s.txns, s'.txns, i, sys);
    } else {
      OneRemoved(s.txns, i, sys);
    }
  }

  /** What a transaction's own action does to the table of transactions in flight. */
  lemma OwnActionEffect(s: State, sys: WalletId, i: TxnId)
    requires i in s.txns && Next(s, sys, OwnAction(s, sys, i)) != s
    ensures var t, s' := s.txns[i], Next(s, sys, OwnAction(s, sys, i));
            if t.op.Transfer? && t.pc == LockRows then
              var w := NextToLock(t.op.req, sys, t.held);
              CanLock(s, sys, i, w) && s'.txns == s.txns[i := AfterLock(t, sys, w)]
            else
              var r := Statement(s.db, sys, t, Busy(s, i));
              !r.Blocked? && s'.txns == if r.Continue? then s.txns[i := r.txn] else s.txns - {i}
  {}

  lemma OwnActionLeavesLess(s: State, sys: WalletId, opening: Db, i: TxnId)
    requires Inv(s, sys, opening) && i in s.txns && Next(s, sys, OwnAction(s, sys, i)) != s
    ensures var t, s' := s.txns[i], Next(s, sys, OwnAction(s, sys, i));
            && Left(t, sys) > 0
            && (if i in s'.txns then s'.txns == s.txns[i := s'.txns[i]] && Left(s'.txns[i], sys) < Left(t, sys)
                else s'.txns == s.txns - {i})
  {
    var t := s.txns[i];
    OwnActionEffect(s, sys, i);
    assert Knows(s.db, sys, t);
    TransferLevel(s.db, sys, t);
    if t.op.Transfer? && t.pc == LockRows {
      LockShortens(t, sys, NextToLock(t.op.req, sys, t.held));
    } else {
      StatementShortens(s.db, sys, t, Busy(s, i));
    }
  }

  lemma TransferLevel(db: Db, sys: WalletId, t: Txn)
    requires Knows(db, sys, t)
    ensures t.op.Transfer? ==> Level(t.pc) <= 11 && (t.pc != LockRows ==> 1 <= Level(t.pc))
  {}

  lemma OneReplaced(x: map<TxnId, Txn>, y: map<TxnId, Txn>, i: TxnId, sys: WalletId)
    requires i in x && i in y && y == x[i := y[i]] && Left(y[i], sys) < Left(x[i], sys)
    ensures LeftOver(y, y.Keys, sys) < LeftOver(x, x.Keys, sys)
  {
    assert y.Keys == x.Keys;
    LeftTakesOut(x, x.Keys, i, sys);
    LeftTakesOut(y, x.Keys, i, sys);
    LeftAgrees(x, y, x.Keys - {i}, sys);
  }

  lemma OneRemoved(x: map<TxnId, Txn>, i: TxnId, sys: WalletId)
    requires i in x && Left(x[i], sys) > 0
    ensures LeftOver(x - {i}, (x - {i}).Keys, sys) < LeftOver(x, x.Keys, sys)
  {
    assert (x - {i}).Keys == x.Keys - {i};
    LeftTakesOut(x, x.Keys, i, sys);
    LeftAgrees(x, x - {i}, x.Keys - {i}, sys);
  }

  predicate OnlyStatements(actions: seq<Action>) {
    forall k :: 0 <= k < |actions| ==> actions[k].Lock? || actions[k].Step?
  }
}
