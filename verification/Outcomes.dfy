/** What the committed operations of any interleaving did, stated on the rows themselves, and what that means for later
    ones. */
module Outcomes {
  import opened Wrappers
  import opened Bank
  import opened Interleaving
  import Money

  /** What the operation `op` does to the tables when it is granted. */
  ghost predicate Does(db: Db, d: Db, sys: WalletId, op: Op) {
    match op
    case Transfer(req) =>
      && ParticipantsActive(db, sys, req) && KeyIsNew(db, req.key)
      && req.amount + req.fee <= db.wallets[req.sender].balance
      && Executed(db, d, sys, req)
    case Freeze(w) =>
      && ActiveWalletOf(db, w) && db.wallets[w].kind != System && db.wallets[w].owner != None
      && d == db.(wallets := db.wallets[w := db.wallets[w].(active := false)])
    case Activate(w) =>
      && w in db.wallets && !db.wallets[w].active && db.wallets[w].kind != System && OwnedByActive(db, w)
      && d == db.(wallets := db.wallets[w := db.wallets[w].(active := true)])
    case Suspend(u, w) =>
      && u in db.users && db.users[u].role != Admin && db.users[u].status != Locked
      && w in db.wallets && db.wallets[w].owner == Some(u) && db.wallets[w].kind != System
      && d == db.(wallets := db.wallets[w := db.wallets[w].(active := false)],
                  users := db.users[u := User(db.users[u].role, Suspended)],
                  sessions := db.sessions[u := {}])
    case Reactivate(u) =>
      && u in db.users && db.users[u].role != Admin && db.users[u].status == Suspended
      && d == db.(users := db.users[u := User(db.users[u].role, Active)])
    case OpenSession(u, dev) =>
      && u in db.users && db.users[u].status == Active
      && d == db.(sessions := db.sessions[u := (if u in db.sessions then db.sessions[u] else {}) + {dev}])
  }

  lemma TransferDoes(db: Db, sys: WalletId, req: Request)
    requires SchemaOk(db, sys) && Shaped(db, req) && ApplyTransfer(db, sys, req).Ok?
    ensures Does(db, ApplyTransfer(db, sys, req).value, sys, Transfer(req))
  {
    assert req.sender != sys && req.receiver != sys;
    TransferMeans(db, sys, req);
  }

  lemma ActivityDoes(db: Db, sys: WalletId, w: WalletId)
    ensures var r := ApplyFreeze(db, w); r.Ok? ==> Does(db, r.value, sys, Freeze(w))
    ensures var r := ApplyActivate(db, w); r.Ok? ==> Does(db, r.value, sys, Activate(w))
  {
    OwnedIsUsable(db, w);
    if ApplyActivate(db, w).Ok? { assert db.wallets[w].owner == Some(db.wallets[w].owner.value); }
  }

  lemma UserDoes(db: Db, sys: WalletId, op: Op)
    requires (op.Suspend? || op.Reactivate? || op.OpenSession?) && Apply(db, sys, op).Ok?
    ensures Does(db, Apply(db, sys, op).value, sys, op)
  {}

  lemma ApplyDoes(db: Db, sys: WalletId, op: Op)
    requires SchemaOk(db, sys) && Admissible(db, op) && Apply(db, sys, op).Ok?
    ensures Does(db, Apply(db, sys, op).value, sys, op)
  {
    match op
    case Transfer(req) => TransferDoes(db, sys, req);
    case Freeze(w) => ActivityDoes(db, sys, w);
    case Activate(w) => ActivityDoes(db, sys, w);
    case _ => UserDoes(db, sys, op);
  }

  /** Each step of any interleaving either leaves the tables alone or commits one operation, which then does to the rows
      exactly what it is for. */
  lemma EachCommitDoes(opening: Db, sys: WalletId, actions: seq<Action>, a: Action)
    requires Good(opening, sys)
    ensures var s, s' := Reached(opening, sys, actions), Reached(opening, sys, actions + [a]);
            || (s'.log == s.log && s'.db == s.db)
            || (&& |s'.log| == |s.log| + 1 && s'.log[..|s.log|] == s.log
                && Does(s.db, s'.db, sys, s'.log[|s.log|].op))
  {
    RunKeepsInv(opening, sys, actions);
    EachCommitIsAtomic(opening, sys, actions, a);
    var s, s' := Reached(opening, sys, actions), Reached(opening, sys, actions + [a]);
    if s'.log != s.log {
      ApplyDoes(s.db, sys, s'.log[|s.log|].op);
    }
  }

  // ---------------------------------------------------------------- the row of a committed transfer

  function RowOf(req: Request): TxRow {
    TxRow(req.key, req.kind, req.amount, req.fee, req.sender, req.receiver)
  }

  /** Every committed transfer has its row, with its own type, amounts and participants, and no second row has its
      key. */
  ghost predicate Recorded(db: Db, op: Op) {
    op.Transfer? ==>
      && RowOf(op.req) in db.transactions
      && (forall i, j :: 0 <= i < j < |db.transactions| ==>
            !(db.transactions[i].key == op.req.key && db.transactions[j].key == op.req.key))
  }

  ghost predicate AllRecorded(s: State) {
    forall k :: 0 <= k < |s.log| && s.log[k].op.Transfer? ==> RowOf(s.log[k].op.req) in s.db.transactions
  }

  lemma RowsStay(db: Db, d: Db, sys: WalletId, op: Op)
    requires Does(db, d, sys, op)
    ensures db.transactions <= d.transactions
    ensures op.Transfer? ==> RowOf(op.req) in d.transactions
  {
    if op.Transfer? { assert d.transactions[|db.transactions|] == RowOf(op.req); }
  }

  lemma {:induction false} RowsInEveryRun(opening: Db, sys: WalletId, actions: seq<Action>)
    requires Good(opening, sys)
    ensures AllRecorded(Reached(opening, sys, actions))
  {
    if actions != [] {
      var prefix, a := actions[..|actions| - 1], actions[|actions| - 1];
      RowsInEveryRun(opening, sys, prefix);
      EachCommitDoes(opening, sys, prefix, a);
      assert prefix + [a] == actions;
      var s, s' := Reached(opening, sys, prefix), Reached(opening, sys, actions);
      if s'.log != s.log {
        RowsStay(s.db, s'.db, sys, s'.log[|s.log|].op);
        assert forall k :: 0 <= k < |s.log| ==> s'.log[k] == s'.log[..|s.log|][k];
      }
    }
  }

  /** Over every interleaving each committed transfer is recorded in exactly one row, which has its own fields. */
  lemma EveryTransferIsRecorded(opening: Db, sys: WalletId, actions: seq<Action>, k: nat)
    requires Good(opening, sys) && k < |Reached(opening, sys, actions).log|
    ensures var s := Reached(opening, sys, actions); Recorded(s.db, s.log[k].op)
  {
    RowsInEveryRun(opening, sys, actions);
    RunKeepsInv(opening, sys, actions);
    var db := Reached(opening, sys, actions).db;
    assert forall i, j :: 0 <= i < j < |db.transactions| ==> db.transactions[i].key != db.transactions[j].key;
  }

  // ---------------------------------------------------------------- frozen wallets

  predicate Freezes(op: Op, w: WalletId) {
    op == Freeze(w) || (op.Suspend? && op.wallet == w)
  }

  predicate Uses(op: Op, w: WalletId) {
    op.Transfer? && (op.req.sender == w || op.req.receiver == w)
  }

  /** The wallet was frozen by the j-th commit and has not been activated since. */
  ghost predicate FrozenSince(log: seq<Committed>, w: WalletId, j: nat) {
    j < |log| && Freezes(log[j].op, w) && forall m :: j < m < |log| ==> log[m].op != Activate(w)
  }

  ghost predicate FrozenRest(s: State) {
    && (forall w, j: nat :: FrozenSince(s.log, w, j) ==> w in s.db.wallets && !s.db.wallets[w].active)
    && (forall w, j: nat, k: nat :: j < k < |s.log| && Freezes(s.log[j].op, w) && Uses(s.log[k].op, w) ==>
          ActivatedBetween(s.log, w, j, k))
  }

  ghost predicate ActivatedBetween(log: seq<Committed>, w: WalletId, j: nat, k: nat)
    requires k <= |log|
  {
    exists m: nat :: j < m < k && log[m].op == Activate(w)
  }

  lemma StaysInactive(db: Db, d: Db, sys: WalletId, op: Op, w: WalletId)
    requires Does(db, d, sys, op) && op != Activate(w) && w in db.wallets && !db.wallets[w].active
    ensures w in d.wallets && !d.wallets[w].active && !Uses(op, w)
  {}

  lemma FreezingDeactivates(db: Db, d: Db, sys: WalletId, op: Op, w: WalletId)
    requires Does(db, d, sys, op) && Freezes(op, w)
    ensures w in d.wallets && !d.wallets[w].active
  {}

  lemma FrozenNow(s: State, s': State, sys: WalletId, c: Committed, w: WalletId, j: nat)
    requires FrozenRest(s) && s'.log == s.log + [c] && Does(s.db, s'.db, sys, c.op) && FrozenSince(s'.log, w, j)
    ensures w in s'.db.wallets && !s'.db.wallets[w].active
  {
    if j == |s.log| {
      FreezingDeactivates(s.db, s'.db, sys, c.op, w);
    } else {
      assert s'.log[|s.log|] == c;
      assert forall m :: 0 <= m < |s.log| ==> s'.log[m] == s.log[m];
      assert FrozenSince(s.log, w, j);
      StaysInactive(s.db, s'.db, sys, c.op, w);
    }
  }

  lemma UsedAfterActivation(s: State, s': State, sys: WalletId, c: Committed, w: WalletId, j: nat, k: nat)
    requires FrozenRest(s) && s'.log == s.log + [c] && Does(s.db, s'.db, sys, c.op)
    requires j < k < |s'.log| && Freezes(s'.log[j].op, w) && Uses(s'.log[k].op, w)
    ensures ActivatedBetween(s'.log, w, j, k)
  {
    assert forall m :: 0 <= m < |s.log| ==> s'.log[m] == s.log[m];
    if k < |s.log| {
      assert Freezes(s.log[j].op, w) && Uses(s.log[k].op, w);
      assert ActivatedBetween(s.log, w, j, k);
      var m: nat :| j < m < k && s.log[m].op == Activate(w);
      assert s'.log[m].op == Activate(w);
    } else if FrozenSince(s.log, w, j) {
      StaysInactive(s.db, s'.db, sys, c.op, w);
    } else {
      var m: nat :| j < m < |s.log| && s.log[m].op == Activate(w);
      assert s'.log[m].op == Activate(w);
    }
  }

  lemma CommitKeepsFrozen(s: State, s': State, sys: WalletId, c: Committed)
    requires FrozenRest(s) && s'.log == s.log + [c] && Does(s.db, s'.db, sys, c.op)
    ensures FrozenRest(s')
  {
    forall w, j: nat | FrozenSince(s'.log, w, j) ensures w in s'.db.wallets && !s'.db.wallets[w].active {
      FrozenNow(s, s', sys, c, w, j);
    }
    forall w, j: nat, k: nat | j < k < |s'.log| && Freezes(s'.log[j].op, w) && Uses(s'.log[k].op, w)
      ensures ActivatedBetween(s'.log, w, j, k)
    {
      UsedAfterActivation(s, s', sys, c, w, j, k);
    }
  }

  /** Over every interleaving a wallet frozen by a committed freeze or suspension is inactive, and neither sends nor
      receives in any committed transfer, until an activation of it commits. */
  lemma {:induction false} FrozenWalletsRest(opening: Db, sys: WalletId, actions: seq<Action>)
    requires Good(opening, sys)
    ensures FrozenRest(Reached(opening, sys, actions))
  {
    if actions != [] {
      var prefix, a := actions[..|actions| - 1], actions[|actions| - 1];
      FrozenWalletsRest(opening, sys, prefix);
      EachCommitDoes(opening, sys, prefix, a);
      assert prefix + [a] == actions;
      var s, s' := Reached(opening, sys, prefix), Reached(opening, sys, actions);
      if s'.log != s.log {
        CommitKeepsFrozen(s, s', sys, s'.log[|s.log|]);
      }
    }
  }
}
