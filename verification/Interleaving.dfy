/** Transfers, freezes, activations, suspensions, reactivations and logins running at once, one SQL
    statement per step. A statement that writes a row first takes that row's lock and keeps it until its
    transaction ends; its writes stay in the transaction's stage and become visible at commit. */
module Interleaving {
  import opened Wrappers
  import opened Bank
  import Money

  datatype Row =
    | WalletRow(wallet: WalletId)
    | UserRow(user: UserId)
    | SessionRows(owner: UserId)
    | KeyRow(key: Key)            // the unique-index entry of an idempotency key

  datatype Stage = Stage(
    wallets: map<WalletId, Wallet>,
    users: map<UserId, User>,
    sessions: map<UserId, set<DeviceId>>,
    rows: seq<TxRow>,
    entries: seq<Entry>)

  const NOTHING := Stage(map[], map[], map[], [], [])

  /** What a transaction sees: the committed rows under its own writes. Publishing it is the commit. */
  function View(db: Db, stage: Stage): Db {
    Db(db.wallets + stage.wallets, db.users + stage.users, db.sessions + stage.sessions,
       db.transactions + stage.rows, db.ledger + stage.entries)
  }

  // The next statement of a transaction.
  datatype Pc =
    // transfer
    | LockRows | ReadSender | ReadReceiver | ReadSystem | InsertRow
    | DebitSender | WriteDebit | CreditReceiver | WriteCredit | CreditSystem | WriteFee
    // activation
    | SetActiveFlag | CheckOwner
    // suspension
    | FindUser | FreezeWallet | RestrictUser | ClearSessions
    // single-statement operations
    | OneStatement
    | Commit

  // `funds`, `senderAfter` and `receiverAfter` are the balances its reads and updates have returned so far.
  datatype Txn = Txn(op: Op, pc: Pc, held: set<Row>, stage: Stage, funds: int, senderAfter: int, receiverAfter: int)

  function Start(op: Op): Txn {
    var pc := match op
              case Transfer(_) => LockRows
              case Activate(_) => SetActiveFlag
              case Suspend(_, _) => FindUser
              case _ => OneStatement;
    Txn(op, pc, {}, NOTHING, 0, 0, 0)
  }

  datatype Outcome =
    | Blocked                 // another transaction holds the row
    | Continue(txn: Txn)
    | Finish(db: Db)          // committed
    | Fail(error: BankError)  // rolled back

  function WalletsToLock(req: Request, sys: WalletId): set<Row> {
    {WalletRow(req.sender), WalletRow(req.receiver), WalletRow(sys)}
  }

  function Update(t: Txn, w: WalletId, row: Wallet, pc: Pc): Outcome {
    Continue(t.(stage := t.stage.(wallets := t.stage.wallets[w := row]), pc := pc))
  }

  function Append(t: Txn, e: Entry, pc: Pc): Outcome {
    Continue(t.(stage := t.stage.(entries := t.stage.entries + [e]), pc := pc))
  }

  /** One statement of a transfer; `busy` are the rows other transactions hold. */
  function TransferStatement(db: Db, sys: WalletId, t: Txn, req: Request, busy: set<Row>): Outcome {
    var ws := View(db, t.stage).wallets;
    match t.pc
    case ReadSender =>
      if Usable(db, req.sender) then Continue(t.(pc := ReadReceiver, funds := db.wallets[req.sender].balance))
      else Fail(ParticipantRestricted)
    case ReadReceiver =>
      if Usable(db, req.receiver) then Continue(t.(pc := ReadSystem)) else Fail(ParticipantRestricted)
    case ReadSystem =>
      if SystemUsable(db, sys) then Continue(t.(pc := InsertRow)) else Fail(ParticipantRestricted)
    case InsertRow =>
      if Money.IsLessThan(t.funds, req.Total()) then Fail(InsufficientFunds)
      else if KeyRow(req.key) in busy then Blocked
      else if HasKey(db, req.key) then Fail(DuplicateTransaction)
      else Continue(t.(held := t.held + {KeyRow(req.key)},
                       stage := t.stage.(rows := t.stage.rows + [req.Row()]), pc := DebitSender))
    case DebitSender =>
      if req.sender !in ws then Fail(WalletNotFound)
      else
        var row := Move(ws, req.sender, -req.Total())[req.sender];
        Update(t.(senderAfter := row.balance), req.sender, row, WriteDebit)
    case WriteDebit =>
      if req.sender !in ws then Fail(WalletNotFound)
      else Append(t, Entry(req.key, req.sender, Debit, req.Total(), ws[req.sender].balance), CreditReceiver)
    case CreditReceiver =>
      if req.receiver !in ws then Fail(WalletNotFound)
      else if !Fits(ws[req.receiver].balance + req.amount) then Fail(BalanceOverflow)
      else
        var row := Move(ws, req.receiver, req.amount)[req.receiver];
        Update(t.(receiverAfter := row.balance), req.receiver, row, WriteCredit)
    case WriteCredit =>
      if req.receiver !in ws then Fail(WalletNotFound)
      else Append(t, Entry(req.key, req.receiver, Credit, req.amount, ws[req.receiver].balance),
                  if req.fee == 0 then Commit else CreditSystem)
    case CreditSystem =>
      if sys !in ws then Fail(WalletNotFound)
      else if !Fits(ws[sys].balance + req.fee) then Fail(BalanceOverflow)
      else Update(t, sys, Move(ws, sys, req.fee)[sys], WriteFee)
    case WriteFee =>
      if sys !in ws then Fail(WalletNotFound)
      else Append(t, Entry(req.key, sys, Credit, req.fee, ws[sys].balance), Commit)
    case Commit => Finish(View(db, t.stage))
    case _ => Blocked
  }

  function ActivateStatement(db: Db, t: Txn, w: WalletId, busy: set<Row>): Outcome {
    match t.pc
    case SetActiveFlag =>
      if WalletRow(w) in busy then Blocked
      else (match ManageRefusal(db, w)
            case Some(e) => Fail(e)
            case None =>
              if db.wallets[w].active then Fail(WalletStateChanged)
              else Update(t.(held := t.held + {WalletRow(w)}), w, db.wallets[w].(active := true), CheckOwner))
    case CheckOwner =>
      if w in View(db, t.stage).wallets && OwnerActive(View(db, t.stage), w) then Continue(t.(pc := Commit))
      else Fail(AccountNotActive)
    case Commit => Finish(View(db, t.stage))
    case _ => Blocked
  }

  function SuspendStatement(db: Db, t: Txn, u: UserId, w: WalletId, busy: set<Row>): Outcome {
    match t.pc
    case FindUser =>
      if Suspendable(db, u) && OwnWallet(db, u, w) then Continue(t.(pc := FreezeWallet)) else Fail(AccountNotFound)
    case FreezeWallet =>
      if WalletRow(w) in busy then Blocked
      else if !OwnWallet(db, u, w) then Fail(AccountWalletChanged)
      else Update(t.(held := t.held + {WalletRow(w)}), w, db.wallets[w].(active := false), RestrictUser)
    case RestrictUser =>
      if UserRow(u) in busy then Blocked
      else if !Suspendable(db, u) then Fail(AccountStateChanged)
      else Continue(t.(held := t.held + {UserRow(u)},
                       stage := t.stage.(users := t.stage.users[u := db.users[u].(status := Suspended)]),
                       pc := ClearSessions))
    case ClearSessions =>
      if SessionRows(u) in busy then Blocked
      else Continue(t.(held := t.held + {SessionRows(u)},
                       stage := t.stage.(sessions := t.stage.sessions[u := {}]), pc := Commit))
    case Commit => Finish(View(db, t.stage))
    case _ => Blocked
  }

  // The row a single-statement operation writes.
  function WrittenRow(op: Op): Row {
    match op
    case Freeze(w) => WalletRow(w)
    case Activate(w) => WalletRow(w)
    case Suspend(_, w) => WalletRow(w)
    case Reactivate(u) => UserRow(u)
    case OpenSession(u, _) => SessionRows(u)
    case Transfer(req) => KeyRow(req.key)
  }

  function Statement(db: Db, sys: WalletId, t: Txn, busy: set<Row>): Outcome {
    match t.op
    case Transfer(req) => TransferStatement(db, sys, t, req, busy)
    case Activate(w) => ActivateStatement(db, t, w, busy)
    case Suspend(u, w) => SuspendStatement(db, t, u, w, busy)
    case _ =>
      if WrittenRow(t.op) in busy then Blocked
      else match Apply(db, sys, t.op)
           case Ok(d) => Finish(d)
           case Err(e) => Fail(e)
  }

  // ---------------------------------------------------------------- runs

  type TxnId = nat

  datatype Committed = Committed(id: TxnId, op: Op, newBalance: Option<int>)

  datatype State = State(db: Db, txns: map<TxnId, Txn>, begun: map<TxnId, Op>, log: seq<Committed>)

  datatype Action =
    | Begin(id: TxnId, op: Op)
    | Lock(id: TxnId, wallet: WalletId)  // SELECT ... FOR NO KEY UPDATE visits one more row
    | Step(id: TxnId)
    | Abort(id: TxnId)                   // crash, timeout, lost connection, deadlock victim

  function Init(db: Db): State {
    State(db, map[], map[], [])
  }

  function Busy(s: State, i: TxnId): set<Row> {
    set j, r | j in s.txns && j != i && r in s.txns[j].held :: r
  }

  function AfterLock(t: Txn, sys: WalletId, w: WalletId): Txn
    requires t.op.Transfer?
  {
    var held := t.held + {WalletRow(w)};
    t.(held := held, pc := if WalletsToLock(t.op.req, sys) <= held then ReadSender else LockRows)
  }

  predicate CanLock(s: State, sys: WalletId, i: TxnId, w: WalletId) {
    && i in s.txns
    && s.txns[i].op.Transfer? && s.txns[i].pc == LockRows
    && WalletRow(w) in WalletsToLock(s.txns[i].op.req, sys) - s.txns[i].held
    && w in s.db.wallets
    && WalletRow(w) !in Busy(s, i)
  }

  predicate CanBegin(s: State, i: TxnId, op: Op) {
    i !in s.begun && (op.Transfer? ==> Priced(op.req) && Shaped(s.db, op.req))
  }

  /** The balance a transfer replies with: the sender's, or the receiver's when SYSTEM itself sends. */
  function NewBalance(t: Txn, sys: WalletId): Option<int> {
    match t.op
    case Transfer(req) => Some(if req.sender == sys then t.receiverAfter else t.senderAfter)
    case _ => None
  }

  function Commits(s: State, sys: WalletId, i: TxnId, d: Db): State
    requires i in s.txns
  {
    s.(db := d, txns := s.txns - {i}, log := s.log + [Committed(i, s.txns[i].op, NewBalance(s.txns[i], sys))])
  }

  /** A step that is not possible leaves the state as it is. */
  function Next(s: State, sys: WalletId, a: Action): State {
    match a
    case Begin(i, op) =>
      if CanBegin(s, i, op) then s.(txns := s.txns[i := Start(op)], begun := s.begun[i := op]) else s
    case Lock(i, w) =>
      if CanLock(s, sys, i, w) then s.(txns := s.txns[i := AfterLock(s.txns[i], sys, w)]) else s
    case Abort(i) => s.(txns := s.txns - {i})
    case Step(i) =>
      if i !in s.txns then s
      else match Statement(s.db, sys, s.txns[i], Busy(s, i))
           case Blocked => s
           case Continue(t) => s.(txns := s.txns[i := t])
           case Fail(_) => s.(txns := s.txns - {i})
           case Finish(d) => Commits(s, sys, i, d)
  }

  function Run(s: State, sys: WalletId, actions: seq<Action>): State {
    if actions == [] then s else Next(Run(s, sys, actions[..|actions| - 1]), sys, actions[|actions| - 1])
  }

  function Ops(log: seq<Committed>): seq<Op> {
    seq(|log|, i requires 0 <= i < |log| => log[i].op)
  }

  // ---------------------------------------------------------------- what each in-flight transaction knows

  function Level(pc: Pc): nat {
    match pc
    case LockRows => 0
    case ReadSender => 1
    case ReadReceiver => 2
    case ReadSystem => 3
    case InsertRow => 4
    case DebitSender => 5
    case WriteDebit => 6
    case CreditReceiver => 7
    case WriteCredit => 8
    case CreditSystem => 9
    case WriteFee => 10
    case Commit => 11
    case _ => 12
  }

  function StagedWallets(db: Db, sys: WalletId, req: Request, n: nat): map<WalletId, Wallet>
    requires Participants(db, sys, req)
  {
    var afterDebit := map[req.sender := AfterDebit(db, req)[req.sender]];
    var afterCredit := afterDebit[req.receiver := AfterCredit(db, req)[req.receiver]];
    if n <= 5 then map[]
    else if n <= 7 then afterDebit
    else if n <= 9 || req.fee == 0 then afterCredit
    else afterCredit[sys := AfterFee(db, sys, req)[sys]]
  }

  function StagedEntries(db: Db, sys: WalletId, req: Request, n: nat): seq<Entry>
    requires Participants(db, sys, req)
  {
    if n <= 6 then []
    else if n <= 8 then [DebitEntry(db, req)]
    else if n <= 10 then [DebitEntry(db, req), CreditEntry(db, req)]
    else Entries(db, sys, req)
  }

  ghost predicate TransferKnows(db: Db, sys: WalletId, t: Txn, req: Request) {
    var n := Level(t.pc);
    && n <= 11
    && Priced(req) && Shaped(db, req)
    && t.held <= WalletsToLock(req, sys) + {KeyRow(req.key)}
    && (n >= 1 <==> WalletsToLock(req, sys) <= t.held)
    && (KeyRow(req.key) in t.held <==> n >= 5)
    && (n >= 2 ==> Usable(db, req.sender) && t.funds == db.wallets[req.sender].balance)
    && (n >= 3 ==> Usable(db, req.receiver))
    && (n >= 4 ==> SystemUsable(db, sys))
    && (n >= 5 ==> req.Total() <= t.funds && !HasKey(db, req.key))
    && Participants(db, sys, req)
    && (n >= 6 ==> t.senderAfter == BalanceOf(AfterDebit(db, req), req.sender))
    && (n >= 8 ==> t.receiverAfter == BalanceOf(AfterCredit(db, req), req.receiver) && Fits(t.receiverAfter))
    && (n >= 10 && req.fee != 0 ==> Fits(BalanceOf(AfterFee(db, sys, req), sys)))
    && (n in {9, 10} ==> req.fee != 0)
    && t.stage == Stage(StagedWallets(db, sys, req, n), map[], map[], if n >= 5 then [req.Row()] else [],
                        StagedEntries(db, sys, req, n))
  }

  ghost predicate ActivateKnows(db: Db, t: Txn, w: WalletId) {
    match t.pc
    case SetActiveFlag => t.held == {} && t.stage == NOTHING
    case CheckOwner => ActivationStaged(db, t, w)
    case Commit => ActivationStaged(db, t, w) && OwnerActive(db, w)
    case _ => false
  }

  ghost predicate ActivationStaged(db: Db, t: Txn, w: WalletId) {
    && t.held == {WalletRow(w)}
    && ManageRefusal(db, w) == None && !db.wallets[w].active
    && t.stage == NOTHING.(wallets := map[w := db.wallets[w].(active := true)])
  }

  ghost predicate SuspendKnows(db: Db, t: Txn, u: UserId, w: WalletId) {
    match t.pc
    case FindUser => t.held == {} && t.stage == NOTHING
    case FreezeWallet => t.held == {} && t.stage == NOTHING
    case RestrictUser =>
      && t.held == {WalletRow(w)} && OwnWallet(db, u, w)
      && t.stage == NOTHING.(wallets := map[w := db.wallets[w].(active := false)])
    case ClearSessions =>
      && t.held == {WalletRow(w), UserRow(u)} && OwnWallet(db, u, w) && Suspendable(db, u)
      && t.stage == NOTHING.(wallets := map[w := db.wallets[w].(active := false)],
                             users := map[u := db.users[u].(status := Suspended)])
    case Commit =>
      && t.held == {WalletRow(w), UserRow(u), SessionRows(u)} && OwnWallet(db, u, w) && Suspendable(db, u)
      && t.stage == NOTHING.(wallets := map[w := db.wallets[w].(active := false)],
                             users := map[u := db.users[u].(status := Suspended)],
                             sessions := map[u := {}])
    case _ => false
  }

  /** The facts a transaction relies on hold of the committed rows, and its stage is what its statements so far
      wrote. */
  ghost predicate Knows(db: Db, sys: WalletId, t: Txn) {
    match t.op
    case Transfer(req) => TransferKnows(db, sys, t, req)
    case Activate(w) => ActivateKnows(db, t, w)
    case Suspend(u, w) => SuspendKnows(db, t, u, w)
    case _ => t.pc == OneStatement && t.held == {} && t.stage == NOTHING
  }

  // ---------------------------------------------------------------- one transaction's own steps

  ghost predicate TransferGoesOn(db: Db, sys: WalletId, t: Txn, req: Request, busy: set<Row>) {
    match TransferStatement(db, sys, t, req, busy)
    case Continue(t') =>
      TransferKnows(db, sys, t', req) && t'.op == t.op && t'.held - t.held <= {KeyRow(req.key)} - busy
    case Finish(d) =>
      && ApplyTransfer(db, sys, req) == Ok(d) && WalletsToLock(req, sys) + {KeyRow(req.key)} <= t.held
      && (t.op == Transfer(req) ==> NewBalance(t, sys) == Some(ReportedBalance(db, Some(sys), req)))
    case Fail(e) => ApplyTransfer(db, sys, req) == Err(e)
    case Blocked => true
  }

  // SYSTEM takes no part as sender or receiver.
  predicate Apart(req: Request, sys: WalletId) {
    req.sender != sys && req.receiver != sys
  }

  lemma TransferReads(db: Db, sys: WalletId, t: Txn, req: Request, busy: set<Row>)
    requires TransferKnows(db, sys, t, req) && Apart(req, sys) && Level(t.pc) <= 4
    ensures TransferGoesOn(db, sys, t, req, busy)
  {
  }

  lemma TransferDebits(db: Db, sys: WalletId, t: Txn, req: Request, busy: set<Row>)
    requires TransferKnows(db, sys, t, req) && Apart(req, sys) && t.pc == DebitSender
    ensures TransferGoesOn(db, sys, t, req, busy)
  {
    assert View(db, t.stage).wallets == db.wallets;
    assert StagedWallets(db, sys, req, 6) == map[][req.sender := AfterDebit(db, req)[req.sender]];
  }

  lemma TransferRecordsDebit(db: Db, sys: WalletId, t: Txn, req: Request, busy: set<Row>)
    requires TransferKnows(db, sys, t, req) && Apart(req, sys) && t.pc == WriteDebit
    ensures TransferGoesOn(db, sys, t, req, busy)
  {
    assert View(db, t.stage).wallets[req.sender] == AfterDebit(db, req)[req.sender];
    assert [] + [DebitEntry(db, req)] == [DebitEntry(db, req)];
  }

  lemma TransferCredits(db: Db, sys: WalletId, t: Txn, req: Request, busy: set<Row>)
    requires TransferKnows(db, sys, t, req) && Apart(req, sys) && t.pc == CreditReceiver
    ensures TransferGoesOn(db, sys, t, req, busy)
  {
    assert View(db, t.stage).wallets == AfterDebit(db, req);
    assert AfterCredit(db, req)[req.receiver] == Move(AfterDebit(db, req), req.receiver, req.amount)[req.receiver];
  }

  lemma TransferRecordsCredit(db: Db, sys: WalletId, t: Txn, req: Request, busy: set<Row>)
    requires TransferKnows(db, sys, t, req) && Apart(req, sys) && t.pc == WriteCredit
    ensures TransferGoesOn(db, sys, t, req, busy)
  {
    assert View(db, t.stage).wallets[req.receiver] == AfterCredit(db, req)[req.receiver];
    assert [DebitEntry(db, req)] + [CreditEntry(db, req)] == [DebitEntry(db, req), CreditEntry(db, req)];
    assert req.fee == 0 ==> Entries(db, sys, req) == [DebitEntry(db, req), CreditEntry(db, req)];
  }

  lemma TransferCollectsFee(db: Db, sys: WalletId, t: Txn, req: Request, busy: set<Row>)
    requires TransferKnows(db, sys, t, req) && Apart(req, sys) && t.pc == CreditSystem
    ensures TransferGoesOn(db, sys, t, req, busy)
  {
    assert View(db, t.stage).wallets == AfterCredit(db, req);
    assert AfterFee(db, sys, req)[sys] == Move(AfterCredit(db, req), sys, req.fee)[sys];
  }

  lemma TransferRecordsFee(db: Db, sys: WalletId, t: Txn, req: Request, busy: set<Row>)
    requires TransferKnows(db, sys, t, req) && Apart(req, sys) && t.pc == WriteFee
    ensures TransferGoesOn(db, sys, t, req, busy)
  {
    assert View(db, t.stage).wallets[sys] == AfterFee(db, sys, req)[sys];
    assert t.stage.entries + [FeeEntry(db, sys, req)] == Entries(db, sys, req);
  }

  lemma TransferCommits(db: Db, sys: WalletId, t: Txn, req: Request, busy: set<Row>)
    requires TransferKnows(db, sys, t, req) && Apart(req, sys) && t.pc == Commit
    ensures TransferGoesOn(db, sys, t, req, busy)
  {
    assert View(db, t.stage).wallets == AfterFee(db, sys, req);
    assert View(db, t.stage) == Posted(db, sys, req);
  }

  lemma TransferStatementKnows(db: Db, sys: WalletId, t: Txn, req: Request, busy: set<Row>)
    requires Good(db, sys) && TransferKnows(db, sys, t, req)
    ensures TransferGoesOn(db, sys, t, req, busy)
  {
    assert Apart(req, sys);
    match t.pc
    case DebitSender => TransferDebits(db, sys, t, req, busy);
    case WriteDebit => TransferRecordsDebit(db, sys, t, req, busy);
    case CreditReceiver => TransferCredits(db, sys, t, req, busy);
    case WriteCredit => TransferRecordsCredit(db, sys, t, req, busy);
    case CreditSystem => TransferCollectsFee(db, sys, t, req, busy);
    case WriteFee => TransferRecordsFee(db, sys, t, req, busy);
    case Commit => TransferCommits(db, sys, t, req, busy);
    case _ => TransferReads(db, sys, t, req, busy);
  }

  lemma ActivateStatementKnows(db: Db, sys: WalletId, t: Txn, w: WalletId, busy: set<Row>)
    requires Good(db, sys) && ActivateKnows(db, t, w)
    ensures match ActivateStatement(db, t, w, busy)
            case Continue(t') => ActivateKnows(db, t', w) && t'.op == t.op && t'.held - t.held <= {WalletRow(w)} - busy
            case Finish(d) => ApplyActivate(db, w) == Ok(d) && WalletRow(w) in t.held
            case Fail(e) => ApplyActivate(db, w) == Err(e)
            case Blocked => true
  {
    if t.pc == Commit {
      assert View(db, t.stage) == ApplyActivate(db, w).value;
    }
  }

  lemma SuspendGoesOn(db: Db, t: Txn, u: UserId, w: WalletId, busy: set<Row>)
    requires SuspendKnows(db, t, u, w) && t.pc != Commit
    ensures match SuspendStatement(db, t, u, w, busy)
            case Continue(t') =>
              && SuspendKnows(db, t', u, w) && t'.op == t.op
              && t'.held - t.held <= {WalletRow(w), UserRow(u), SessionRows(u)} - busy
            case Finish(d) => false
            case Fail(_) => ApplySuspend(db, u, w).Err?
            case Blocked => true
  {}

  lemma SuspendCommits(db: Db, t: Txn, u: UserId, w: WalletId, busy: set<Row>)
    requires SuspendKnows(db, t, u, w) && t.pc == Commit
    ensures SuspendStatement(db, t, u, w, busy) == Finish(View(db, t.stage))
    ensures ApplySuspend(db, u, w) == Ok(View(db, t.stage))
  {
    var d := ApplySuspend(db, u, w).value;
    assert View(db, t.stage).wallets == d.wallets;
    assert View(db, t.stage).users == d.users;
    assert View(db, t.stage).sessions == d.sessions;
    assert View(db, t.stage).transactions == d.transactions && View(db, t.stage).ledger == d.ledger;
  }

  lemma SuspendStatementKnows(db: Db, sys: WalletId, t: Txn, u: UserId, w: WalletId, busy: set<Row>)
    requires SuspendKnows(db, t, u, w)
    ensures match SuspendStatement(db, t, u, w, busy)
            case Continue(t') =>
              && SuspendKnows(db, t', u, w) && t'.op == t.op
              && t'.held - t.held <= {WalletRow(w), UserRow(u), SessionRows(u)} - busy
            case Finish(d) =>
              ApplySuspend(db, u, w) == Ok(d) && {WalletRow(w), UserRow(u), SessionRows(u)} <= t.held
            case Fail(_) => ApplySuspend(db, u, w).Err?
            case Blocked => true
  {
    if t.pc == Commit { SuspendCommits(db, t, u, w, busy); } else { SuspendGoesOn(db, t, u, w, busy); }
  }

  /** A suspension's refusal names the statement that missed: no account or wallet to suspend, the wallet changed
      since, or the account. */
  lemma SuspensionNamesItsMiss(db: Db, t: Txn, u: UserId, w: WalletId, busy: set<Row>)
    requires SuspendKnows(db, t, u, w) && SuspendStatement(db, t, u, w, busy).Fail?
    ensures var e := SuspendStatement(db, t, u, w, busy).error;
            && (e == AccountNotFound ==> t.held == {} && t.stage == NOTHING && ApplySuspend(db, u, w).Err?)
            && (e == AccountWalletChanged ==>
                  !(w in db.wallets && db.wallets[w].owner == Some(u) && db.wallets[w].kind != System))
            && (e == AccountStateChanged ==>
                  && WalletRow(w) in t.held
                  && !(u in db.users && db.users[u].role != Admin && db.users[u].status != Locked))
            && e in {AccountNotFound, AccountWalletChanged, AccountStateChanged}
  {}

  // ---------------------------------------------------------------- other transactions' commits

  /** The rows an operation's commit may change. */
  function Footprint(op: Op, sys: WalletId): set<Row> {
    match op
    case Transfer(req) => WalletsToLock(req, sys) + {KeyRow(req.key)}
    case Suspend(u, w) => {WalletRow(w), UserRow(u), SessionRows(u)}
    case _ => {WrittenRow(op)}
  }

  /** Between `db` and `d` nothing changed that a transaction holding `held` relies on. Note the third
      clause: user rows are never locked by a transfer, yet its owners stay ACTIVE. */
  ghost predicate Steady(db: Db, d: Db, held: set<Row>) {
    && d.wallets.Keys == db.wallets.Keys && d.users.Keys == db.users.Keys
    && (forall w :: w in db.wallets ==>
          d.wallets[w].owner == db.wallets[w].owner && d.wallets[w].kind == db.wallets[w].kind)
    && (forall w :: w in db.wallets && WalletRow(w) in held && OwnerActive(db, w) ==> OwnerActive(d, w))
    && (forall w :: w in db.wallets && WalletRow(w) in held ==> d.wallets[w] == db.wallets[w])
    && (forall u :: u in db.users && UserRow(u) in held ==> d.users[u] == db.users[u])
    && (forall k :: KeyRow(k) in held ==> (HasKey(d, k) <==> HasKey(db, k)))
  }

  lemma HasKeyAfter(db: Db, sys: WalletId, req: Request, k: Key)
    requires Participants(db, sys, req)
    ensures HasKey(Posted(db, sys, req), k) <==> HasKey(db, k) || k == req.key
  {
    var d := Posted(db, sys, req);
    if HasKey(db, k) {
      var i :| 0 <= i < |db.transactions| && db.transactions[i].key == k;
      assert d.transactions[i].key == k;
    }
    assert d.transactions[|db.transactions|].key == req.key;
  }

  lemma TransferIsSteady(db: Db, sys: WalletId, req: Request, held: set<Row>)
    requires Participants(db, sys, req) && held !! WalletsToLock(req, sys) + {KeyRow(req.key)}
    ensures Steady(db, Posted(db, sys, req), held)
  {
    var d := Posted(db, sys, req);
    forall k | KeyRow(k) in held ensures HasKey(d, k) <==> HasKey(db, k) { HasKeyAfter(db, sys, req, k); }
    forall w | w in db.wallets
      ensures d.wallets[w].(balance := 0) == db.wallets[w].(balance := 0)
      ensures WalletRow(w) in held ==> d.wallets[w] == db.wallets[w]
    {}
  }

  lemma SuspensionIsSteady(db: Db, sys: WalletId, u: UserId, w: WalletId, held: set<Row>)
    requires SchemaOk(db, sys) && ApplySuspend(db, u, w).Ok? && WalletRow(w) !in held && UserRow(u) !in held
    ensures Steady(db, ApplySuspend(db, u, w).value, held)
  {
    var d := ApplySuspend(db, u, w).value;
    // The suspended user's only wallet is w, whose row the suspension holds.
    forall v | v in db.wallets && WalletRow(v) in held && OwnerActive(db, v) ensures OwnerActive(d, v) {
      assert v != w;
    }
    assert d.transactions == db.transactions;
  }

  lemma ActivityIsSteady(db: Db, w: WalletId, flag: bool, held: set<Row>)
    requires w in db.wallets && WalletRow(w) !in held
    ensures Steady(db, db.(wallets := SetActive(db.wallets, w, flag)), held)
  {
    assert db.(wallets := SetActive(db.wallets, w, flag)).transactions == db.transactions;
  }

  lemma UserChangeIsSteady(db: Db, sys: WalletId, op: Op, held: set<Row>)
    requires (op.Reactivate? || op.OpenSession?) && Apply(db, sys, op).Ok? && WrittenRow(op) !in held
    ensures Steady(db, Apply(db, sys, op).value, held)
  {
    assert Apply(db, sys, op).value.transactions == db.transactions;
  }

  lemma CommitIsSteady(db: Db, sys: WalletId, op: Op, held: set<Row>)
    requires SchemaOk(db, sys) && Apply(db, sys, op).Ok? && held !! Footprint(op, sys)
    ensures Steady(db, Apply(db, sys, op).value, held)
  {
    assert !op.Transfer? ==> WrittenRow(op) in Footprint(op, sys);
    match op
    case Transfer(req) => TransferIsSteady(db, sys, req, held);
    case Freeze(w) => ActivityIsSteady(db, w, false, held);
    case Activate(w) => ActivityIsSteady(db, w, true, held);
    case Suspend(u, w) =>
      assert UserRow(u) in Footprint(op, sys);
      SuspensionIsSteady(db, sys, u, w, held);
    case _ => UserChangeIsSteady(db, sys, op, held);
  }

  lemma KnowsSurvives(db: Db, d: Db, sys: WalletId, t: Txn)
    requires Knows(db, sys, t) && Steady(db, d, t.held)
    ensures Knows(d, sys, t)
  {
    match t.op
    case Transfer(req) => TransferKnowsSurvives(db, d, sys, t, req);
    case _ =>
  }

  lemma TransferKnowsSurvives(db: Db, d: Db, sys: WalletId, t: Txn, req: Request)
    requires TransferKnows(db, sys, t, req) && Steady(db, d, t.held)
    ensures TransferKnows(d, sys, t, req)
  {
    var n := Level(t.pc);
    if n >= 1 {
      assert WalletRow(req.sender) in t.held && WalletRow(req.receiver) in t.held && WalletRow(sys) in t.held;
      assert StagedWallets(d, sys, req, n) == StagedWallets(db, sys, req, n);
      assert StagedEntries(d, sys, req, n) == StagedEntries(db, sys, req, n);
    }
  }

  // ---------------------------------------------------------------- every run

  ghost predicate Exclusive(s: State) {
    forall i, j :: i in s.txns && j in s.txns && i != j ==> s.txns[i].held !! s.txns[j].held
  }

  ghost predicate Recorded(s: State) {
    && (forall i :: i in s.txns ==> i in s.begun && s.begun[i] == s.txns[i].op)
    && (forall k :: 0 <= k < |s.log| ==>
          s.log[k].id in s.begun && s.begun[s.log[k].id] == s.log[k].op && s.log[k].id !in s.txns)
    && (forall j, k :: 0 <= j < k < |s.log| ==> s.log[j].id != s.log[k].id)
  }

  ghost predicate AllKnow(s: State, sys: WalletId) {
    forall i :: i in s.txns ==> Knows(s.db, sys, s.txns[i])
  }

  ghost predicate Serial(s: State, sys: WalletId, opening: Db) {
    Replay(opening, sys, Ops(s.log)) == Ok(s.db)
  }

  ghost predicate Inv(s: State, sys: WalletId, opening: Db) {
    && Good(s.db, sys)
    && Exclusive(s)
    && AllKnow(s, sys)
    && Recorded(s)
    && Serial(s, sys, opening)
  }

  lemma ReplayAppends(opening: Db, sys: WalletId, log: seq<Committed>, c: Committed)
    ensures Replay(opening, sys, Ops(log + [c])) ==
            match Replay(opening, sys, Ops(log))
            case Err(e) => Err(e)
            case Ok(d) => Apply(d, sys, c.op)
  {
    assert Ops(log + [c])[..|log|] == Ops(log);
  }

  lemma BusyHas(s: State, i: TxnId, j: TxnId, r: Row)
    requires j in s.txns && j != i && r in s.txns[j].held
    ensures r in Busy(s, i)
  {}

  /** The operation alone would be refused too, and for the same reason; a suspension names the statement that
      missed. */
  predicate Refused(db: Db, sys: WalletId, op: Op, e: BankError) {
    if op.Suspend? then Apply(db, sys, op).Err? else Apply(db, sys, op) == Err(e)
  }

  /** A transaction about to commit replies with the balance its operation, applied to `db`, reports. */
  predicate Reports(db: Db, sys: WalletId, t: Txn) {
    t.op.Transfer? ==>
      && t.op.req.sender in db.wallets && t.op.req.receiver in db.wallets
      && NewBalance(t, sys) == Some(ReportedBalance(db, Some(sys), t.op.req))
  }

  /** What the statement of a transaction in flight guarantees. */
  lemma StatementKnows(s: State, sys: WalletId, opening: Db, i: TxnId)
    requires Inv(s, sys, opening) && i in s.txns
    ensures var t := s.txns[i];
            match Statement(s.db, sys, t, Busy(s, i))
            case Continue(t') => Knows(s.db, sys, t') && t'.op == t.op && t'.held - t.held !! Busy(s, i)
            case Finish(d) =>
              && Admissible(s.db, t.op) && Apply(s.db, sys, t.op) == Ok(d)
              && Footprint(t.op, sys) !! Busy(s, i) && Reports(s.db, sys, t)
            case Fail(e) => Refused(s.db, sys, t.op, e)
            case Blocked => true
  {
    HeldIsNotBusy(s, i);
    TxnStatementKnows(s.db, sys, s.txns[i], Busy(s, i));
  }

  lemma HeldIsNotBusy(s: State, i: TxnId)
    requires Exclusive(s) && i in s.txns
    ensures s.txns[i].held !! Busy(s, i)
  {}

  lemma TxnStatementKnows(db: Db, sys: WalletId, t: Txn, busy: set<Row>)
    requires Good(db, sys) && Knows(db, sys, t) && t.held !! busy
    ensures match Statement(db, sys, t, busy)
            case Continue(t') => Knows(db, sys, t') && t'.op == t.op && t'.held - t.held !! busy
            case Finish(d) =>
              && Admissible(db, t.op) && Apply(db, sys, t.op) == Ok(d)
              && Footprint(t.op, sys) !! busy && Reports(db, sys, t)
            case Fail(e) => Refused(db, sys, t.op, e)
            case Blocked => true
  {
    match t.op
    case Transfer(req) => TransferStatementKnows(db, sys, t, req, busy);
    case Activate(w) => ActivateStatementKnows(db, sys, t, w, busy);
    case Suspend(u, w) => SuspendStatementKnows(db, sys, t, u, w, busy);
    case _ =>
  }

  lemma OthersStillKnow(s: State, sys: WalletId, opening: Db, i: TxnId, j: TxnId)
    requires Inv(s, sys, opening) && i in s.txns && j in s.txns && j != i
    requires Footprint(s.txns[i].op, sys) !! Busy(s, i) && Apply(s.db, sys, s.txns[i].op).Ok?
    ensures Knows(Apply(s.db, sys, s.txns[i].op).value, sys, s.txns[j])
  {
    var op := s.txns[i].op;
    forall r | r in s.txns[j].held ensures r !in Footprint(op, sys) { BusyHas(s, i, j, r); }
    CommitIsSteady(s.db, sys, op, s.txns[j].held);
    KnowsSurvives(s.db, Apply(s.db, sys, op).value, sys, s.txns[j]);
  }

  lemma CommitIsRecorded(s: State, sys: WalletId, i: TxnId, d: Db)
    requires Recorded(s) && Exclusive(s) && i in s.txns
    ensures Recorded(Commits(s, sys, i, d)) && Exclusive(Commits(s, sys, i, d))
  {}

  lemma CommitKeepsInv(s: State, sys: WalletId, opening: Db, i: TxnId, d: Db)
    requires Inv(s, sys, opening) && i in s.txns
    requires Statement(s.db, sys, s.txns[i], Busy(s, i)) == Finish(d)
    ensures Inv(Commits(s, sys, i, d), sys, opening)
  {
    var op := s.txns[i].op;
    StatementKnows(s, sys, opening, i);
    assert Good(d, sys) by { ApplyKeepsGood(s.db, sys, op); }
    assert AllKnow(Commits(s, sys, i, d), sys) by {
      forall j | j in s.txns && j != i ensures Knows(d, sys, s.txns[j]) {
        OthersStillKnow(s, sys, opening, i, j);
      }
    }
    ReplayAppends(opening, sys, s.log, Committed(i, op, NewBalance(s.txns[i], sys)));
    CommitIsRecorded(s, sys, i, d);
  }

  lemma ContinueIsExclusive(s: State, i: TxnId, t: Txn)
    requires Exclusive(s) && i in s.txns && t.held - s.txns[i].held !! Busy(s, i)
    ensures Exclusive(s.(txns := s.txns[i := t]))
  {
    forall j, r | j in s.txns && j != i && r in t.held ensures r !in s.txns[j].held {
      if r in s.txns[j].held { BusyHas(s, i, j, r); }
    }
  }

  lemma ContinueIsRecorded(s: State, i: TxnId, t: Txn)
    requires Recorded(s) && i in s.txns && t.op == s.txns[i].op
    ensures Recorded(s.(txns := s.txns[i := t]))
  {}

  lemma ContinueKeepsInv(s: State, sys: WalletId, opening: Db, i: TxnId, t: Txn)
    requires Inv(s, sys, opening) && i in s.txns
    requires Knows(s.db, sys, t) && t.op == s.txns[i].op && t.held - s.txns[i].held !! Busy(s, i)
    ensures Inv(s.(txns := s.txns[i := t]), sys, opening)
  {
    ContinueIsExclusive(s, i, t);
    ContinueIsRecorded(s, i, t);
    var s' := s.(txns := s.txns[i := t]);
    forall j | j in s'.txns ensures Knows(s'.db, sys, s'.txns[j]) {
      assert j != i ==> Knows(s.db, sys, s.txns[j]);
    }
  }

  lemma LockKeepsInv(s: State, sys: WalletId, opening: Db, i: TxnId, w: WalletId)
    requires Inv(s, sys, opening) && CanLock(s, sys, i, w)
    ensures Inv(s.(txns := s.txns[i := AfterLock(s.txns[i], sys, w)]), sys, opening)
  {
    assert Knows(s.db, sys, s.txns[i]);
    ContinueKeepsInv(s, sys, opening, i, AfterLock(s.txns[i], sys, w));
  }

  lemma BeginKeepsInv(s: State, sys: WalletId, opening: Db, i: TxnId, op: Op)
    requires Inv(s, sys, opening) && CanBegin(s, i, op)
    ensures Inv(s.(txns := s.txns[i := Start(op)], begun := s.begun[i := op]), sys, opening)
  {
    StartKnows(s.db, sys, op);
    assert Exclusive(s.(txns := s.txns[i := Start(op)]));
  }

  lemma StartKnows(db: Db, sys: WalletId, op: Op)
    requires SchemaOk(db, sys) && Admissible(db, op)
    ensures Knows(db, sys, Start(op)) && Start(op).held == {} && Start(op).op == op
  {}

  lemma EndKeepsInv(s: State, sys: WalletId, opening: Db, i: TxnId)
    requires Inv(s, sys, opening)
    ensures Inv(s.(txns := s.txns - {i}), sys, opening)
  {}

  lemma NextKeepsInv(s: State, sys: WalletId, opening: Db, a: Action)
    requires Inv(s, sys, opening)
    ensures Inv(Next(s, sys, a), sys, opening)
  {
    match a
    case Begin(i, op) => if CanBegin(s, i, op) { BeginKeepsInv(s, sys, opening, i, op); }
    case Abort(i) => EndKeepsInv(s, sys, opening, i);
    case Lock(i, w) => if CanLock(s, sys, i, w) { LockKeepsInv(s, sys, opening, i, w); }
    case Step(i) =>
      if i in s.txns {
        StatementKnows(s, sys, opening, i);
        match Statement(s.db, sys, s.txns[i], Busy(s, i))
        case Continue(t) => ContinueKeepsInv(s, sys, opening, i, t);
        case Finish(d) => CommitKeepsInv(s, sys, opening, i, d);
        case Fail(_) => EndKeepsInv(s, sys, opening, i);
        case Blocked =>
      }
  }

  lemma {:induction false} RunKeepsInv(opening: Db, sys: WalletId, actions: seq<Action>)
    requires Good(opening, sys)
    ensures Inv(Run(Init(opening), sys, actions), sys, opening)
  {
    if actions != [] {
      RunKeepsInv(opening, sys, actions[..|actions| - 1]);
      NextKeepsInv(Run(Init(opening), sys, actions[..|actions| - 1]), sys, opening, actions[|actions| - 1]);
    }
  }

  // ---------------------------------------------------------------- what that means at each step

  function Reached(opening: Db, sys: WalletId, actions: seq<Action>): State {
    Run(Init(opening), sys, actions)
  }

  /** Every interleaving refines a serial run: the committed tables are those reached by applying the committed
      operations, each atomically and successfully, in commit order. Each of them was begun and commits once;
      aborted ones leave no trace. The schema constraints, balance bounds, unique keys and restriction rules hold
      throughout. */
  lemma EveryRunIsSerial(opening: Db, sys: WalletId, actions: seq<Action>)
    requires Good(opening, sys)
    ensures var s := Reached(opening, sys, actions);
            && Replay(opening, sys, Ops(s.log)) == Ok(s.db)
            && (forall k :: 0 <= k < |s.log| ==> s.log[k].id in s.begun && s.begun[s.log[k].id] == s.log[k].op)
            && (forall j, k :: 0 <= j < k < |s.log| ==> s.log[j].id != s.log[k].id)
            && Good(s.db, sys)
  {
    RunKeepsInv(opening, sys, actions);
  }

  /** The tables change only when a transaction commits, and then exactly as its operation, run alone at that
      instant, would change them. A transfer therefore commits only while both wallets and SYSTEM are active, both
      owners are ACTIVE and the funds are there, although it never locks a user row. */
  lemma EachCommitIsAtomic(opening: Db, sys: WalletId, actions: seq<Action>, a: Action)
    requires Good(opening, sys)
    ensures var s, s' := Reached(opening, sys, actions), Reached(opening, sys, actions + [a]);
            || (s'.log == s.log && s'.db == s.db)
            || (&& |s'.log| == |s.log| + 1 && s'.log[..|s.log|] == s.log
                && var op := s'.log[|s.log|].op;
                && Admissible(s.db, op) && Apply(s.db, sys, op) == Ok(s'.db)
                && (op.Transfer? ==>
                      && s'.log[|s.log|].newBalance == Some(ReportedBalance(s.db, Some(sys), op.req))
                      && Usable(s.db, op.req.sender) && Usable(s.db, op.req.receiver) && SystemUsable(s.db, sys)
                      && s.db.wallets[op.req.sender].balance >= op.req.Total()))
  {
    RunKeepsInv(opening, sys, actions);
    assert (actions + [a])[..|actions|] == actions;
    var s := Reached(opening, sys, actions);
    if a.Step? && a.id in s.txns {
      StatementKnows(s, sys, opening, a.id);
    }
  }

  /** The other half of atomicity: a transaction whose own statement rolls it back is refused exactly then by its
      operation applied alone, so interleaving neither lets anything through nor turns anything away. */
  lemma EachRefusalIsAtomic(opening: Db, sys: WalletId, actions: seq<Action>, i: TxnId)
    requires Good(opening, sys)
    ensures var s := Reached(opening, sys, actions);
            i in s.txns ==>
              match Statement(s.db, sys, s.txns[i], Busy(s, i))
              case Fail(e) => Refused(s.db, sys, s.txns[i].op, e) && Next(s, sys, Step(i)).db == s.db
              case Finish(d) => Apply(s.db, sys, s.txns[i].op) == Ok(d) && Next(s, sys, Step(i)).db == d
              case _ => Next(s, sys, Step(i)).db == s.db
  {
    RunKeepsInv(opening, sys, actions);
    var s := Reached(opening, sys, actions);
    if i in s.txns {
      StatementKnows(s, sys, opening, i);
    }
  }

  /** At no point of any interleaving does a SUSPENDED owner have an active wallet or a session. */
  lemma SuspendedOwnersStayRestricted(opening: Db, sys: WalletId, actions: seq<Action>, w: WalletId, u: UserId)
    requires Good(opening, sys)
    ensures var db := Reached(opening, sys, actions).db;
            w in db.wallets && db.wallets[w].owner == Some(u) && u in db.users && db.users[u].status == Suspended ==>
              !db.wallets[w].active && SessionsOf(db, u) == {}
  {
    RunKeepsInv(opening, sys, actions);
    var db := Reached(opening, sys, actions).db;
    assert w in db.wallets ==> (OwnerSuspended(db, w) ==> !db.wallets[w].active);
  }

  ghost predicate KeysLogged(s: State) {
    && (forall k :: 0 <= k < |s.log| && s.log[k].op.Transfer? ==> HasKey(s.db, s.log[k].op.req.key))
    && (forall j, k :: 0 <= j < k < |s.log| && s.log[j].op.Transfer? && s.log[k].op.Transfer? ==>
          s.log[j].op.req.key != s.log[k].op.req.key)
  }

  lemma KeysStay(db: Db, sys: WalletId, op: Op, k: Key)
    requires Apply(db, sys, op).Ok? && HasKey(db, k)
    ensures HasKey(Apply(db, sys, op).value, k)
  {
    var i :| 0 <= i < |db.transactions| && db.transactions[i].key == k;
    assert Apply(db, sys, op).value.transactions[i].key == k;
  }

  /** Of all transfers that carry the same idempotency key, at most one ever commits. */
  lemma {:induction false} OneCommitPerKey(opening: Db, sys: WalletId, actions: seq<Action>)
    requires Good(opening, sys)
    ensures KeysLogged(Reached(opening, sys, actions))
  {
    if actions != [] {
      var prefix, a := actions[..|actions| - 1], actions[|actions| - 1];
      OneCommitPerKey(opening, sys, prefix);
      EachCommitIsAtomic(opening, sys, prefix, a);
      assert prefix + [a] == actions;
      var s, s' := Reached(opening, sys, prefix), Reached(opening, sys, actions);
      if s'.log != s.log {
        var op := s'.log[|s.log|].op;
        forall k | HasKey(s.db, k) ensures HasKey(s'.db, k) { KeysStay(s.db, sys, op, k); }
        if op.Transfer? { HasKeyAfter(s.db, sys, op.req, op.req.key); }
        assert forall k :: 0 <= k < |s.log| ==> s'.log[k] == s'.log[..|s.log|][k];
      }
    }
  }
}
