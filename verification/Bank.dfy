/** Wallet, user, transaction and ledger rows, and what each service operation does to them when it
    runs alone. `Db` is a value; the class `Bank` holds the same tables in fields and updates them in
    place, statement by statement, as the services do. */
module Bank {
  import opened Wrappers
  import Money

  // Row identifiers are opaque; the order on wallet ids is the string order `.sort()` uses.
  type WalletId = nat
  type UserId = nat
  type DeviceId = nat
  type Key = nat

  datatype Role = Customer | Agent | Merchant | Admin
  datatype Status = Active | Locked | Suspended
  datatype WalletType = Personal | AgentWallet | MerchantWallet | System
  datatype Wallet = Wallet(owner: Option<UserId>, kind: WalletType, active: bool, balance: int)
  datatype User = User(role: Role, status: Status)
  datatype Direction = Debit | Credit

  // A transaction row is named by its unique idempotency key.
  datatype TxRow = TxRow(
    key: Key, kind: Money.TransactionType, amount: int, fee: int, sender: WalletId, receiver: WalletId)
  datatype Entry = Entry(key: Key, wallet: WalletId, dir: Direction, amount: int, balanceAfter: int)

  datatype Db = Db(
    wallets: map<WalletId, Wallet>,
    users: map<UserId, User>,
    sessions: map<UserId, set<DeviceId>>,  // devices holding a refresh session
    transactions: seq<TxRow>,
    ledger: seq<Entry>)

  datatype Request = Request(
    kind: Money.TransactionType, sender: WalletId, receiver: WalletId, amount: int, fee: int, key: Key)
  {
    function Total(): int { amount + fee }

    function Row(): TxRow { TxRow(key, kind, amount, fee, sender, receiver) }
  }

  datatype BankError =
    | OwnAccount
    | WalletNotFound
    | WrongSenderType
    | WrongReceiverType
    | ParticipantRestricted
    | InsufficientFunds
    | DuplicateTransaction
    | BalanceOverflow
    | SystemWalletProtected
    | WalletOwnerInvalid
    | WalletStateChanged
    | AccountNotActive
    | AccountNotFound
    | AccountStateChanged
    | AccountWalletChanged
    | NotEligibleForReactivation
    | NoSession

  // ---------------------------------------------------------------- requests

  function SenderType(kind: Money.TransactionType): WalletType {
    match kind
    case CashIn => AgentWallet
    case _ => Personal
  }

  function ReceiverType(kind: Money.TransactionType): WalletType {
    match kind
    case SendMoney => Personal
    case CashIn => Personal
    case CashOut => AgentWallet
    case Payment => MerchantWallet
    case AddMoney => Personal
  }

  /** The amounts are those CalculateTransferMath hands over. */
  predicate Priced(req: Request) {
    && req.kind != Money.AddMoney
    && 1 <= req.amount <= Money.MAX_PRINCIPAL
    && req.fee == Money.FeeUnits(req.amount, req.kind)
  }

  lemma PricedFee(req: Request)
    requires Priced(req)
    ensures 0 <= req.fee && 0 < req.Total() <= Money.MAX_MINOR_UNITS
  {
    Money.FeeBounds(req.amount, req.kind);
  }

  /** The part of assertTransferEligibility that no later write can undo. */
  predicate Shaped(db: Db, req: Request) {
    && req.sender != req.receiver
    && req.sender in db.wallets && db.wallets[req.sender].kind == SenderType(req.kind)
    && req.receiver in db.wallets && db.wallets[req.receiver].kind == ReceiverType(req.kind)
  }

  /** Who may send to whom; nothing but these four kinds is executed. */
  predicate TypesFit(kind: Money.TransactionType, sender: WalletType, receiver: WalletType) {
    || (kind == Money.SendMoney && sender == Personal && receiver == Personal)
    || (kind == Money.CashIn && sender == AgentWallet && receiver == Personal)
    || (kind == Money.CashOut && sender == Personal && receiver == AgentWallet)
    || (kind == Money.Payment && sender == Personal && receiver == MerchantWallet)
  }

  predicate ActiveWalletOf(db: Db, w: WalletId) {
    w in db.wallets && db.wallets[w].active
  }

  function AssertTransferEligibility(db: Db, req: Request): (r: Result<(), BankError>)
    ensures r.Ok? ==> Shaped(db, req)
    ensures req.kind != Money.AddMoney ==>
              (r.Ok? <==>
                 && req.sender != req.receiver && ActiveWalletOf(db, req.sender) && ActiveWalletOf(db, req.receiver)
                 && TypesFit(req.kind, db.wallets[req.sender].kind, db.wallets[req.receiver].kind)
                 && req.amount + req.fee <= db.wallets[req.sender].balance)
    ensures r == Err(OwnAccount) <==> req.sender == req.receiver
    ensures r == Err(WalletNotFound) <==>
              req.sender != req.receiver && !(ActiveWalletOf(db, req.sender) && ActiveWalletOf(db, req.receiver))
    ensures r == Err(InsufficientFunds) ==>
              Shaped(db, req) && db.wallets[req.sender].balance < req.amount + req.fee
    ensures r == Err(WrongSenderType) ==> db.wallets[req.sender].kind != SenderType(req.kind)
    ensures r == Err(WrongReceiverType) ==>
              && db.wallets[req.sender].kind == SenderType(req.kind)
              && db.wallets[req.receiver].kind != ReceiverType(req.kind)
  {
    if req.sender == req.receiver then Err(OwnAccount)
    else if !(req.sender in db.wallets && db.wallets[req.sender].active) then Err(WalletNotFound)
    else if !(req.receiver in db.wallets && db.wallets[req.receiver].active) then Err(WalletNotFound)
    else if db.wallets[req.sender].kind != SenderType(req.kind) then Err(WrongSenderType)
    else if db.wallets[req.receiver].kind != ReceiverType(req.kind) then Err(WrongReceiverType)
    else if Money.IsLessThan(db.wallets[req.sender].balance, req.Total()) then Err(InsufficientFunds)
    else Ok(())
  }

  // ---------------------------------------------------------------- the transfer, atomically

  /** isActive and the owner's status is ACTIVE: the filter of the re-reads. */
  predicate Usable(db: Db, w: WalletId) {
    && w in db.wallets
    && db.wallets[w].active
    && OwnerActive(db, w)
  }

  predicate OwnerActive(db: Db, w: WalletId)
    requires w in db.wallets
  {
    && db.wallets[w].owner.Some?
    && db.wallets[w].owner.value in db.users
    && db.users[db.wallets[w].owner.value].status == Active
  }

  predicate SystemUsable(db: Db, sys: WalletId) {
    sys in db.wallets && db.wallets[sys].active
  }

  predicate HasKey(db: Db, key: Key) {
    exists i :: 0 <= i < |db.transactions| && db.transactions[i].key == key
  }

  function Move(ws: map<WalletId, Wallet>, w: WalletId, delta: int): map<WalletId, Wallet>
    requires w in ws
  {
    ws[w := ws[w].(balance := ws[w].balance + delta)]
  }

  function BalanceOf(ws: map<WalletId, Wallet>, w: WalletId): int
    requires w in ws
  {
    ws[w].balance
  }

  predicate Participants(db: Db, sys: WalletId, req: Request) {
    req.sender in db.wallets && req.receiver in db.wallets && sys in db.wallets
  }

  function AfterDebit(db: Db, req: Request): map<WalletId, Wallet>
    requires req.sender in db.wallets
  {
    Move(db.wallets, req.sender, -req.Total())
  }

  function AfterCredit(db: Db, req: Request): map<WalletId, Wallet>
    requires req.sender in db.wallets && req.receiver in db.wallets
  {
    Move(AfterDebit(db, req), req.receiver, req.amount)
  }

  function AfterFee(db: Db, sys: WalletId, req: Request): map<WalletId, Wallet>
    requires Participants(db, sys, req)
  {
    if req.fee == 0 then AfterCredit(db, req) else Move(AfterCredit(db, req), sys, req.fee)
  }

  function DebitEntry(db: Db, req: Request): Entry
    requires req.sender in db.wallets
  {
    Entry(req.key, req.sender, Debit, req.Total(), BalanceOf(AfterDebit(db, req), req.sender))
  }

  function CreditEntry(db: Db, req: Request): Entry
    requires req.sender in db.wallets && req.receiver in db.wallets
  {
    Entry(req.key, req.receiver, Credit, req.amount, BalanceOf(AfterCredit(db, req), req.receiver))
  }

  function FeeEntry(db: Db, sys: WalletId, req: Request): Entry
    requires Participants(db, sys, req)
  {
    Entry(req.key, sys, Credit, req.fee, BalanceOf(AfterFee(db, sys, req), sys))
  }

  function Entries(db: Db, sys: WalletId, req: Request): seq<Entry>
    requires Participants(db, sys, req)
  {
    [DebitEntry(db, req), CreditEntry(db, req)] + if req.fee == 0 then [] else [FeeEntry(db, sys, req)]
  }

  predicate Fits(balance: int) {
    balance <= Money.MAX_MINOR_UNITS
  }

  function TransferRefusal(db: Db, sys: WalletId, req: Request): Option<BankError> {
    if !Usable(db, req.sender) || !Usable(db, req.receiver) || !SystemUsable(db, sys) then Some(ParticipantRestricted)
    else if Money.IsLessThan(db.wallets[req.sender].balance, req.Total()) then Some(InsufficientFunds)
    else if HasKey(db, req.key) then Some(DuplicateTransaction)
    else if !Fits(BalanceOf(AfterCredit(db, req), req.receiver)) then Some(BalanceOverflow)
    else if req.fee != 0 && !Fits(BalanceOf(AfterFee(db, sys, req), sys)) then Some(BalanceOverflow)
    else None
  }

  function Posted(db: Db, sys: WalletId, req: Request): Db
    requires Participants(db, sys, req)
  {
    db.(wallets := AfterFee(db, sys, req),
        transactions := db.transactions + [req.Row()],
        ledger := db.ledger + Entries(db, sys, req))
  }

  function ApplyTransfer(db: Db, sys: WalletId, req: Request): Result<Db, BankError> {
    match TransferRefusal(db, sys, req)
    case Some(e) => Err(e)
    case None => Ok(Posted(db, sys, req))
  }

  /** The balance the reply reports: the sender's, or the receiver's when SYSTEM itself sends. */
  function ReportedBalance(db: Db, cached: Option<WalletId>, req: Request): int
    requires req.sender in db.wallets && req.receiver in db.wallets
  {
    if cached == Some(req.sender) then BalanceOf(AfterCredit(db, req), req.receiver)
    else BalanceOf(AfterDebit(db, req), req.sender)
  }

  // ---------------------------------------------------------------- freezes and restrictions, atomically

  function ManageRefusal(db: Db, w: WalletId): Option<BankError> {
    if w !in db.wallets then Some(WalletNotFound)
    else if db.wallets[w].kind == System then Some(SystemWalletProtected)
    else if db.wallets[w].owner == None then Some(WalletOwnerInvalid)
    else None
  }

  function SetActive(ws: map<WalletId, Wallet>, w: WalletId, flag: bool): map<WalletId, Wallet>
    requires w in ws
  {
    ws[w := ws[w].(active := flag)]
  }

  function ApplyFreeze(db: Db, w: WalletId): Result<Db, BankError> {
    match ManageRefusal(db, w)
    case Some(e) => Err(e)
    case None =>
      if !db.wallets[w].active then Err(WalletStateChanged)
      else Ok(db.(wallets := SetActive(db.wallets, w, false)))
  }

  function ApplyActivate(db: Db, w: WalletId): Result<Db, BankError> {
    match ManageRefusal(db, w)
    case Some(e) => Err(e)
    case None =>
      if db.wallets[w].active then Err(WalletStateChanged)
      else if !OwnerActive(db, w) then Err(AccountNotActive)
      else Ok(db.(wallets := SetActive(db.wallets, w, true)))
  }

  predicate Suspendable(db: Db, u: UserId) {
    && u in db.users
    && db.users[u].role != Admin
    && db.users[u].status != Locked
  }

  predicate OwnWallet(db: Db, u: UserId, w: WalletId) {
    w in db.wallets && db.wallets[w].owner == Some(u) && db.wallets[w].kind != System
  }

  function SetStatus(us: map<UserId, User>, u: UserId, status: Status): map<UserId, User>
    requires u in us
  {
    us[u := us[u].(status := status)]
  }

  /** `w` is the owned wallet the service's first read returned; the schema allows at most one. */
  function ApplySuspend(db: Db, u: UserId, w: WalletId): Result<Db, BankError> {
    if Suspendable(db, u) && OwnWallet(db, u, w)
    then Ok(db.(wallets := SetActive(db.wallets, w, false),
                users := SetStatus(db.users, u, Suspended),
                sessions := db.sessions[u := {}]))
    else Err(AccountNotFound)
  }

  function ApplyReactivate(db: Db, u: UserId): Result<Db, BankError> {
    if u in db.users && db.users[u].role != Admin && db.users[u].status == Suspended
    then Ok(db.(users := SetStatus(db.users, u, Active)))
    else Err(NotEligibleForReactivation)
  }

  function SessionsOf(db: Db, u: UserId): set<DeviceId> {
    if u in db.sessions then db.sessions[u] else {}
  }

  /** A login's device update: it matches only while the owner is ACTIVE. */
  function ApplyOpenSession(db: Db, u: UserId, d: DeviceId): Result<Db, BankError> {
    if u in db.users && db.users[u].status == Active
    then Ok(db.(sessions := db.sessions[u := SessionsOf(db, u) + {d}]))
    else Err(NoSession)
  }

  // ---------------------------------------------------------------- operations and histories

  datatype Op =
    | Transfer(req: Request)
    | Freeze(wallet: WalletId)
    | Activate(wallet: WalletId)
    | Suspend(user: UserId, wallet: WalletId)
    | Reactivate(user: UserId)
    | OpenSession(user: UserId, device: DeviceId)

  function Apply(db: Db, sys: WalletId, op: Op): Result<Db, BankError> {
    match op
    case Transfer(req) => ApplyTransfer(db, sys, req)
    case Freeze(w) => ApplyFreeze(db, w)
    case Activate(w) => ApplyActivate(db, w)
    case Suspend(u, w) => ApplySuspend(db, u, w)
    case Reactivate(u) => ApplyReactivate(db, u)
    case OpenSession(u, d) => ApplyOpenSession(db, u, d)
  }

  /** Applies operations one after another; every one of them must succeed. */
  function Replay(db: Db, sys: WalletId, ops: seq<Op>): Result<Db, BankError> {
    if ops == [] then Ok(db)
    else match Replay(db, sys, ops[..|ops| - 1])
         case Err(e) => Err(e)
         case Ok(d) => Apply(d, sys, ops[|ops| - 1])
  }

  // ---------------------------------------------------------------- what every state keeps

  /** One SYSTEM wallet in its constrained state, one wallet per owner, owners exist (schema constraints). */
  ghost predicate SchemaOk(db: Db, sys: WalletId) {
    && sys in db.wallets && db.wallets[sys].kind == System
    && db.wallets[sys].active && db.wallets[sys].owner == None
    && (forall w :: w in db.wallets && w != sys ==> db.wallets[w].kind != System)
    && (forall v, w :: v in db.wallets && w in db.wallets && v != w && db.wallets[v].owner.Some? ==>
          db.wallets[v].owner != db.wallets[w].owner)
    && (forall w :: w in db.wallets && db.wallets[w].owner.Some? ==> db.wallets[w].owner.value in db.users)
  }

  ghost predicate BalancesOk(db: Db) {
    forall w :: w in db.wallets ==> 0 <= db.wallets[w].balance <= Money.MAX_MINOR_UNITS
  }

  predicate OwnerSuspended(db: Db, w: WalletId)
    requires w in db.wallets
  {
    && db.wallets[w].owner.Some?
    && db.wallets[w].owner.value in db.users
    && db.users[db.wallets[w].owner.value].status == Suspended
  }

  /** A suspended owner has no active wallet and no session. */
  ghost predicate RestrictionsOk(db: Db) {
    && (forall w :: w in db.wallets && OwnerSuspended(db, w) ==> !db.wallets[w].active)
    && (forall u :: u in db.users && db.users[u].status == Suspended ==> SessionsOf(db, u) == {})
  }

  ghost predicate KeysOk(db: Db) {
    forall i, j :: 0 <= i < j < |db.transactions| ==> db.transactions[i].key != db.transactions[j].key
  }

  ghost predicate Good(db: Db, sys: WalletId) {
    SchemaOk(db, sys) && BalancesOk(db) && RestrictionsOk(db) && KeysOk(db)
  }

  /** Requests reach the database only after pricing and the immutable part of the eligibility check. */
  ghost predicate Admissible(db: Db, op: Op) {
    op.Transfer? ==> Priced(op.req) && Shaped(db, op.req)
  }

  /** A transfer changes nothing but balances in the wallet table. */
  lemma TransferMovesBalances(db: Db, sys: WalletId, req: Request, w: WalletId)
    requires Participants(db, sys, req) && w in db.wallets
    ensures w in AfterFee(db, sys, req) && AfterFee(db, sys, req)[w].(balance := 0) == db.wallets[w].(balance := 0)
    ensures w !in {req.sender, req.receiver, sys} ==> AfterFee(db, sys, req)[w] == db.wallets[w]
  {}

  lemma TransferKeepsBounds(db: Db, sys: WalletId, req: Request, w: WalletId)
    requires BalancesOk(db) && 0 <= req.fee && 0 <= req.amount && TransferRefusal(db, sys, req) == None
    requires req.sender != sys && req.receiver != sys && req.sender != req.receiver && w in db.wallets
    ensures 0 <= AfterFee(db, sys, req)[w].balance <= Money.MAX_MINOR_UNITS
  {}

  lemma TransferKeepsKeys(db: Db, sys: WalletId, req: Request)
    requires KeysOk(db) && Participants(db, sys, req) && !HasKey(db, req.key)
    ensures KeysOk(Posted(db, sys, req))
  {}

  lemma TransferKeepsGood(db: Db, sys: WalletId, req: Request)
    requires Good(db, sys) && Priced(req) && Shaped(db, req) && ApplyTransfer(db, sys, req).Ok?
    ensures var d := ApplyTransfer(db, sys, req).value;
            && Good(d, sys) && d.users == db.users && d.sessions == db.sessions && d.wallets.Keys == db.wallets.Keys
            && (forall w :: w in db.wallets ==> d.wallets[w].(balance := 0) == db.wallets[w].(balance := 0))
            && (forall w :: w in db.wallets && w !in {req.sender, req.receiver, sys} ==> d.wallets[w] == db.wallets[w])
  {
    PricedFee(req);
    var d := Posted(db, sys, req);
    forall w | w in db.wallets
      ensures w in d.wallets && d.wallets[w].(balance := 0) == db.wallets[w].(balance := 0)
      ensures w !in {req.sender, req.receiver, sys} ==> d.wallets[w] == db.wallets[w]
      ensures 0 <= d.wallets[w].balance <= Money.MAX_MINOR_UNITS
    {
      TransferMovesBalances(db, sys, req, w);
      TransferKeepsBounds(db, sys, req, w);
    }
    assert d.wallets.Keys == db.wallets.Keys;
    SameShapeKeepsGood(db, d, sys);
    TransferKeepsKeys(db, sys, req);
  }

  // Rows with the same owner, type and activity, users and sessions as before.
  lemma SameShapeKeepsGood(db: Db, d: Db, sys: WalletId)
    requires SchemaOk(db, sys) && RestrictionsOk(db)
    requires d.users == db.users && d.sessions == db.sessions && d.wallets.Keys == db.wallets.Keys
    requires forall w :: w in db.wallets ==> d.wallets[w].(balance := 0) == db.wallets[w].(balance := 0)
    ensures SchemaOk(d, sys) && RestrictionsOk(d)
  {
    assert forall w :: w in db.wallets ==>
        d.wallets[w].owner == db.wallets[w].owner && d.wallets[w].kind == db.wallets[w].kind
            && d.wallets[w].active == db.wallets[w].active;
  }

  lemma ActivityKeepsGood(db: Db, sys: WalletId, w: WalletId, flag: bool)
    requires Good(db, sys) && ManageRefusal(db, w) == None && (flag ==> OwnerActive(db, w))
    ensures Good(db.(wallets := SetActive(db.wallets, w, flag)), sys)
  {}

  lemma SuspensionKeepsGood(db: Db, sys: WalletId, u: UserId, w: WalletId)
    requires Good(db, sys) && ApplySuspend(db, u, w).Ok?
    ensures Good(ApplySuspend(db, u, w).value, sys)
  {
    var d := ApplySuspend(db, u, w).value;
    assert forall v :: v in d.wallets && v != w ==> d.wallets[v].owner != Some(u);
  }

  lemma UserChangeKeepsGood(db: Db, sys: WalletId, op: Op)
    requires Good(db, sys) && (op.Reactivate? || op.OpenSession?) && Apply(db, sys, op).Ok?
    ensures Good(Apply(db, sys, op).value, sys)
  {}

  // ---------------------------------------------------------------- what a transfer does, row by row

  ghost predicate OwnedByActive(db: Db, w: WalletId) {
    exists u :: w in db.wallets && db.wallets[w].owner == Some(u) && u in db.users && db.users[u].status == Active
  }

  ghost predicate ParticipantsActive(db: Db, sys: WalletId, req: Request) {
    && ActiveWalletOf(db, req.sender) && ActiveWalletOf(db, req.receiver) && ActiveWalletOf(db, sys)
    && OwnedByActive(db, req.sender) && OwnedByActive(db, req.receiver)
  }

  ghost predicate KeyIsNew(db: Db, key: Key) {
    forall i :: 0 <= i < |db.transactions| ==> db.transactions[i].key != key
  }

  /** Row by row: one transaction row with the request's own fields, total off the sender, amount to the receiver, fee
      to SYSTEM, one entry for each with the balance after it, and nothing else. */
  ghost predicate Executed(db: Db, d: Db, sys: WalletId, req: Request)
    requires req.sender in db.wallets && req.receiver in db.wallets && sys in db.wallets
  {
    var from, to, revenue := db.wallets[req.sender], db.wallets[req.receiver], db.wallets[sys];
    var debited, credited := from.balance - req.amount - req.fee, to.balance + req.amount;
    var moved := db.wallets[req.sender := from.(balance := debited)][req.receiver := to.(balance := credited)];
    var entries := [Entry(req.key, req.sender, Debit, req.amount + req.fee, debited),
                    Entry(req.key, req.receiver, Credit, req.amount, credited)];
    && d.users == db.users && d.sessions == db.sessions
    && d.transactions ==
         db.transactions + [TxRow(req.key, req.kind, req.amount, req.fee, req.sender, req.receiver)]
    && (if req.fee == 0 then
          d.wallets == moved && d.ledger == db.ledger + entries
        else
          && d.wallets == moved[sys := revenue.(balance := revenue.balance + req.fee)]
          && d.ledger == db.ledger + entries + [Entry(req.key, sys, Credit, req.fee, revenue.balance + req.fee)])
  }

  lemma OwnedIsUsable(db: Db, w: WalletId)
    ensures Usable(db, w) <==> ActiveWalletOf(db, w) && OwnedByActive(db, w)
  {
    if Usable(db, w) { assert db.wallets[w].owner == Some(db.wallets[w].owner.value); }
  }

  lemma PostedIsExecuted(db: Db, sys: WalletId, req: Request)
    requires Participants(db, sys, req) && req.sender != req.receiver && req.sender != sys && req.receiver != sys
    ensures Executed(db, Posted(db, sys, req), sys, req)
  {
    assert AfterCredit(db, req)[sys] == db.wallets[sys];
    assert AfterDebit(db, req)[req.receiver] == db.wallets[req.receiver];
  }

  /** When a transfer is executed, what it does then, and which of the refusals it gets otherwise, in that order. */
  lemma TransferMeans(db: Db, sys: WalletId, req: Request)
    requires req.sender != req.receiver && req.sender != sys && req.receiver != sys
    ensures var r := ApplyTransfer(db, sys, req);
            if !ParticipantsActive(db, sys, req) then r == Err(ParticipantRestricted)
            else if db.wallets[req.sender].balance < req.amount + req.fee then r == Err(InsufficientFunds)
            else if !KeyIsNew(db, req.key) then r == Err(DuplicateTransaction)
            else if db.wallets[req.receiver].balance + req.amount > 9_223_372_036_854_775_807
                    || (req.fee != 0 && db.wallets[sys].balance + req.fee > 9_223_372_036_854_775_807)
            then r == Err(BalanceOverflow)
            else r.Ok? && Executed(db, r.value, sys, req)
  {
    OwnedIsUsable(db, req.sender);
    OwnedIsUsable(db, req.receiver);
    if ParticipantsActive(db, sys, req) {
      PostedIsExecuted(db, sys, req);
      CreditedBalances(db, sys, req);
    }
  }

  lemma CreditedBalances(db: Db, sys: WalletId, req: Request)
    requires Participants(db, sys, req) && req.sender != req.receiver && req.sender != sys && req.receiver != sys
    ensures BalanceOf(AfterCredit(db, req), req.receiver) == db.wallets[req.receiver].balance + req.amount
    ensures BalanceOf(AfterFee(db, sys, req), sys) == db.wallets[sys].balance + req.fee
    ensures BalanceOf(AfterDebit(db, req), req.sender) == db.wallets[req.sender].balance - req.amount - req.fee
  {}

  /** A login's update succeeds exactly for an ACTIVE owner, and adds that one session. */
  lemma OpenSessionMeans(db: Db, u: UserId, d: DeviceId)
    ensures ApplyOpenSession(db, u, d).Ok? <==> u in db.users && db.users[u].status == Active
    ensures var r := ApplyOpenSession(db, u, d);
            r.Ok? ==> r.value == db.(sessions := db.sessions[u := SessionsOf(db, u) + {d}])
  {}

  /** The unlocked check and the locked block agree: in one and the same state the block executes a transfer exactly
      when the check passes, both owners are ACTIVE, the key is new and neither credit overflows. */
  lemma EligibilityDecides(db: Db, sys: WalletId, req: Request)
    requires Good(db, sys) && Priced(req) && Shaped(db, req)
    ensures ApplyTransfer(db, sys, req).Ok? <==>
              && AssertTransferEligibility(db, req).Ok?
              && OwnedByActive(db, req.sender) && OwnedByActive(db, req.receiver)
              && (forall i :: 0 <= i < |db.transactions| ==> db.transactions[i].key != req.key)
              && db.wallets[req.receiver].balance + req.amount <= 9_223_372_036_854_775_807
              && db.wallets[sys].balance + req.fee <= 9_223_372_036_854_775_807
  {
    assert req.sender != sys && req.receiver != sys;
    PricedFee(req);
    TransferMeans(db, sys, req);
    assert db.wallets[sys].balance <= 9_223_372_036_854_775_807;
  }

  /** Every operation that succeeds keeps the schema constraints, the balance bounds, unique keys and the
      rule that a suspended owner has neither an active wallet nor a session. */
  lemma ApplyKeepsGood(db: Db, sys: WalletId, op: Op)
    requires Good(db, sys) && Admissible(db, op) && Apply(db, sys, op).Ok?
    ensures Good(Apply(db, sys, op).value, sys)
  {
    match op
    case Transfer(req) => TransferKeepsGood(db, sys, req);
    case Freeze(w) => ActivityKeepsGood(db, sys, w, false);
    case Activate(w) => ActivityKeepsGood(db, sys, w, true);
    case Suspend(u, w) => SuspensionKeepsGood(db, sys, u, w);
    case _ => UserChangeKeepsGood(db, sys, op);
  }

  /** The only SYSTEM row, ownerless and active. */
  ghost predicate TheSystemWallet(ws: map<WalletId, Wallet>, w: WalletId) {
    && w in ws && ws[w].kind == System && ws[w].owner == None && ws[w].active
    && (forall v :: v in ws && ws[v].kind == System ==> v == w)
  }

  // ---------------------------------------------------------------- the services, in place

  class Bank {
    var wallets: map<WalletId, Wallet>
    var users: map<UserId, User>
    var sessions: map<UserId, set<DeviceId>>
    var transactions: seq<TxRow>
    var ledger: seq<Entry>
    var cachedSystemWalletId: Option<WalletId>

    ghost function Contents(): Db
      reads this
    {
      Db(wallets, users, sessions, transactions, ledger)
    }

    constructor (db: Db)
      ensures Contents() == db && cachedSystemWalletId == None
    {
      wallets, users, sessions := db.wallets, db.users, db.sessions;
      transactions, ledger := db.transactions, db.ledger;
      cachedSystemWalletId := None;
    }

    /** Caches the SYSTEM wallet, refusing to start unless there is exactly one, ownerless and active. */
    method OnModuleInit() returns (ok: bool)
      modifies this`cachedSystemWalletId
      ensures ok <==> exists w :: TheSystemWallet(wallets, w)
      ensures ok ==> cachedSystemWalletId.Some? && TheSystemWallet(wallets, cachedSystemWalletId.value)
      ensures !ok ==> cachedSystemWalletId == old(cachedSystemWalletId)
    {
      var found := set w | w in wallets && wallets[w].kind == System;
      if found == {} {
        assert forall x :: TheSystemWallet(wallets, x) ==> x in found;
        return false;
      }
      var w :| w in found;
      if found != {w} {
        ghost var v :| v in found && v != w;
        assert forall x :: TheSystemWallet(wallets, x) ==> v == x && w == x;
        return false;
      }
      assert forall v :: v in wallets && wallets[v].kind == System ==> v in found;
      if wallets[w].owner != None || !wallets[w].active {
        assert forall x :: TheSystemWallet(wallets, x) ==> x == w;
        return false;
      }
      cachedSystemWalletId := Some(w);
      assert TheSystemWallet(wallets, w);
      return true;
    }

    method KeyTaken(key: Key) returns (taken: bool)
      ensures taken <==> HasKey(Contents(), key)
    {
      var i := 0;
      while i < |transactions|
        invariant 0 <= i <= |transactions|
        invariant forall j :: 0 <= j < i ==> transactions[j].key != key
      {
        if transactions[i].key == key {
          return true;
        }
        i := i + 1;
      }
      return false;
    }

    method Rollback(db: Db)
      modifies this`wallets, this`transactions, this`ledger
      ensures wallets == db.wallets && transactions == db.transactions && ledger == db.ledger
    {
      wallets, transactions, ledger := db.wallets, db.transactions, db.ledger;
    }

    /** The transaction block: re-read, check, write the row, post the entries; any failure rolls back. */
    method TransferBlock(sys: WalletId, req: Request) returns (r: Result<int, BankError>)
      modifies this`wallets, this`transactions, this`ledger
      ensures match ApplyTransfer(old(Contents()), sys, req)
              case Ok(d) => Contents() == d && r == Ok(ReportedBalance(old(Contents()), cachedSystemWalletId, req))
              case Err(e) => Contents() == old(Contents()) && r == Err(e)
    {
      var before := Db(wallets, users, sessions, transactions, ledger);
      if !Usable(before, req.sender) || !Usable(before, req.receiver) || !SystemUsable(before, sys) {
        return Err(ParticipantRestricted);
      }
      if Money.IsLessThan(wallets[req.sender].balance, req.Total()) {
        return Err(InsufficientFunds);
      }
      var taken := KeyTaken(req.key);
      if taken {
        return Err(DuplicateTransaction);
      }
      transactions := transactions + [req.Row()];

      wallets := Move(wallets, req.sender, -req.Total());
      assert wallets == AfterDebit(before, req);
      var newBalance := wallets[req.sender].balance;
      ledger := ledger + [Entry(req.key, req.sender, Debit, req.Total(), newBalance)];

      wallets := Move(wallets, req.receiver, req.amount);
      assert wallets == AfterCredit(before, req);
      if !Fits(wallets[req.receiver].balance) {
        Rollback(before);
        return Err(BalanceOverflow);
      }
      if cachedSystemWalletId == Some(req.sender) {
        newBalance := wallets[req.receiver].balance;
      }
      ledger := ledger + [Entry(req.key, req.receiver, Credit, req.amount, wallets[req.receiver].balance)];

      if req.fee != 0 {
        wallets := Move(wallets, sys, req.fee);
        if !Fits(wallets[sys].balance) {
          Rollback(before);
          return Err(BalanceOverflow);
        }
        ledger := ledger + [Entry(req.key, sys, Credit, req.fee, wallets[sys].balance)];
      }
      assert ledger == before.ledger + Entries(before, sys, req);
      return Ok(newBalance);
    }

    /** The block, run to its end or rolled back; what it did, row by row. */
    method ExecuteAcidTransfer(sys: WalletId, req: Request) returns (r: Result<int, BankError>)
      modifies this`wallets, this`transactions, this`ledger
      ensures match ApplyTransfer(old(Contents()), sys, req)
              case Ok(d) => Contents() == d && r == Ok(ReportedBalance(old(Contents()), cachedSystemWalletId, req))
              case Err(e) => Contents() == old(Contents()) && r == Err(e)
      ensures r.Ok? ==>
                transactions == old(transactions)
                                + [TxRow(req.key, req.kind, req.amount, req.fee, req.sender, req.receiver)]
      ensures r.Ok? && req.sender != req.receiver && req.sender != sys && req.receiver != sys ==>
                && ParticipantsActive(old(Contents()), sys, req) && KeyIsNew(old(Contents()), req.key)
                && Executed(old(Contents()), Contents(), sys, req)
                && (cachedSystemWalletId == Some(sys) ==>
                      r.value == old(wallets)[req.sender].balance - req.amount - req.fee >= 0)
    {
      ghost var before := Contents();
      if req.sender != req.receiver && req.sender != sys && req.receiver != sys {
        TransferMeans(before, sys, req);
      }
      r := TransferBlock(sys, req);
      if r.Ok? {
        assert ApplyTransfer(before, sys, req) == Ok(Posted(before, sys, req));
      }
    }

    method AssertManageableWallet(w: WalletId) returns (refusal: Option<BankError>)
      ensures refusal == ManageRefusal(Contents(), w)
    {
      if w !in wallets {
        return Some(WalletNotFound);
      }
      if wallets[w].kind == System {
        return Some(SystemWalletProtected);
      }
      return if wallets[w].owner == None then Some(WalletOwnerInvalid) else None;
    }

    method DeactivateWallet(w: WalletId) returns (r: Result<(), BankError>)
      modifies this`wallets
      ensures match ApplyFreeze(old(Contents()), w)
              case Ok(d) => r == Ok(()) && Contents() == d
              case Err(e) => r == Err(e) && Contents() == old(Contents())
      ensures if w !in old(wallets) then r == Err(WalletNotFound)
              else if old(wallets)[w].kind == System then r == Err(SystemWalletProtected)
              else if old(wallets)[w].owner == None then r == Err(WalletOwnerInvalid)
              else if !old(wallets)[w].active then r == Err(WalletStateChanged)
              else r.Ok? && wallets == old(wallets)[w := old(wallets)[w].(active := false)]
      ensures r.Err? ==> wallets == old(wallets)
    {
      var refusal := AssertManageableWallet(w);
      if refusal.Some? {
        return Err(refusal.value);
      }
      if !wallets[w].active {
        return Err(WalletStateChanged);
      }
      wallets := wallets[w := wallets[w].(active := false)];
      return Ok(());
    }

    /** Updates first and checks the owner second; a restricted owner rolls the update back. */
    method ActiveWallet(w: WalletId) returns (r: Result<(), BankError>)
      modifies this`wallets
      ensures match ApplyActivate(old(Contents()), w)
              case Ok(d) => r == Ok(()) && Contents() == d
              case Err(e) => r == Err(e) && Contents() == old(Contents())
      ensures if w !in old(wallets) then r == Err(WalletNotFound)
              else if old(wallets)[w].kind == System then r == Err(SystemWalletProtected)
              else if old(wallets)[w].owner == None then r == Err(WalletOwnerInvalid)
              else if old(wallets)[w].active then r == Err(WalletStateChanged)
              else if !OwnedByActive(old(Contents()), w) then r == Err(AccountNotActive)
              else r.Ok? && wallets == old(wallets)[w := old(wallets)[w].(active := true)]
      ensures r.Err? ==> wallets == old(wallets)
    {
      var refusal := AssertManageableWallet(w);
      if refusal.Some? {
        return Err(refusal.value);
      }
      var before := wallets;
      if wallets[w].active {
        return Err(WalletStateChanged);
      }
      wallets := wallets[w := wallets[w].(active := true)];
      var u := wallets[w].owner.value;
      if !(u in users && users[u].status == Active) {
        wallets := before;
        return Err(AccountNotActive);
      }
      return Ok(());
    }

    /** Wallet first, then user, then the devices' sessions. */
    method SuspendAccount(u: UserId) returns (r: Result<WalletId, BankError>)
      modifies this`wallets, this`users, this`sessions
      ensures r.Ok? ==> ApplySuspend(old(Contents()), u, r.value) == Ok(Contents())
      ensures r.Err? ==> Contents() == old(Contents())
                         && forall w :: ApplySuspend(old(Contents()), u, w).Err?
      ensures r.Ok? <==>
                && u in old(users) && old(users)[u].role != Admin && old(users)[u].status != Locked
                && exists w :: w in old(wallets) && old(wallets)[w].owner == Some(u) && old(wallets)[w].kind != System
      ensures r.Ok? ==>
                && r.value in old(wallets) && old(wallets)[r.value].owner == Some(u)
                && old(wallets)[r.value].kind != System
                && wallets == old(wallets)[r.value := old(wallets)[r.value].(active := false)]
                && users == old(users)[u := User(old(users)[u].role, Suspended)]
                && sessions == old(sessions)[u := {}]
      ensures r.Err? ==> r == Err(AccountNotFound)
    {
      var owned := set w | w in wallets && wallets[w].owner == Some(u) && wallets[w].kind != System;
      if !(u in users && users[u].role != Admin && users[u].status != Locked) || owned == {} {
        assert forall w :: OwnWallet(Contents(), u, w) ==> w in owned;
        assert forall w :: w in wallets && wallets[w].owner == Some(u) && wallets[w].kind != System ==> w in owned;
        return Err(AccountNotFound);
      }
      var w :| w in owned;
      wallets := wallets[w := wallets[w].(active := false)];
      users := users[u := users[u].(status := Suspended)];
      sessions := sessions[u := {}];
      return Ok(w);
    }

    method ReactivateAccount(u: UserId) returns (r: Result<(), BankError>)
      modifies this`users
      ensures match ApplyReactivate(old(Contents()), u)
              case Ok(d) => r == Ok(()) && Contents() == d
              case Err(e) => Contents() == old(Contents()) && r == Err(if u in users then e else AccountNotFound)
      ensures if u !in old(users) then r == Err(AccountNotFound)
              else if old(users)[u].role == Admin || old(users)[u].status != Suspended
              then r == Err(NotEligibleForReactivation)
              else r.Ok? && users == old(users)[u := User(old(users)[u].role, Active)]
    {
      if u in users && users[u].role != Admin && users[u].status == Suspended {
        users := users[u := users[u].(status := Active)];
        return Ok(());
      }
      return Err(if u in users then NotEligibleForReactivation else AccountNotFound);
    }
  }
}
