/** The business approval of one phone: administrators approving and renewing it while registrations claim it. The claim
    is an update inside a transaction, so it keeps the approval row locked until the account is committed. */
module Approvals {
  import opened Wrappers
  import opened Bank

  type Time = nat
  type ReqId = nat

  const APPROVAL_MS: nat := 3_600_000

  datatype Approval = Approval(role: Role, expiresAt: Time, activatedAt: Option<Time>)

  datatype Account = Account(role: Role, wallet: WalletType)

  function BusinessWalletType(role: Role): WalletType {
    if role == Agent then AgentWallet else MerchantWallet
  }

  function WalletFor(role: Role): WalletType {
    match role
    case Agent => AgentWallet
    case Merchant => MerchantWallet
    case _ => Personal
  }

  /** Agents get AGENT wallets, merchants MERCHANT wallets, everybody else a PERSONAL one. */
  predicate Matches(account: Account) {
    || (account.role == Agent && account.wallet == AgentWallet)
    || (account.role == Merchant && account.wallet == MerchantWallet)
    || (account.role != Agent && account.role != Merchant && account.wallet == Personal)
  }

  predicate IsBusiness(role: Role) {
    role == Agent || role == Merchant
  }

  // ---------------------------------------------------------------- requests in flight

  // Both read before the claim is sent, hence before it may have to wait for the row.
  datatype Times = Times(checked: Time, stamped: Time)

  datatype Flight =
    | CheckPhone(role: Role)
    | ReadPrevious(role: Role, at: Time)
    | Renew(role: Role, at: Time)
    | Create(role: Role, at: Time)
    | ReadApproval                               // registerBusiness, inside its transaction from here on
    | ReadClock(role: Role)                      // the time the claim compares with expiresAt
    | ReadClockAgain(role: Role, checked: Time)  // the time it writes to activatedAt
    | Claim(role: Role, times: Times)
    | CreateUser(role: Role, times: Times)       // holds the approval row
    | CreateWallet(role: Role, times: Times)
    | CommitAccount(account: Account, times: Times)

  predicate HoldsRow(f: Flight) {
    f.CreateUser? || f.CreateWallet? || f.CommitAccount?
  }

  // A user row inserted but not yet committed holds the unique index entry of the phone.
  predicate HoldsPhone(f: Flight) {
    f.CreateWallet? || f.CommitAccount?
  }

  datatype Activation = Activation(approval: Approval, account: Account, times: Times)

  datatype State = State(
    now: Time,
    approval: Option<Approval>,
    account: Option<Account>,
    flights: map<ReqId, Flight>,
    activations: seq<Activation>)   // the approval as it was at each committed claim

  datatype Action =
    | Approve(id: ReqId, role: Role)
    | RegisterBusiness(id: ReqId)
    | RegisterPersonal
    | Step(id: ReqId)
    | Crash(id: ReqId)
    | Tick(ms: nat)

  function End(s: State, i: ReqId): State {
    s.(flights := s.flights - {i})
  }

  function To(s: State, i: ReqId, f: Flight): State {
    s.(flights := s.flights[i := f])
  }

  predicate RowLocked(s: State, i: ReqId) {
    exists j :: j in s.flights && j != i && HoldsRow(s.flights[j])
  }

  predicate PhoneLocked(s: State, i: ReqId) {
    exists j :: j in s.flights && j != i && HoldsPhone(s.flights[j])
  }

  /** The update that renews: only an approval never used and expired at the administrator's time. */
  predicate Renewable(s: State, at: Time) {
    s.approval.Some? && s.approval.value.activatedAt == None && s.approval.value.expiresAt <= at
  }

  /** The update that claims: still the role that was read, unused, and unexpired at the time the request read. */
  predicate Claimable(s: State, role: Role, checked: Time) {
    && s.approval.Some? && s.approval.value.role == role
    && s.approval.value.activatedAt == None && s.approval.value.expiresAt > checked
  }

  function StepFlight(s: State, i: ReqId): State
    requires i in s.flights
  {
    match s.flights[i]
    case CheckPhone(role) => if s.account.Some? then End(s, i) else To(s, i, ReadPrevious(role, s.now))
    case ReadPrevious(role, at) =>
      if s.approval == None then To(s, i, Create(role, at))
      else if s.approval.value.activatedAt.Some? || s.approval.value.expiresAt > at then End(s, i)
      else To(s, i, Renew(role, at))
    case Renew(role, at) =>
      if RowLocked(s, i) then s
      else if Renewable(s, at) then
        End(s, i).(approval := Some(s.approval.value.(role := role, expiresAt := at + APPROVAL_MS)))
      else End(s, i)
    case Create(role, at) =>
      if s.approval.Some? then End(s, i)
      else End(s, i).(approval := Some(Approval(role, at + APPROVAL_MS, None)))
    case ReadApproval =>
      if s.approval == None || s.approval.value.activatedAt.Some? || s.approval.value.expiresAt <= s.now
         || !IsBusiness(s.approval.value.role) then End(s, i)
      else To(s, i, ReadClock(s.approval.value.role))
    case ReadClock(role) => To(s, i, ReadClockAgain(role, s.now))
    case ReadClockAgain(role, checked) => To(s, i, Claim(role, Times(checked, s.now)))
    case Claim(role, times) =>
      if RowLocked(s, i) then s
      else if Claimable(s, role, times.checked) then To(s, i, CreateUser(role, times)) else End(s, i)
    case CreateUser(role, times) =>
      if PhoneLocked(s, i) then s
      else if s.account.Some? then End(s, i) else To(s, i, CreateWallet(role, times))
    case CreateWallet(role, times) =>
      if !IsBusiness(role) then End(s, i) else To(s, i, CommitAccount(Account(role, BusinessWalletType(role)), times))
    case CommitAccount(account, times) =>
      if s.approval == None then End(s, i)
      else End(s, i).(approval := Some(s.approval.value.(activatedAt := Some(times.stamped))), account := Some(account),
                      activations := s.activations + [Activation(s.approval.value, account, times)])
  }

  /** A step that is not possible leaves the state as it is. */
  function Next(s: State, a: Action): State {
    match a
    case Approve(i, role) => if i in s.flights || !IsBusiness(role) then s else To(s, i, CheckPhone(role))
    case RegisterBusiness(i) => if i in s.flights then s else To(s, i, ReadApproval)
    case RegisterPersonal =>
      if s.account.Some? || exists j :: j in s.flights && HoldsPhone(s.flights[j]) then s
      else s.(account := Some(Account(Customer, Personal)))
    case Step(i) => if i in s.flights then StepFlight(s, i) else s
    case Crash(i) => End(s, i)
    case Tick(ms) => s.(now := s.now + ms)
  }

  function Run(s: State, actions: seq<Action>): State {
    if actions == [] then s else Next(Run(s, actions[..|actions| - 1]), actions[|actions| - 1])
  }

  function Init(): State {
    State(0, None, None, map[], [])
  }

  // ---------------------------------------------------------------- invariant

  /** A registration past its claim still finds the approval as it claimed it, and the phone free once it has
      inserted. */
  ghost predicate FlightOk(s: State, f: Flight) {
    && (f.CreateUser? ==> Claimed(s, f.role, f.times))
    && (f.CreateWallet? ==> Claimed(s, f.role, f.times) && s.account == None)
    && (f.CommitAccount? ==>
          Claimed(s, f.account.role, f.times) && s.account == None && f.account.wallet == WalletFor(f.account.role))
    && (f.ReadClock? || f.ReadClockAgain? || f.Claim? ==> IsBusiness(f.role))
    && (f.ReadClockAgain? ==> f.checked <= s.now)
    && (f.Claim? ==> f.times.checked <= f.times.stamped <= s.now)
    && (f.CheckPhone? || f.ReadPrevious? || f.Renew? || f.Create? ==> IsBusiness(f.role))
  }

  ghost predicate Claimed(s: State, role: Role, times: Times) {
    && IsBusiness(role) && times.checked <= times.stamped <= s.now
    && s.approval.Some? && s.approval.value.role == role
    && s.approval.value.activatedAt == None && times.checked < s.approval.value.expiresAt
  }

  /** The only activation is the present approval's, at the role it was claimed for and compared with a time before
      its expiry. */
  ghost predicate ActivationsOk(s: State) {
    && |s.activations| <= 1
    && (s.approval.Some? && s.approval.value.activatedAt.Some? <==> |s.activations| == 1)
    && (|s.activations| == 1 ==>
          var act := s.activations[0];
          && s.account == Some(act.account) && act.account.role == act.approval.role
          && act.approval.activatedAt == None && act.times.checked < act.approval.expiresAt
          && act.times.checked <= act.times.stamped <= s.now
          && s.approval == Some(act.approval.(activatedAt := Some(act.times.stamped))))
  }

  ghost predicate Inv(s: State) {
    && (forall i :: i in s.flights ==> FlightOk(s, s.flights[i]))
    && (forall i, j :: i in s.flights && j in s.flights && i != j && HoldsRow(s.flights[i]) ==> !HoldsRow(s.flights[j]))
    && ActivationsOk(s)
    && (s.account.Some? ==> s.account.value.wallet == WalletFor(s.account.value.role))
    && (s.approval.Some? ==> IsBusiness(s.approval.value.role))
  }

  lemma CommitKeepsInv(s: State, i: ReqId)
    requires Inv(s) && i in s.flights && s.flights[i].CommitAccount?
    ensures Inv(Next(s, Step(i)))
  {
    assert FlightOk(s, s.flights[i]);
    forall j | j in s.flights && j != i ensures !HoldsRow(s.flights[j]) && FlightOk(Next(s, Step(i)), s.flights[j]) {
      assert FlightOk(s, s.flights[j]);
    }
  }

  lemma MoveKeepsInv(s: State, i: ReqId, f: Flight)
    requires Inv(s) && FlightOk(s, f)
    requires HoldsRow(f) ==> forall j :: j in s.flights && j != i ==> !HoldsRow(s.flights[j])
    ensures Inv(To(s, i, f)) && Inv(End(s, i))
  {
    forall j | j in To(s, i, f).flights ensures FlightOk(To(s, i, f), To(s, i, f).flights[j]) {
      if j != i { assert FlightOk(s, s.flights[j]); }
    }
    forall j | j in End(s, i).flights ensures FlightOk(End(s, i), s.flights[j]) { assert FlightOk(s, s.flights[j]); }
  }

  // Writing the approval while no claim holds its row.
  lemma WriteKeepsInv(s: State, i: ReqId, a: Approval)
    requires Inv(s) && !RowLocked(s, i) && i in s.flights && !HoldsRow(s.flights[i])
    requires IsBusiness(a.role) && a.activatedAt == None && s.activations == []
    ensures Inv(End(s, i).(approval := Some(a)))
  {
    var s' := End(s, i).(approval := Some(a));
    forall j | j in s'.flights ensures FlightOk(s', s'.flights[j]) { assert FlightOk(s, s.flights[j]); }
  }

  lemma NoApprovalNoClaim(s: State, i: ReqId)
    requires Inv(s) && s.approval == None
    ensures !RowLocked(s, i)
  {
    forall j | j in s.flights ensures !HoldsRow(s.flights[j]) { assert FlightOk(s, s.flights[j]); }
  }

  lemma ApprovalStepKeepsInv(s: State, i: ReqId)
    requires Inv(s) && i in s.flights
    requires s.flights[i].CheckPhone? || s.flights[i].ReadPrevious? || s.flights[i].Renew? || s.flights[i].Create?
    ensures Inv(StepFlight(s, i))
  {
    var f := s.flights[i];
    assert FlightOk(s, f);
    MoveKeepsInv(s, i, f);
    match f
    case CheckPhone(role) => MoveKeepsInv(s, i, ReadPrevious(role, s.now));
    case ReadPrevious(role, at) =>
      MoveKeepsInv(s, i, Create(role, at));
      MoveKeepsInv(s, i, Renew(role, at));
    case Renew(role, at) =>
      if !RowLocked(s, i) && Renewable(s, at) {
        WriteKeepsInv(s, i, s.approval.value.(role := role, expiresAt := at + APPROVAL_MS));
      }
    case Create(role, at) =>
      if s.approval == None {
        NoApprovalNoClaim(s, i);
        WriteKeepsInv(s, i, Approval(role, at + APPROVAL_MS, None));
      }
    case _ =>
  }

  lemma RegistrationStepKeepsInv(s: State, i: ReqId)
    requires Inv(s) && i in s.flights
    requires !(s.flights[i].CheckPhone? || s.flights[i].ReadPrevious? || s.flights[i].Renew? || s.flights[i].Create?)
    ensures Inv(StepFlight(s, i))
  {
    var f := s.flights[i];
    assert FlightOk(s, f);
    MoveKeepsInv(s, i, f);
    match f
    case ReadApproval => if s.approval.Some? { MoveKeepsInv(s, i, ReadClock(s.approval.value.role)); }
    case ReadClock(role) => MoveKeepsInv(s, i, ReadClockAgain(role, s.now));
    case ReadClockAgain(role, checked) => MoveKeepsInv(s, i, Claim(role, Times(checked, s.now)));
    case Claim(role, times) =>
      if !RowLocked(s, i) && Claimable(s, role, times.checked) { MoveKeepsInv(s, i, CreateUser(role, times)); }
    case CreateUser(role, times) => if s.account == None { MoveKeepsInv(s, i, CreateWallet(role, times)); }
    case CreateWallet(role, times) =>
      MoveKeepsInv(s, i, CommitAccount(Account(role, BusinessWalletType(role)), times));
    case CommitAccount(_, _) => CommitKeepsInv(s, i);
    case _ =>
  }

  lemma PersonalKeepsInv(s: State)
    requires Inv(s)
    ensures Inv(Next(s, RegisterPersonal))
  {
    var s' := Next(s, RegisterPersonal);
    forall j | j in s'.flights ensures FlightOk(s', s'.flights[j]) { assert FlightOk(s, s.flights[j]); }
  }

  lemma NextKeepsInv(s: State, a: Action)
    requires Inv(s)
    ensures Inv(Next(s, a))
  {
    match a
    case Approve(i, role) => if !(i in s.flights || !IsBusiness(role)) { MoveKeepsInv(s, i, CheckPhone(role)); }
    case RegisterBusiness(i) => MoveKeepsInv(s, i, ReadApproval);
    case RegisterPersonal => PersonalKeepsInv(s);
    case Step(i) =>
      if i in s.flights {
        var f := s.flights[i];
        if f.CheckPhone? || f.ReadPrevious? || f.Renew? || f.Create? { ApprovalStepKeepsInv(s, i); }
        else { RegistrationStepKeepsInv(s, i); }
      }
    case Crash(i) => MoveKeepsInv(s, i, ReadApproval);
    case Tick(_) =>
      forall j | j in s.flights ensures FlightOk(Next(s, a), s.flights[j]) { assert FlightOk(s, s.flights[j]); }
  }

  lemma {:induction false} EveryRunKeepsInv(actions: seq<Action>)
    ensures Inv(Run(Init(), actions))
  {
    if actions != [] {
      EveryRunKeepsInv(actions[..|actions| - 1]);
      NextKeepsInv(Run(Init(), actions[..|actions| - 1]), actions[|actions| - 1]);
    }
  }

  /** In every run an approval is activated at most once, by one account whose role is the approved role at the moment
      of the claim, which compared a time before the expiry; and every account's wallet type matches its role, even when
      a renewal races the claim. */
  lemma ApprovalUsedOnce(actions: seq<Action>)
    ensures var s := Run(Init(), actions);
            && |s.activations| <= 1
            && (|s.activations| == 1 ==>
                  var act := s.activations[0];
                  && s.account == Some(act.account) && act.account.role == act.approval.role
                  && act.times.checked < act.approval.expiresAt && act.approval.activatedAt == None
                  && act.times.checked <= act.times.stamped <= s.now
                  && s.approval == Some(act.approval.(activatedAt := Some(act.times.stamped))))
            && (s.account.Some? ==> Matches(s.account.value))
            && (|s.activations| == 1 ==> s.account.value.role in {Agent, Merchant})
            && (s.approval.Some? && s.approval.value.activatedAt.Some? ==> |s.activations| == 1)
  {
    EveryRunKeepsInv(actions);
  }

  /** Once activated, an approval never changes again, and neither does its account. */
  lemma {:induction false} ActivatedIsFinal(before: seq<Action>, later: seq<Action>)
    requires var s := Run(Init(), before); s.approval.Some? && s.approval.value.activatedAt.Some?
    ensures var s, t := Run(Init(), before), Run(Run(Init(), before), later);
            Inv(t) && t.approval == s.approval && t.account == s.account && t.activations == s.activations
  {
    EveryRunKeepsInv(before);
    if later != [] {
      var prefix, a := later[..|later| - 1], later[|later| - 1];
      ActivatedIsFinal(before, prefix);
      var t := Run(Run(Init(), before), prefix);
      NextKeepsInv(t, a);
      if a.Step? && a.id in t.flights { assert FlightOk(t, t.flights[a.id]); }
    }
  }

  // ---------------------------------------------------------------- the service, in place

  type Phone = nat

  datatype ApprovalError =
    | InvalidRole | PhoneInUse | ApprovalExists
    | ApprovalRequired | ApprovalInvalid | RegistrationConflict

  /** The state machine of one phone, seen in the tables of all. */
  function OnePhone(approvals: map<Phone, Approval>, accounts: map<Phone, Account>, p: Phone, now: Time): State {
    var approval := if p in approvals then Some(approvals[p]) else None;
    var account := if p in accounts then Some(accounts[p]) else None;
    State(now, approval, account, map[], [])
  }

  predicate SameTables(s: State, t: State) {
    s.approval == t.approval && s.account == t.account && s.flights == t.flights
  }

  function Steps(s: State, n: nat): State {
    if n == 0 then s else Next(Steps(s, n - 1), Step(0))
  }

  lemma {:induction false} StepsRun(s: State, a: Action, n: nat)
    ensures Run(s, [a] + seq(n, k => Step(0))) == Steps(Next(s, a), n)
  {
    var actions := [a] + seq(n, k => Step(0));
    if n == 0 {
      assert actions == [a] && actions[..0] == [];
    } else {
      StepsRun(s, a, n - 1);
      assert actions[..n] == [a] + seq(n - 1, k => Step(0));
    }
  }

  // Request 0 at `f`, and no other.
  function Alone(s: State, f: Flight): State {
    s.(flights := map[0 := f])
  }

  lemma AloneMoves(s: State, f: Flight, g: Flight)
    requires s.flights == map[]
    ensures To(Alone(s, f), 0, g) == Alone(s, g) && End(Alone(s, f), 0) == s && To(s, 0, g) == Alone(s, g)
    ensures !RowLocked(Alone(s, f), 0) && !PhoneLocked(Alone(s, f), 0)
  {
    assert map[0 := f][0 := g] == map[0 := g] && map[0 := f] - {0} == map[] && map[][0 := g] == map[0 := g];
  }

  lemma {:induction false} DoneStays(s: State, n: nat)
    requires s.flights == map[]
    ensures Steps(s, n) == s
  {
    if n > 0 { DoneStays(s, n - 1); }
  }

  lemma {:induction false} StepFirst(s: State, n: nat)
    requires n > 0
    ensures Steps(s, n) == Steps(Next(s, Step(0)), n - 1)
  {
    if n > 1 { StepFirst(s, n - 1); }
  }

  lemma ApprovalWrites(s: State, role: Role, f: Flight)
    requires s.flights == map[] && (f == Renew(role, s.now) || f == Create(role, s.now))
    requires if f.Renew? then Renewable(s, s.now) else s.approval == None
    ensures Steps(Alone(s, f), 1) == s.(approval := Some(Approval(role, s.now + APPROVAL_MS, None)))
  {
    AloneMoves(s, f, f);
    StepFirst(Alone(s, f), 1);
  }

  lemma ApprovalReads(s: State, role: Role)
    requires s.flights == map[] && s.account == None
    ensures Steps(Alone(s, ReadPrevious(role, s.now)), 2) ==
            if s.approval == None || Renewable(s, s.now)
            then s.(approval := Some(Approval(role, s.now + APPROVAL_MS, None))) else s
  {
    var f := ReadPrevious(role, s.now);
    StepFirst(Alone(s, f), 2);
    AloneMoves(s, f, Create(role, s.now));
    AloneMoves(s, f, Renew(role, s.now));
    DoneStays(s, 1);
    if s.approval == None { ApprovalWrites(s, role, Create(role, s.now)); }
    else if Renewable(s, s.now) { ApprovalWrites(s, role, Renew(role, s.now)); }
  }

  lemma ApprovalBegins(s: State, role: Role)
    requires s.flights == map[] && IsBusiness(role)
    ensures Next(s, Approve(0, role)) == Alone(s, CheckPhone(role))
    ensures Next(Alone(s, CheckPhone(role)), Step(0)) ==
            if s.account == None then Alone(s, ReadPrevious(role, s.now)) else s
  {
    AloneMoves(s, CheckPhone(role), CheckPhone(role));
    AloneMoves(s, CheckPhone(role), ReadPrevious(role, s.now));
  }

  /** All statements of one approval with nothing in between. */
  lemma UndisturbedApproval(s: State, role: Role)
    requires s.flights == map[] && IsBusiness(role)
    ensures Run(s, [Approve(0, role)] + seq(3, k => Step(0))) ==
            if s.account == None
               && (s.approval.Some? ==> s.approval.value.activatedAt == None && s.approval.value.expiresAt <= s.now)
            then s.(approval := Some(Approval(role, s.now + 3_600_000, None))) else s
  {
    StepsRun(s, Approve(0, role), 3);
    ApprovalBegins(s, role);
    StepFirst(Alone(s, CheckPhone(role)), 3);
    DoneStays(s, 2);
    if s.account == None { ApprovalReads(s, role); }
  }

  // The state `s` with the approval activated and the account created.
  predicate Activates(s: State, done: State, role: Role, stamped: Time)
    requires s.approval.Some?
  {
    && done.approval == Some(s.approval.value.(activatedAt := Some(stamped)))
    && done.account == Some(Account(role, WalletFor(role))) && done.flights == map[]
  }

  lemma AccountCommits(s: State, role: Role, times: Times)
    requires s.flights == map[] && s.account == None && s.approval.Some? && IsBusiness(role)
    ensures Activates(s, Steps(Alone(s, CreateUser(role, times)), 3), role, times.stamped)
  {
    var create, wallet := CreateUser(role, times), CreateWallet(role, times);
    var commit := CommitAccount(Account(role, BusinessWalletType(role)), times);
    AloneMoves(s, create, wallet);
    AloneMoves(s, wallet, commit);
    AloneMoves(s, commit, commit);
    StepFirst(Alone(s, create), 3);
    StepFirst(Alone(s, wallet), 2);
    StepFirst(Alone(s, commit), 1);
  }

  lemma ClaimSteps(s: State, role: Role, times: Times)
    requires s.flights == map[] && Claimable(s, role, times.checked) && IsBusiness(role)
    ensures var done := Steps(Alone(s, Claim(role, times)), 4);
            if s.account.Some? then done == s else Activates(s, done, role, times.stamped)
  {
    AloneMoves(s, Claim(role, times), CreateUser(role, times));
    AloneMoves(s, CreateUser(role, times), CreateUser(role, times));
    StepFirst(Alone(s, Claim(role, times)), 4);
    StepFirst(Alone(s, CreateUser(role, times)), 3);
    DoneStays(s, 2);
    if s.account == None { AccountCommits(s, role, times); }
  }

  lemma ClockSteps(s: State, role: Role, n: nat)
    requires s.flights == map[]
    ensures Steps(Alone(s, ReadClock(role)), n + 2) == Steps(Alone(s, Claim(role, Times(s.now, s.now))), n)
  {
    AloneMoves(s, ReadClock(role), ReadClockAgain(role, s.now));
    AloneMoves(s, ReadClockAgain(role, s.now), Claim(role, Times(s.now, s.now)));
    StepFirst(Alone(s, ReadClock(role)), n + 2);
    StepFirst(Alone(s, ReadClockAgain(role, s.now)), n + 1);
  }

  predicate Registrable(s: State) {
    s.approval.Some? && IsBusiness(s.approval.value.role) && Claimable(s, s.approval.value.role, s.now)
  }

  lemma RegistrationBegins(s: State)
    requires s.flights == map[]
    ensures Next(s, Action.RegisterBusiness(0)) == Alone(s, ReadApproval)
    ensures Next(Alone(s, ReadApproval), Step(0)) ==
            if Registrable(s) then Alone(s, ReadClock(s.approval.value.role)) else s
  {
    AloneMoves(s, ReadApproval, ReadApproval);
    if s.approval.Some? { AloneMoves(s, ReadApproval, ReadClock(s.approval.value.role)); }
  }

  /** All statements of one business registration with nothing in between. */
  lemma UndisturbedRegistration(s: State)
    requires s.flights == map[]
    ensures var done := Run(s, [Action.RegisterBusiness(0)] + seq(7, k => Step(0)));
            if Registrable(s) && s.account == None then Activates(s, done, s.approval.value.role, s.now) else done == s
  {
    StepsRun(s, Action.RegisterBusiness(0), 7);
    RegistrationBegins(s);
    StepFirst(Alone(s, ReadApproval), 7);
    if Registrable(s) {
      ClockSteps(s, s.approval.value.role, 4);
      ClaimSteps(s, s.approval.value.role, Times(s.now, s.now));
    } else {
      DoneStays(s, 6);
    }
  }

  // ---------------------------------------------------------------- a late stamp

  lemma RunThen(s: State, actions: seq<Action>, a: Action)
    ensures Run(s, actions + [a]) == Next(Run(s, actions), a)
  {
    assert (actions + [a])[..|actions|] == actions;
  }

  // A registration that has read the approval an instant before it expires, and then reads the clock again late.
  lemma LateClaim(s: State, role: Role, late: nat)
    requires s.flights == map[] && s.account == None && IsBusiness(role)
    requires s.approval == Some(Approval(role, s.now + 1, None))
    ensures var t := Next(Next(Next(s, Action.RegisterBusiness(0)), Step(0)), Step(0));
            Activates(s, Steps(Next(t, Tick(1 + late)), 5), role, s.now + 1 + late)
  {
    var f, s' := ReadClockAgain(role, s.now), s.(now := s.now + 1 + late);
    var times := Times(s.now, s'.now);
    RegistrationBegins(s);
    AloneMoves(s, ReadClock(role), f);
    AloneMoves(s', f, Claim(role, times));
    StepFirst(Alone(s', f), 5);
    ClaimSteps(s', role, times);
  }

  /** The claim writes a later time than the one it compared: the recorded activation can lie at or after the expiry, by
      whatever passes between the two readings of the clock. */
  lemma ActivatedAfterExpiry(role: Role, late: nat) returns (actions: seq<Action>)
    requires IsBusiness(role)
    ensures var s := Run(Init(), actions);
            && s.approval == Some(Approval(role, APPROVAL_MS, Some(APPROVAL_MS + late)))
            && s.account == Some(Account(role, WalletFor(role)))
  {
    var approve := [Approve(0, role)] + seq(3, k => Step(0));
    UndisturbedApproval(Init(), role);
    RunThen(Init(), approve, Tick(APPROVAL_MS - 1));
    actions := approve + [Tick(APPROVAL_MS - 1)];
    var s := Run(Init(), actions);
    LateClaim(s, role, late);
    RunThen(Init(), actions, Action.RegisterBusiness(0));
    actions := actions + [Action.RegisterBusiness(0)];
    RunThen(Init(), actions, Step(0));
    actions := actions + [Step(0)];
    RunThen(Init(), actions, Step(0));
    actions := actions + [Step(0)];
    RunThen(Init(), actions, Tick(1 + late));
    actions := actions + [Tick(1 + late)];
    actions := ThenSteps(Init(), actions, 5);
  }

  lemma {:induction false} ThenSteps(s: State, actions: seq<Action>, n: nat) returns (longer: seq<Action>)
    ensures Run(s, longer) == Steps(Run(s, actions), n)
  {
    if n == 0 {
      longer := actions;
    } else {
      var front := ThenSteps(s, actions, n - 1);
      RunThen(s, front, Step(0));
      longer := front + [Step(0)];
    }
  }

  class ApprovalDesk {
    var approvals: map<Phone, Approval>
    var accounts: map<Phone, Account>

    constructor ()
      ensures approvals == map[] && accounts == map[]
    {
      approvals, accounts := map[], map[];
    }

    /** A new approval, or the renewal of one that expired unused; any other approval is left as it is. */
    method ApproveBusinessAccount(p: Phone, role: Role, now: Time) returns (r: Result<Approval, ApprovalError>)
      modifies this`approvals
      ensures if role != Agent && role != Merchant then r == Err(InvalidRole)
              else if p in accounts then r == Err(PhoneInUse)
              else r.Ok? || r == Err(ApprovalExists)
      ensures r.Ok? <==> role in {Agent, Merchant} && p !in accounts
                         && (p in old(approvals) ==>
                               old(approvals)[p].activatedAt == None && old(approvals)[p].expiresAt <= now)
      ensures r.Ok? ==> r.value == Approval(role, now + 3_600_000, None) && approvals == old(approvals)[p := r.value]
      ensures r.Err? ==> approvals == old(approvals)
      ensures IsBusiness(role) ==>
                SameTables(OnePhone(approvals, accounts, p, now),
                           Run(old(OnePhone(approvals, accounts, p, now)), [Approve(0, role)] + seq(3, k => Step(0))))
    {
      if IsBusiness(role) {
        UndisturbedApproval(OnePhone(approvals, accounts, p, now), role);
      }
      if role != Agent && role != Merchant {
        return Err(InvalidRole);
      }
      if p in accounts {
        return Err(PhoneInUse);
      }
      if p in approvals && (approvals[p].activatedAt.Some? || approvals[p].expiresAt > now) {
        return Err(ApprovalExists);
      }
      var approval := Approval(role, now + APPROVAL_MS, None);
      approvals := approvals[p := approval];
      return Ok(approval);
    }

    /** Claim, account and wallet, or nothing. */
    method RegisterBusiness(p: Phone, now: Time) returns (r: Result<Account, ApprovalError>)
      modifies this`approvals, this`accounts
      ensures if p !in old(approvals) || old(approvals)[p].activatedAt != None || old(approvals)[p].expiresAt <= now
              then r == Err(ApprovalRequired)
              else if old(approvals)[p].role !in {Agent, Merchant} then r == Err(ApprovalInvalid)
              else if p in old(accounts) then r == Err(RegistrationConflict)
              else r.Ok?
      ensures r.Ok? ==>
                && r.value.role == old(approvals)[p].role && Matches(r.value)
                && accounts == old(accounts)[p := r.value]
                && approvals == old(approvals)[p := old(approvals)[p].(activatedAt := Some(now))]
      ensures r.Err? ==> approvals == old(approvals) && accounts == old(accounts)
      ensures SameTables(OnePhone(approvals, accounts, p, now),
                         Run(old(OnePhone(approvals, accounts, p, now)),
                             [Action.RegisterBusiness(0)] + seq(7, k => Step(0))))
    {
      UndisturbedRegistration(OnePhone(approvals, accounts, p, now));
      if p !in approvals || approvals[p].activatedAt.Some? || approvals[p].expiresAt <= now {
        return Err(ApprovalRequired);
      }
      var before := approvals;
      var role := approvals[p].role;
      if role != Agent && role != Merchant {
        return Err(ApprovalInvalid);
      }
      approvals := approvals[p := approvals[p].(activatedAt := Some(now))];
      if p in accounts {
        approvals := before;
        return Err(RegistrationConflict);
      }
      var account := Account(role, BusinessWalletType(role));
      accounts := accounts[p := account];
      return Ok(account);
    }
  }
}
