/** Sends, verifications, logins and registrations running at once over the keys of OtpStore. Each Redis command and
    each script is one step, a key may expire at any time, and a command may fail with or without having taken effect.
    A history of what happened, in which each event names the earlier events that justified it, carries the proofs. */
module Evidence {
  import opened Wrappers
  import opened Redis
  import opened OtpStore

  // ---------------------------------------------------------------- the history

  datatype Event =
    | Activated(phone: Phone, cid: Cid)
    | Rejected(phone: Phone, cid: Cid)                  // a code was compared and did not match
    | CounterExpired(phone: Phone)
    | CodeVerified(phone: Phone, cid: Cid, device: Device)
    | RegIssued(phone: Phone, device: Device, hash: Hash, verified: nat)
    | RegConsumed(phone: Phone, device: Device, hash: Hash, issued: nat)    // `hash`: of the token presented
    | AccountCreated(phone: Phone, user: User, device: Device, consumed: nat)
    | PinLogin(user: User, phone: Phone, device: Device)  // right PIN on a device that is not authorised
    | EnrIssued(user: User, phone: Phone, device: Device, hash: Hash, login: nat)
    | EnrConsumed(user: User, phone: Phone, device: Device, hash: Hash, issued: nat, verified: nat)
    | Enrolled(user: User, device: Device, consumed: nat)

  type History = seq<Event>

  // ---------------------------------------------------------------- requests in flight

  datatype SendPc =
    | ReadFailures | TakeCooldown | StoreChallenge | StoreActive(cid: Cid)
    | UndoChallenge(cid: Cid) | UndoCooldown

  datatype VerifyPc =
    | RunScript
    | FindUser(verified: nat)
    | IssueReg(verified: nat)
    | ConsumeEnr(verified: nat, user: User)
    | UpsertDevice(consumed: nat, user: User)

  datatype RegisterPc = ConsumeReg | CheckPhone(consumed: nat) | CreateAccount(consumed: nat)

  datatype Flight =
    | Send(phone: Phone, device: Device, spc: SendPc)
    | Verify(attempt: Attempt, proof: Option<Hash>, vpc: VerifyPc)
    | IssueEnr(user: User, phone: Phone, device: Device, login: nat)
    | Registering(phone: Phone, device: Device, hash: Hash, rpc: RegisterPc)

  type ReqId = nat

  datatype Account = Account(user: User, active: bool)

  datatype Trusted = Trusted(user: User, device: Device)

  datatype State = State(
    keys: Keys,
    regOrigin: map<Phone, nat>,   // which RegIssued event stored the proof now in keys.reg
    enrOrigin: map<Phone, nat>,
    accounts: map<Phone, Account>,
    trusted: set<Trusted>,        // authorised device rows
    minted: set<Cid>,
    flights: map<ReqId, Flight>,
    history: History)

  datatype Action =
    | BeginSend(id: ReqId, phone: Phone, device: Device)
    | BeginVerify(id: ReqId, attempt: Attempt, proof: Option<Hash>)
    | BeginRegister(id: ReqId, phone: Phone, device: Device, hash: Hash)
    | LoginWithPin(id: ReqId, phone: Phone, device: Device)
    | Step(id: ReqId, ack: Ack, value: nat, code: Code)  // `value`: the generated id, token hash or user id
    | Crash(id: ReqId)
    | ExpireActive(phone: Phone)
    | ExpireChallenge(key: ChallengeKey)
    | ExpireFailures(phone: Phone)
    | ExpireCooldown(phone: Phone)
    | ExpireReg(phone: Phone)
    | ExpireEnr(phone: Phone)
    | SetAccountActive(phone: Phone, active: bool)
    | RevokeDevice(row: Trusted)

  function End(s: State, i: ReqId): State {
    s.(flights := s.flights - {i})
  }

  function Put(s: State, i: ReqId, f: Flight): State {
    s.(flights := s.flights[i := f])
  }

  function Note(s: State, e: Event): State {
    s.(history := s.history + [e])
  }

  // ---------------------------------------------------------------- sendOtp

  function SendStep(
      s: State, i: ReqId, p: Phone, d: Device, pc: SendPc, ack: Ack, value: nat, code: Code, max: nat): State
  {
    match pc
    case ReadFailures =>
      if !ack.Answered? || Failures(s.keys, p) >= max then End(s, i) else Put(s, i, Send(p, d, TakeCooldown))
    case TakeCooldown =>
      if ack.Failed? || p in s.keys.cooldown then End(s, i)
      else
        var t := s.(keys := s.keys.(cooldown := s.keys.cooldown + {p}));
        if ack.Answered? then Put(t, i, Send(p, d, StoreChallenge)) else End(t, i)
    case StoreChallenge =>
      if value in s.minted then s
      else if ack.Failed? then Put(s, i, Send(p, d, UndoCooldown))
      else
        var t := s.(keys := s.keys.(challenges := s.keys.challenges[ChallengeKey(p, value) := Challenge(p, d, code)]),
                    minted := s.minted + {value});
        if ack.Answered? then Put(t, i, Send(p, d, StoreActive(value))) else Put(t, i, Send(p, d, UndoCooldown))
    case StoreActive(cid) =>
      if ack.Failed? then Put(s, i, Send(p, d, UndoChallenge(cid)))
      else
        var t := Note(s.(keys := s.keys.(active := s.keys.active[p := cid])), Activated(p, cid));
        if ack.Answered? then End(t, i) else Put(t, i, Send(p, d, UndoChallenge(cid)))
    case UndoChallenge(cid) =>
      var t := if ack.Failed? then s else s.(keys := s.keys.(challenges := s.keys.challenges - {ChallengeKey(p, cid)}));
      Put(t, i, Send(p, d, UndoCooldown))
    case UndoCooldown =>
      End(if ack.Failed? then s else s.(keys := s.keys.(cooldown := s.keys.cooldown - {p})), i)
  }

  // ---------------------------------------------------------------- verifyOtp

  function ScriptEvent(s: State, a: Attempt, max: nat): State {
    var t := s.(keys := ScriptEffect(s.keys, a, max));
    if !Compared(s.keys, a, max) then t
    else if CodeMatches(s.keys, a) then Note(t, CodeVerified(a.phone, a.cid, a.device))
    else Note(t, Rejected(a.phone, a.cid))
  }

  function StoreReg(s: State, p: Phone, d: Device, hash: Hash, verified: nat): State {
    Note(s.(keys := s.keys.(reg := s.keys.reg[p := RegProof(hash, p, d)]), regOrigin := s.regOrigin[p := |s.history|]),
         RegIssued(p, d, hash, verified))
  }

  function StoreEnr(s: State, u: User, p: Phone, d: Device, hash: Hash, login: nat): State {
    Note(s.(keys := s.keys.(enr := s.keys.enr[p := EnrProof(hash, u, p, d)]),
        enrOrigin := s.enrOrigin[p := |s.history|]),
         EnrIssued(u, p, d, hash, login))
  }

  function TakeReg(s: State, p: Phone, d: Device, hash: Hash, origin: nat): State {
    Note(s.(keys := s.keys.(reg := s.keys.reg - {p}), regOrigin := s.regOrigin - {p}), RegConsumed(p, d, hash, origin))
  }

  function TakeEnr(s: State, u: User, p: Phone, d: Device, hash: Hash, origin: nat, verified: nat): State {
    Note(s.(keys := s.keys.(enr := s.keys.enr - {p}), enrOrigin := s.enrOrigin - {p}),
        EnrConsumed(u, p, d, hash, origin, verified))
  }

  function VerifyStep(
      s: State, i: ReqId, a: Attempt, proof: Option<Hash>, pc: VerifyPc, ack: Ack, value: nat, max: nat): State
  {
    match pc
    case RunScript =>
      if ack.Failed? then End(s, i)
      else if ack.Answered? && ScriptStatus(s.keys, a, max) == Verified
      then Put(ScriptEvent(s, a, max), i, Verify(a, proof, FindUser(|s.history|)))
      else End(ScriptEvent(s, a, max), i)
    case FindUser(v) =>
      if a.phone !in s.accounts then Put(s, i, Verify(a, proof, IssueReg(v)))
      else if proof == None || !s.accounts[a.phone].active then End(s, i)
      else Put(s, i, Verify(a, proof, ConsumeEnr(v, s.accounts[a.phone].user)))
    case IssueReg(v) =>
      if ack.Failed? then End(s, i) else End(StoreReg(s, a.phone, a.device, value, v), i)
    case ConsumeEnr(v, u) =>
      if ack.Failed? || proof == None || a.phone !in s.enrOrigin
         || EnrStatus(s.keys, u, a.phone, a.device, proof.value) != Consumed then End(s, i)
      else
        var t := TakeEnr(s, u, a.phone, a.device, proof.value, s.enrOrigin[a.phone], v);
        if ack.Answered? then Put(t, i, Verify(a, proof, UpsertDevice(|s.history|, u))) else End(t, i)
    case UpsertDevice(c, u) =>
      End(Note(s.(trusted := s.trusted + {Trusted(u, a.device)}), Enrolled(u, a.device, c)), i)
  }

  // ---------------------------------------------------------------- register

  predicate UserIdFree(s: State, u: User) {
    forall p :: p in s.accounts ==> s.accounts[p].user != u
  }

  function RegisterStep(
      s: State, i: ReqId, p: Phone, d: Device, hash: Hash, pc: RegisterPc, ack: Ack, value: nat): State
  {
    match pc
    case ConsumeReg =>
      if ack.Failed? || p !in s.regOrigin || RegStatus(s.keys, p, d, hash) != Consumed then End(s, i)
      else
        var t := TakeReg(s, p, d, hash, s.regOrigin[p]);
        if ack.Answered? then Put(t, i, Registering(p, d, hash, CheckPhone(|s.history|))) else End(t, i)
    case CheckPhone(c) =>
      if p in s.accounts then End(s, i) else Put(s, i, Registering(p, d, hash, CreateAccount(c)))
    case CreateAccount(c) =>
      if p in s.accounts || !UserIdFree(s, value) then End(s, i)   // unique phone, or any failure of the transaction
      else End(Note(s.(accounts := s.accounts[p := Account(value, true)], trusted := s.trusted + {Trusted(value, d)}),
                    AccountCreated(p, value, d, c)), i)
  }

  function StepFlight(s: State, i: ReqId, ack: Ack, value: nat, code: Code, max: nat): State
    requires i in s.flights
  {
    match s.flights[i]
    case Send(p, d, pc) => SendStep(s, i, p, d, pc, ack, value, code, max)
    case Verify(a, proof, pc) => VerifyStep(s, i, a, proof, pc, ack, value, max)
    case IssueEnr(u, p, d, login) => if ack.Failed? then End(s, i) else End(StoreEnr(s, u, p, d, value, login), i)
    case Registering(p, d, hash, pc) => RegisterStep(s, i, p, d, hash, pc, ack, value)
  }

  /** A step that is not possible leaves the state as it is. */
  function Next(s: State, a: Action, max: nat): State {
    match a
    case BeginSend(i, p, d) => if i in s.flights then s else Put(s, i, Send(p, d, ReadFailures))
    case BeginVerify(i, att, proof) => if i in s.flights then s else Put(s, i, Verify(att, proof, RunScript))
    case BeginRegister(i, p, d, hash) => if i in s.flights then s else Put(s, i, Registering(p, d, hash, ConsumeReg))
    case LoginWithPin(i, p, d) =>
      if i in s.flights || p !in s.accounts || !s.accounts[p].active then s
      else if Trusted(s.accounts[p].user, d) in s.trusted then s
      else Put(Note(s, PinLogin(s.accounts[p].user, p, d)), i, IssueEnr(s.accounts[p].user, p, d, |s.history|))
    case Step(i, ack, value, code) => if i in s.flights then StepFlight(s, i, ack, value, code, max) else s
    case Crash(i) => End(s, i)
    case ExpireActive(p) => s.(keys := s.keys.(active := s.keys.active - {p}))
    case ExpireChallenge(key) => s.(keys := s.keys.(challenges := s.keys.challenges - {key}))
    case ExpireFailures(p) =>
      if p !in s.keys.failures then s
      else Note(s.(keys := s.keys.(failures := s.keys.failures - {p})), CounterExpired(p))
    case ExpireCooldown(p) => s.(keys := s.keys.(cooldown := s.keys.cooldown - {p}))
    case ExpireReg(p) => s.(keys := s.keys.(reg := s.keys.reg - {p}), regOrigin := s.regOrigin - {p})
    case ExpireEnr(p) => s.(keys := s.keys.(enr := s.keys.enr - {p}), enrOrigin := s.enrOrigin - {p})
    case SetAccountActive(p, flag) =>
      if p in s.accounts then s.(accounts := s.accounts[p := s.accounts[p].(active := flag)]) else s
    case RevokeDevice(row) => s.(trusted := s.trusted - {row})
  }

  function Run(s: State, actions: seq<Action>, max: nat): State {
    if actions == [] then s else Next(Run(s, actions[..|actions| - 1], max), actions[|actions| - 1], max)
  }

  /** Any accounts and devices, an empty Redis, nothing in flight. */
  function Init(accounts: map<Phone, Account>, trusted: set<Trusted>): State {
    State(Keys(map[], map[], map[], {}, map[], map[]), map[], map[], accounts, trusted, {}, map[], [])
  }

  // ---------------------------------------------------------------- an undisturbed send

  lemma {:induction false} RunFrom(s: State, actions: seq<Action>, max: nat)
    requires actions != []
    ensures Run(s, actions, max) == Run(Next(s, actions[0], max), actions[1..], max)
  {
    if |actions| == 1 {
      assert actions[..0] == [] && actions[1..] == [];
    } else {
      var front := actions[..|actions| - 1];
      RunFrom(s, front, max);
      assert front[1..] == actions[1..][..|actions[1..]| - 1];
    }
  }

  /** The steps of one send, up to the first command that goes wrong and the clean-up after it. */
  function SendActions(i: ReqId, c: SendCall): seq<Action> {
    [BeginSend(i, c.phone, c.device), Step(i, c.readFailures, 0, 0), Step(i, c.takeCooldown, 0, 0),
     Step(i, c.storeChallenge, c.cid, c.code)]
    + if c.storeChallenge.Answered?
      then [Step(i, c.storeActive, 0, 0), Step(i, c.undoChallenge, 0, 0), Step(i, c.undoCooldown, 0, 0)]
      else [Step(i, c.undoCooldown, 0, 0)]
  }

  function BeforeChallenge(s: State, i: ReqId, c: SendCall, max: nat): State {
    Next(Next(Next(s, BeginSend(i, c.phone, c.device), max), Step(i, c.readFailures, 0, 0), max),
         Step(i, c.takeCooldown, 0, 0), max)
  }

  function UpToChallenge(s: State, i: ReqId, c: SendCall, max: nat): State {
    Next(BeforeChallenge(s, i, c, max), Step(i, c.storeChallenge, c.cid, c.code), max)
  }

  lemma SendActionsRun(s: State, i: ReqId, c: SendCall, max: nat)
    ensures var t := UpToChallenge(s, i, c, max);
            Run(s, SendActions(i, c), max) ==
            if c.storeChallenge.Answered?
            then Next(Next(Next(t, Step(i, c.storeActive, 0, 0), max), Step(i, c.undoChallenge, 0, 0), max),
                      Step(i, c.undoCooldown, 0, 0), max)
            else Next(t, Step(i, c.undoCooldown, 0, 0), max)
  {
    var a := SendActions(i, c);
    RunFrom(s, a, max);
    var s1 := Next(s, a[0], max);
    RunFrom(s1, a[1..], max);
    var s2 := Next(s1, a[1], max);
    RunFrom(s2, a[2..], max);
    var s3 := Next(s2, a[2], max);
    RunFrom(s3, a[3..], max);
    var s4 := Next(s3, a[3], max);
    RunFrom(s4, a[4..], max);
    if c.storeChallenge.Answered? {
      var s5 := Next(s4, a[4], max);
      RunFrom(s5, a[5..], max);
      RunFrom(Next(s5, a[5], max), a[6..], max);
    }
  }

  // Where the send stands: at `pc`, or done when there is none.
  predicate Stands(s: State, i: ReqId, c: SendCall, pc: Option<SendPc>, k: Keys, minted: set<Cid>) {
    && s.keys == k && s.minted == minted
    && (if pc == None then i !in s.flights else i in s.flights && s.flights[i] == Send(c.phone, c.device, pc.value))
  }

  lemma SendLocks(s: State, i: ReqId, c: SendCall, max: nat)
    requires i !in s.flights
    ensures var t := BeforeChallenge(s, i, c, max);
            if !TakesCooldown(s.keys, c, max)
            then Stands(t, i, c, None, s.keys, s.minted)
            else Stands(t, i, c, if c.takeCooldown.Lost? then None else Some(StoreChallenge),
                        s.keys.(cooldown := s.keys.cooldown + {c.phone}), s.minted)
  {
    var t1 := Next(s, BeginSend(i, c.phone, c.device), max);
    assert Stands(t1, i, c, Some(ReadFailures), s.keys, s.minted);
    var t2 := Next(t1, Step(i, c.readFailures, 0, 0), max);
    var refused := !c.readFailures.Answered? || Failures(s.keys, c.phone) >= max;
    assert Stands(t2, i, c, if refused then None else Some(TakeCooldown), s.keys, s.minted);
  }

  lemma SendStores(s: State, i: ReqId, c: SendCall, k: Keys, max: nat)
    requires Stands(s, i, c, Some(StoreChallenge), k, s.minted) && c.cid !in s.minted
    ensures var t := Next(s, Step(i, c.storeChallenge, c.cid, c.code), max);
            Stands(t, i, c, Some(if c.storeChallenge.Answered? then StoreActive(c.cid) else UndoCooldown),
                   WithChallenge(k, c), t.minted)
  {}

  lemma SendPoints(s: State, i: ReqId, c: SendCall, k: Keys, max: nat)
    requires Stands(s, i, c, Some(StoreActive(c.cid)), k, s.minted)
    ensures var t := Next(s, Step(i, c.storeActive, 0, 0), max);
            Stands(t, i, c, if c.storeActive.Answered? then None else Some(UndoChallenge(c.cid)),
                   WithActive(k, c), t.minted)
  {}

  lemma SendCleansUp(s: State, i: ReqId, c: SendCall, k: Keys, max: nat)
    ensures Stands(s, i, c, Some(UndoChallenge(c.cid)), k, s.minted) ==>
              Stands(Next(s, Step(i, c.undoChallenge, 0, 0), max), i, c, Some(UndoCooldown), WithoutChallenge(k, c),
                  s.minted)
    ensures Stands(s, i, c, Some(UndoCooldown), k, s.minted) ==>
              Stands(Next(s, Step(i, c.undoCooldown, 0, 0), max), i, c, None, WithoutCooldown(k, c), s.minted)
  {}

  /** Run with nothing in between, the statements of a send change Redis as `SendOtp` does in place. */
  lemma UndisturbedSend(s: State, i: ReqId, c: SendCall, max: nat)
    requires i !in s.flights && c.cid !in s.minted
    ensures var t := Run(s, SendActions(i, c), max); t.keys == SendEffect(s.keys, c, max) && i !in t.flights
  {
    SendActionsRun(s, i, c, max);
    SendLocks(s, i, c, max);
    var t3 := BeforeChallenge(s, i, c, max);
    var t4 := UpToChallenge(s, i, c, max);
    if i in t3.flights {
      SendStores(t3, i, c, t3.keys, max);
      if c.storeChallenge.Answered? {
        SendPoints(t4, i, c, t4.keys, max);
        var t5 := Next(t4, Step(i, c.storeActive, 0, 0), max);
        SendCleansUp(t5, i, c, t5.keys, max);
        var t6 := Next(t5, Step(i, c.undoChallenge, 0, 0), max);
        SendCleansUp(t6, i, c, t6.keys, max);
      } else {
        SendCleansUp(t4, i, c, t4.keys, max);
      }
    }
  }

  // ---------------------------------------------------------------- the honest path

  // Every command answered.
  function HonestSend(p: Phone, d: Device, cid: Cid, code: Code): SendCall {
    SendCall(p, d, cid, code, Answered, Answered, Answered, Answered, Answered, Answered, Answered)
  }

  function VerifyActions(i: ReqId, a: Attempt, proof: Option<Hash>, hash: Hash): seq<Action> {
    [BeginVerify(i, a, proof), Step(i, Answered, 0, 0), Step(i, Answered, 0, 0), Step(i, Answered, hash, 0)]
  }

  function RegisterActions(i: ReqId, p: Phone, d: Device, hash: Hash, u: User): seq<Action> {
    [BeginRegister(i, p, d, hash), Step(i, Answered, 0, 0), Step(i, Answered, 0, 0), Step(i, Answered, u, 0)]
  }

  lemma RunFour(s: State, a: seq<Action>, max: nat)
    requires |a| == 4
    ensures Run(s, a, max) == Next(Next(Next(Next(s, a[0], max), a[1], max), a[2], max), a[3], max)
  {
    RunFrom(s, a, max);
    RunFrom(Next(s, a[0], max), a[1..], max);
    RunFrom(Next(Next(s, a[0], max), a[1], max), a[2..], max);
    RunFrom(Next(Next(Next(s, a[0], max), a[1], max), a[2], max), a[3..], max);
  }

  lemma CodeVerifies(s: State, i: ReqId, a: Attempt, hash: Hash, max: nat)
    requires i !in s.flights && a.phone !in s.accounts && ScriptStatus(s.keys, a, max) == Verified
    ensures var t := Run(s, VerifyActions(i, a, None, hash), max);
            && a.phone in t.keys.reg && t.keys.reg[a.phone] == RegProof(hash, a.phone, a.device)
            && a.phone in t.regOrigin
            && t.accounts == s.accounts && i !in t.flights
  {
    RunFour(s, VerifyActions(i, a, None, hash), max);
    var t1 := Next(s, BeginVerify(i, a, None), max);
    var t2 := Next(t1, Step(i, Answered, 0, 0), max);
    assert t2.flights[i] == Verify(a, None, FindUser(|s.history|)) && t2.accounts == s.accounts;
  }

  lemma ProofRegisters(s: State, i: ReqId, p: Phone, d: Device, hash: Hash, u: User, max: nat)
    requires i !in s.flights && p !in s.accounts && UserIdFree(s, u)
    requires p in s.regOrigin && RegStatus(s.keys, p, d, hash) == Consumed
    ensures var t := Run(s, RegisterActions(i, p, d, hash, u), max);
            t.accounts == s.accounts[p := Account(u, true)] && Trusted(u, d) in t.trusted && p !in t.keys.reg
  {
    RunFour(s, RegisterActions(i, p, d, hash, u), max);
    var t1 := Next(s, BeginRegister(i, p, d, hash), max);
    var t2 := Next(t1, Step(i, Answered, 0, 0), max);
    assert t2.flights[i] == Registering(p, d, hash, CheckPhone(|s.history|)) && t2.accounts == s.accounts;
    assert UserIdFree(t2, u);
  }

  /** The chain can be walked: whoever gets a code, enters it and presents the proof it earns has an account and an
      authorised device, whatever else is in flight, and the proof is used up. */
  lemma HonestRegistration(s: State, i: ReqId, p: Phone, d: Device, cid: Cid, code: Code, hash: Hash, u: User, max: nat)
    requires i !in s.flights && cid !in s.minted && p !in s.accounts && UserIdFree(s, u)
    requires Failures(s.keys, p) < max && p !in s.keys.cooldown
    ensures var sent := Run(s, SendActions(i, HonestSend(p, d, cid, code)), max);
            var verified := Run(sent, VerifyActions(i, Attempt(p, d, cid, code), None, hash), max);
            var t := Run(verified, RegisterActions(i, p, d, hash, u), max);
            t.accounts == s.accounts[p := Account(u, true)] && Trusted(u, d) in t.trusted && p !in t.keys.reg
  {
    var c := HonestSend(p, d, cid, code);
    var sent := Run(s, SendActions(i, c), max);
    UndisturbedSend(s, i, c, max);
    OnlyTheSentCodeVerifies(s.keys, c, max, d, code);
    SendKeepsRest(s, i, c, max);
    CodeVerifies(sent, i, Attempt(p, d, cid, code), hash, max);
    ProofRegisters(Run(sent, VerifyActions(i, Attempt(p, d, cid, code), None, hash), max), i, p, d, hash, u, max);
  }

  /** With the proof of a PIN-checked login in hand, the code authorises the device of an existing account. */
  lemma HonestEnrollment(s: State, i: ReqId, p: Phone, d: Device, cid: Cid, code: Code, hash: Hash, max: nat)
    requires i !in s.flights && cid !in s.minted && p in s.accounts && s.accounts[p].active
    requires Trusted(s.accounts[p].user, d) !in s.trusted
    requires Failures(s.keys, p) < max && p !in s.keys.cooldown
    ensures var login := Run(s, LoginActions(i, p, d, hash), max);
            var sent := Run(login, SendActions(i, HonestSend(p, d, cid, code)), max);
            var t := Run(sent, EnrollActions(i, Attempt(p, d, cid, code), hash), max);
            t.trusted == s.trusted + {Trusted(s.accounts[p].user, d)} && t.accounts == s.accounts && p !in t.keys.enr
  {
    var c := HonestSend(p, d, cid, code);
    var login := Run(s, LoginActions(i, p, d, hash), max);
    LoginIssues(s, i, p, d, hash, max);
    var sent := Run(login, SendActions(i, c), max);
    UndisturbedSend(login, i, c, max);
    OnlyTheSentCodeVerifies(login.keys, c, max, d, code);
    SendKeepsRest(login, i, c, max);
    CodeEnrolls(sent, i, Attempt(p, d, cid, code), hash, max);
  }

  function LoginActions(i: ReqId, p: Phone, d: Device, hash: Hash): seq<Action> {
    [LoginWithPin(i, p, d), Step(i, Answered, hash, 0)]
  }

  function EnrollActions(i: ReqId, a: Attempt, hash: Hash): seq<Action> {
    [BeginVerify(i, a, Some(hash)), Step(i, Answered, 0, 0), Step(i, Answered, 0, 0), Step(i, Answered, 0, 0),
     Step(i, Answered, 0, 0)]
  }

  lemma LoginIssues(s: State, i: ReqId, p: Phone, d: Device, hash: Hash, max: nat)
    requires i !in s.flights && p in s.accounts && s.accounts[p].active && Trusted(s.accounts[p].user, d) !in s.trusted
    ensures var t := Run(s, LoginActions(i, p, d, hash), max);
            && i !in t.flights && t.accounts == s.accounts && t.trusted == s.trusted && t.minted == s.minted
            && p in t.enrOrigin
            && t.keys == s.keys.(enr := s.keys.enr[p := EnrProof(hash, s.accounts[p].user, p, d)])
  {
    RunFrom(s, LoginActions(i, p, d, hash), max);
    RunFrom(Next(s, LoginWithPin(i, p, d), max), LoginActions(i, p, d, hash)[1..], max);
  }

  lemma CodeEnrolls(s: State, i: ReqId, a: Attempt, hash: Hash, max: nat)
    requires i !in s.flights && a.phone in s.accounts && s.accounts[a.phone].active && a.phone in s.enrOrigin
    requires ScriptStatus(s.keys, a, max) == Verified
    requires EnrStatus(s.keys, s.accounts[a.phone].user, a.phone, a.device, hash) == Consumed
    ensures var t := Run(s, EnrollActions(i, a, hash), max);
            t.trusted == s.trusted + {Trusted(s.accounts[a.phone].user, a.device)} && t.accounts == s.accounts
            && a.phone !in t.keys.enr
  {
    var u := s.accounts[a.phone].user;
    var actions := EnrollActions(i, a, hash);
    RunFrom(s, actions, max);
    RunFour(Next(s, actions[0], max), actions[1..], max);
    var t1 := Next(s, BeginVerify(i, a, Some(hash)), max);
    var t2 := Next(t1, Step(i, Answered, 0, 0), max);
    assert t2.flights[i] == Verify(a, Some(hash), FindUser(|s.history|)) && SameRest(s, t2)
        && t2.keys.enr == s.keys.enr;
    var t3 := Next(t2, Step(i, Answered, 0, 0), max);
    assert t3.flights[i] == Verify(a, Some(hash), ConsumeEnr(|s.history|, u)) && SameRest(s, t3)
        && t3.keys.enr == s.keys.enr;
    var t4 := Next(t3, Step(i, Answered, 0, 0), max);
    assert t4.flights[i] == Verify(a, Some(hash), UpsertDevice(|t3.history|, u)) && t4.trusted == s.trusted;
  }

  // The tables and proof origins, which a send does not touch.
  predicate SameRest(s: State, t: State) {
    t.accounts == s.accounts && t.trusted == s.trusted && t.regOrigin == s.regOrigin && t.enrOrigin == s.enrOrigin
  }

  lemma SendKeepsRest(s: State, i: ReqId, c: SendCall, max: nat)
    requires i !in s.flights
    ensures SameRest(s, Run(s, SendActions(i, c), max))
  {
    SendActionsRun(s, i, c, max);
    StepOfSendKeepsRest(Next(s, BeginSend(i, c.phone, c.device), max), i, max);
    StepOfSendKeepsRest(Next(Next(s, BeginSend(i, c.phone, c.device), max), Step(i, c.readFailures, 0, 0), max), i,
        max);
    StepOfSendKeepsRest(BeforeChallenge(s, i, c, max), i, max);
    var t := UpToChallenge(s, i, c, max);
    StepOfSendKeepsRest(t, i, max);
    StepOfSendKeepsRest(Next(t, Step(i, c.storeActive, 0, 0), max), i, max);
    StepOfSendKeepsRest(Next(Next(t, Step(i, c.storeActive, 0, 0), max), Step(i, c.undoChallenge, 0, 0), max), i, max);
  }

  lemma StepOfSendKeepsRest(s: State, i: ReqId, max: nat)
    requires i in s.flights ==> s.flights[i].Send?
    ensures forall ack, value: nat, code: Code {:trigger Step(i, ack, value, code)} ::
              var t := Next(s, Step(i, ack, value, code), max);
              SameRest(s, t) && (i in t.flights ==> t.flights[i].Send?)
  {}

  // ---------------------------------------------------------------- what histories look like

  /** The challenge most recently activated for a phone and not yet verified. */
  function Latest(h: History, p: Phone): Option<Cid> {
    if h == [] then None
    else match h[|h| - 1]
         case Activated(q, c) => if q == p then Some(c) else Latest(h[..|h| - 1], p)
         case CodeVerified(q, _, _) => if q == p then None else Latest(h[..|h| - 1], p)
         case _ => Latest(h[..|h| - 1], p)
  }

  /** Codes compared and rejected for a phone since its counter was last reset. */
  function Rejections(h: History, p: Phone): nat {
    if h == [] then 0
    else match h[|h| - 1]
         case Rejected(q, _) => Rejections(h[..|h| - 1], p) + if q == p then 1 else 0
         case CodeVerified(q, _, _) => if q == p then 0 else Rejections(h[..|h| - 1], p)
         case CounterExpired(q) => if q == p then 0 else Rejections(h[..|h| - 1], p)
         case _ => Rejections(h[..|h| - 1], p)
  }

  /** The earlier events an event rests on. */
  function Causes(e: Event): set<nat> {
    match e
    case RegIssued(_, _, _, v) => {v}
    case RegConsumed(_, _, _, c) => {c}
    case AccountCreated(_, _, _, c) => {c}
    case EnrIssued(_, _, _, _, l) => {l}
    case EnrConsumed(_, _, _, _, c, v) => {c, v}
    case Enrolled(_, _, c) => {c}
    case _ => {}
  }

  predicate VerifiedFor(h: History, v: nat, p: Phone, d: Device) {
    v < |h| && h[v].CodeVerified? && h[v].phone == p && h[v].device == d
  }

  predicate RegIssuedFor(h: History, c: nat, p: Phone, d: Device, hash: Hash) {
    c < |h| && h[c].RegIssued? && h[c].phone == p && h[c].device == d && h[c].hash == hash
  }

  predicate RegConsumedFor(h: History, c: nat, p: Phone, d: Device) {
    c < |h| && h[c].RegConsumed? && h[c].phone == p && h[c].device == d
  }

  predicate PinLoginFor(h: History, l: nat, u: User, p: Phone, d: Device) {
    l < |h| && h[l] == PinLogin(u, p, d)
  }

  predicate EnrIssuedFor(h: History, c: nat, u: User, p: Phone, d: Device, hash: Hash) {
    && c < |h| && h[c].EnrIssued? && h[c].user == u && h[c].phone == p && h[c].device == d
    && h[c].hash == hash
  }

  predicate EnrConsumedFor(h: History, c: nat, u: User, d: Device) {
    c < |h| && h[c].EnrConsumed? && h[c].user == u && h[c].device == d
  }

  /** What holds whenever an event is recorded after the history `h`. */
  ghost predicate Justified(h: History, e: Event, max: nat) {
    match e
    case CodeVerified(p, c, _) => Latest(h, p) == Some(c) && Rejections(h, p) < max
    case Rejected(p, c) => Latest(h, p) == Some(c) && Rejections(h, p) < max
    case Activated(p, c) => forall k :: 0 <= k < |h| && h[k].Activated? ==> h[k].cid != c
    case RegIssued(p, d, _, v) => VerifiedFor(h, v, p, d)
    case RegConsumed(p, d, hash, c) => RegIssuedFor(h, c, p, d, hash)
    case AccountCreated(p, _, d, c) => RegConsumedFor(h, c, p, d)
    case EnrIssued(u, p, d, _, l) => PinLoginFor(h, l, u, p, d)
    case EnrConsumed(u, p, d, hash, c, v) => EnrIssuedFor(h, c, u, p, d, hash) && VerifiedFor(h, v, p, d)
    case Enrolled(u, d, c) => EnrConsumedFor(h, c, u, d)
    case _ => true
  }

  ghost predicate Used(h: History, n: nat) {
    exists k :: 0 <= k < |h| && n in Causes(h[k])
  }

  /** Every event was justified when it was recorded, and no event justifies two others. */
  ghost predicate Sound(h: History, max: nat) {
    && (forall k :: 0 <= k < |h| ==> Justified(h[..k], h[k], max))
    && (forall j, k :: 0 <= j < k < |h| ==> Causes(h[j]) !! Causes(h[k]))
  }

  lemma SoundAppends(h: History, e: Event, max: nat)
    requires Sound(h, max) && Justified(h, e, max) && forall n :: n in Causes(e) ==> !Used(h, n)
    ensures Sound(h + [e], max)
  {
    var g := h + [e];
    forall k | 0 <= k < |g| ensures Justified(g[..k], g[k], max) {
      assert g[..k] == h[..k];
      assert k == |h| ==> g[..k] == h;
    }
    forall j, k | 0 <= j < k < |g| ensures Causes(g[j]) !! Causes(g[k]) {
      if k == |h| {
        forall n | n in Causes(h[j]) ensures n !in Causes(e) { assert Used(h, n); }
      }
    }
  }

  // ---------------------------------------------------------------- who may still use which event

  /** Holders of an event that has not justified anything yet. */
  datatype Owner = OfFlight(id: ReqId) | OfReg(phone: Phone) | OfEnr(phone: Phone)

  function FlightClaim(f: Flight): Option<nat> {
    match f
    case Send(_, _, _) => None
    case Verify(_, _, pc) =>
      (match pc
       case RunScript => None
       case FindUser(v) => Some(v)
       case IssueReg(v) => Some(v)
       case ConsumeEnr(v, _) => Some(v)
       case UpsertDevice(c, _) => Some(c))
    case IssueEnr(_, _, _, login) => Some(login)
    case Registering(_, _, _, pc) =>
      (match pc
       case ConsumeReg => None
       case CheckPhone(c) => Some(c)
       case CreateAccount(c) => Some(c))
  }

  function Claim(s: State, o: Owner): Option<nat> {
    match o
    case OfFlight(i) => if i in s.flights then FlightClaim(s.flights[i]) else None
    case OfReg(p) => if p in s.regOrigin then Some(s.regOrigin[p]) else None
    case OfEnr(p) => if p in s.enrOrigin then Some(s.enrOrigin[p]) else None
  }

  predicate FlightClaimOk(h: History, f: Flight) {
    match f
    case Send(_, _, _) => true
    case Verify(a, _, pc) =>
      (match pc
       case RunScript => true
       case FindUser(v) => VerifiedFor(h, v, a.phone, a.device)
       case IssueReg(v) => VerifiedFor(h, v, a.phone, a.device)
       case ConsumeEnr(v, _) => VerifiedFor(h, v, a.phone, a.device)
       case UpsertDevice(c, u) => EnrConsumedFor(h, c, u, a.device))
    case IssueEnr(u, p, d, login) => PinLoginFor(h, login, u, p, d)
    case Registering(p, d, _, pc) =>
      (match pc
       case ConsumeReg => true
       case CheckPhone(c) => RegConsumedFor(h, c, p, d)
       case CreateAccount(c) => RegConsumedFor(h, c, p, d))
  }

  predicate RegProofOk(s: State, p: Phone)
    requires p in s.regOrigin
  {
    && p in s.keys.reg && s.keys.reg[p].phone == p
    && RegIssuedFor(s.history, s.regOrigin[p], p, s.keys.reg[p].device, s.keys.reg[p].hash)
  }

  predicate EnrProofOk(s: State, p: Phone)
    requires p in s.enrOrigin
  {
    && p in s.keys.enr && s.keys.enr[p].phone == p
    && EnrIssuedFor(s.history, s.enrOrigin[p], s.keys.enr[p].user, p, s.keys.enr[p].device, s.keys.enr[p].hash)
  }

  ghost predicate ClaimOk(s: State, o: Owner) {
    match o
    case OfFlight(i) => i in s.flights ==> FlightClaimOk(s.history, s.flights[i])
    case OfReg(p) => p in s.regOrigin ==> RegProofOk(s, p)
    case OfEnr(p) => p in s.enrOrigin ==> EnrProofOk(s, p)
  }

  ghost predicate OwnersOk(s: State) {
    && (forall o :: Claim(s, o).Some? ==>
          Claim(s, o).value < |s.history| && !Used(s.history, Claim(s, o).value) && ClaimOk(s, o))
    && (forall o, o' :: Claim(s, o).Some? && Claim(s, o').Some? && o != o' ==> Claim(s, o).value != Claim(s, o').value)
  }

  ghost predicate Grew(s: State, s': State) {
    |s'.history| == |s.history| + 1 && s'.history[..|s.history|] == s.history
  }

  lemma CausesAreEarlier(h: History, e: Event, max: nat)
    requires Justified(h, e, max)
    ensures forall n :: n in Causes(e) ==> n < |h|
  {}

  lemma UsedAfter(s: State, s': State, n: nat)
    requires Grew(s, s')
    ensures Used(s'.history, n) <==> Used(s.history, n) || n in Causes(s'.history[|s.history|])
  {
    if Used(s.history, n) {
      var k :| 0 <= k < |s.history| && n in Causes(s.history[k]);
      assert s'.history[k] == s.history[k];
    }
    if Used(s'.history, n) {
      var k :| 0 <= k < |s'.history| && n in Causes(s'.history[k]);
      assert k < |s.history| ==> s'.history[k] == s.history[k];
    }
  }

  lemma NewestIsUnused(s: State, s': State, max: nat)
    requires Grew(s, s') && Sound(s'.history, max)
    ensures !Used(s'.history, |s.history|)
  {
    var h := s'.history;
    forall k | 0 <= k < |h| ensures |s.history| !in Causes(h[k]) {
      CausesAreEarlier(h[..k], h[k], max);
    }
  }

  /** Claims are kept, given up, or newly laid on the event just recorded. */
  ghost predicate KeptClaim(s: State, s': State, newOwner: Option<Owner>, o: Owner) {
    Claim(s', o).Some? ==>
      && ClaimOk(s', o)
      && (if newOwner == Some(o) then Grew(s, s') && Claim(s', o) == Some(|s.history|)
          else Claim(s', o) == Claim(s, o) && (Grew(s, s') ==> Claim(s, o).value !in Causes(s'.history[|s.history|])))
  }

  lemma OwnersCarry(s: State, s': State, newOwner: Option<Owner>, max: nat)
    requires OwnersOk(s) && Sound(s'.history, max)
    requires s'.history == s.history || Grew(s, s')
    requires forall o :: KeptClaim(s, s', newOwner, o)
    ensures OwnersOk(s')
  {
    if Grew(s, s') {
      NewestIsUnused(s, s', max);
      forall n ensures Used(s'.history, n) <==> Used(s.history, n) || n in Causes(s'.history[|s.history|]) {
        UsedAfter(s, s', n);
      }
    }
    forall o | Claim(s', o).Some?
      ensures Claim(s', o).value < |s'.history| && !Used(s'.history, Claim(s', o).value) && ClaimOk(s', o)
    {
      assert KeptClaim(s, s', newOwner, o);
    }
    forall o, o' | Claim(s', o).Some? && Claim(s', o').Some? && o != o'
        ensures Claim(s', o).value != Claim(s', o').value
    {
      assert KeptClaim(s, s', newOwner, o) && KeptClaim(s, s', newOwner, o');
    }
  }

  // ---------------------------------------------------------------- the rest of the invariant

  ghost predicate ActiveOk(s: State) {
    forall p :: p in s.keys.active ==> Latest(s.history, p) == Some(s.keys.active[p])
  }

  ghost predicate FailuresOk(s: State, max: nat) {
    forall p :: Failures(s.keys, p) == Rejections(s.history, p) && Rejections(s.history, p) <= max
  }

  predicate NotActivated(h: History, c: Cid) {
    forall k :: 0 <= k < |h| && h[k].Activated? ==> h[k].cid != c
  }

  // The challenge a send is about to activate.
  function ToActivate(f: Flight): Option<Cid> {
    if f.Send? && f.spc.StoreActive? then Some(f.spc.cid) else None
  }

  ghost predicate ActivationsOk(s: State) {
    && (forall k :: 0 <= k < |s.history| && s.history[k].Activated? ==> s.history[k].cid in s.minted)
    && (forall i :: i in s.flights && ToActivate(s.flights[i]).Some? ==>
          ToActivate(s.flights[i]).value in s.minted && NotActivated(s.history, ToActivate(s.flights[i]).value))
    && (forall i, j :: i in s.flights && j in s.flights && i != j && ToActivate(s.flights[i]).Some? ==>
          ToActivate(s.flights[i]) != ToActivate(s.flights[j]))
  }

  ghost predicate AccountRecorded(h: History, p: Phone, u: User) {
    exists k :: 0 <= k < |h| && h[k].AccountCreated? && h[k].phone == p && h[k].user == u
  }

  ghost predicate DeviceRecorded(h: History, t: Trusted) {
    exists k :: 0 <= k < |h| && (h[k].AccountCreated? || h[k].Enrolled?) && h[k].user == t.user
        && h[k].device == t.device
  }

  ghost predicate OriginsOk(s: State, s0: State) {
    && (forall p :: p in s.accounts ==>
          (p in s0.accounts && s0.accounts[p].user == s.accounts[p].user)
              || AccountRecorded(s.history, p, s.accounts[p].user))
    && (forall t :: t in s.trusted ==> t in s0.trusted || DeviceRecorded(s.history, t))
  }

  ghost predicate Inv(s: State, s0: State, max: nat) {
    && Sound(s.history, max)
    && OwnersOk(s)
    && ActiveOk(s) && FailuresOk(s, max) && ActivationsOk(s)
    && OriginsOk(s, s0)
  }

  lemma HistoryGrows(h: History, e: Event, p: Phone)
    ensures (h + [e])[..|h|] == h
    ensures Latest(h + [e], p) == match e
                                  case Activated(q, c) => if q == p then Some(c) else Latest(h, p)
                                  case CodeVerified(q, _, _) => if q == p then None else Latest(h, p)
                                  case _ => Latest(h, p)
    ensures Rejections(h + [e], p) == match e
                                      case Rejected(q, _) => Rejections(h, p) + (if q == p then 1 else 0)
                                      case CodeVerified(q, _, _) => if q == p then 0 else Rejections(h, p)
                                      case CounterExpired(q) => if q == p then 0 else Rejections(h, p)
                                      case _ => Rejections(h, p)
  {
    assert (h + [e])[..|h|] == h;
  }

  lemma RecordsStay(h: History, e: Event)
    ensures forall p, u :: AccountRecorded(h, p, u) ==> AccountRecorded(h + [e], p, u)
    ensures forall t :: DeviceRecorded(h, t) ==> DeviceRecorded(h + [e], t)
  {
    forall p, u | AccountRecorded(h, p, u) ensures AccountRecorded(h + [e], p, u) {
      var k :| 0 <= k < |h| && h[k].AccountCreated? && h[k].phone == p && h[k].user == u;
      assert (h + [e])[k] == h[k];
    }
    forall t | DeviceRecorded(h, t) ensures DeviceRecorded(h + [e], t) {
      var k :| 0 <= k < |h| && (h[k].AccountCreated? || h[k].Enrolled?) && h[k].user == t.user
          && h[k].device == t.device;
      assert (h + [e])[k] == h[k];
    }
  }

  // ---------------------------------------------------------------- changes without an event

  ghost predicate QuietTables(s: State, s': State) {
    && s'.history == s.history && s'.accounts.Keys == s.accounts.Keys && s'.trusted <= s.trusted
    && s.minted <= s'.minted
    && (forall p :: p in s.accounts ==> s'.accounts[p].user == s.accounts[p].user)
  }

  ghost predicate QuietCodes(s: State, s': State) {
    && s'.keys.failures == s.keys.failures
    && (forall p :: p in s'.keys.active ==> p in s.keys.active && s'.keys.active[p] == s.keys.active[p])
  }

  ghost predicate QuietProofs(s: State, s': State) {
    && (forall p :: p in s'.regOrigin ==> p in s.regOrigin && s'.regOrigin[p] == s.regOrigin[p]
                                          && (p in s.keys.reg ==> p in s'.keys.reg && s'.keys.reg[p] == s.keys.reg[p]))
    && (forall p :: p in s'.enrOrigin ==> p in s.enrOrigin && s'.enrOrigin[p] == s.enrOrigin[p]
                                          && (p in s.keys.enr ==> p in s'.keys.enr && s'.keys.enr[p] == s.keys.enr[p]))
  }

  predicate QuietFlight(s: State, s': State, i: ReqId)
    requires i in s'.flights
  {
    var f := s'.flights[i];
    || (i in s.flights && f == s.flights[i])
    || (&& (FlightClaim(f) == None || Claim(s, OfFlight(i)) == FlightClaim(f))
        && FlightClaimOk(s.history, f)
        && (ToActivate(f).Some? ==> ToActivate(f).value in s'.minted - s.minted && s'.flights == s.flights[i := f]))
  }

  /** Nothing recorded, nothing counted, no key or claim added; a request may move on with the claim it has. */
  ghost predicate Quiet(s: State, s': State) {
    && QuietTables(s, s') && QuietCodes(s, s') && QuietProofs(s, s')
    && (forall i :: i in s'.flights ==> QuietFlight(s, s', i))
  }

  lemma QuietKeepsInv(s: State, s': State, s0: State, max: nat)
    requires Inv(s, s0, max) && Quiet(s, s')
    ensures Inv(s', s0, max)
  {
    forall o ensures KeptClaim(s, s', None, o) {
      assert Claim(s, o).Some? ==> ClaimOk(s, o);
    }
    OwnersCarry(s, s', None, max);
    forall i | i in s'.flights && ToActivate(s'.flights[i]).Some?
      ensures ToActivate(s'.flights[i]).value in s'.minted && NotActivated(s'.history, ToActivate(s'.flights[i]).value)
    {}
  }

  // ---------------------------------------------------------------- changes that record an event

  predicate CodeEvent(e: Event) {
    e.Activated? || e.Rejected? || e.CodeVerified? || e.CounterExpired?
  }

  /** An event about proofs, accounts or devices. */
  lemma ProofEventKeepsInv(s: State, s': State, s0: State, e: Event, newOwner: Option<Owner>, max: nat)
    requires Inv(s, s0, max) && s'.history == s.history + [e] && !CodeEvent(e)
    requires Justified(s.history, e, max) && forall n :: n in Causes(e) ==> !Used(s.history, n)
    requires forall o :: KeptClaim(s, s', newOwner, o)
    requires s'.keys.active == s.keys.active && s'.keys.failures == s.keys.failures && s'.minted == s.minted
    requires forall i :: i in s'.flights ==>
               ToActivate(s'.flights[i]) == None || (i in s.flights && s'.flights[i] == s.flights[i])
    requires OriginsOk(s', s0)
    ensures Inv(s', s0, max)
  {
    SoundAppends(s.history, e, max);
    HistoryGrows(s.history, e, 0);
    OwnersCarry(s, s', newOwner, max);
    forall p
      ensures Latest(s'.history, p) == Latest(s.history, p) && Rejections(s'.history, p) == Rejections(s.history, p)
    {
      HistoryGrows(s.history, e, p);
    }
    CodesStandStill(s, s', e);
  }

  lemma CodesStandStill(s: State, s': State, e: Event)
    requires ActivationsOk(s) && s'.history == s.history + [e] && !e.Activated? && s.minted <= s'.minted
    requires forall i :: i in s'.flights ==>
               ToActivate(s'.flights[i]) == None || (i in s.flights && s'.flights[i] == s.flights[i])
    ensures ActivationsOk(s')
  {
    forall i | i in s'.flights && ToActivate(s'.flights[i]).Some?
      ensures ToActivate(s'.flights[i]).value in s'.minted && NotActivated(s'.history, ToActivate(s'.flights[i]).value)
    {}
  }

  lemma OriginsStay(s: State, s': State, s0: State, e: Event)
    requires OriginsOk(s, s0) && s'.history == s.history + [e]
    requires s'.accounts == s.accounts && s'.trusted == s.trusted
    ensures OriginsOk(s', s0)
  {
    RecordsStay(s.history, e);
  }

  // A claim that is not the one given up, and whose holder is untouched, is kept.
  lemma ClaimUntouched(s: State, s': State, newOwner: Option<Owner>, o: Owner, e: Event)
    requires OwnersOk(s) && s'.history == s.history + [e] && newOwner != Some(o)
    requires Claim(s', o).Some? ==> Claim(s', o) == Claim(s, o) && Claim(s, o).value !in Causes(e)
    requires match o
             case OfFlight(i) => i in s'.flights ==> i in s.flights && s'.flights[i] == s.flights[i]
             case OfReg(p) => p in s'.regOrigin && p in s.regOrigin && p in s.keys.reg ==>
                                p in s'.keys.reg && s'.keys.reg[p] == s.keys.reg[p]
             case OfEnr(p) => p in s'.enrOrigin && p in s.enrOrigin && p in s.keys.enr ==>
                                p in s'.keys.enr && s'.keys.enr[p] == s.keys.enr[p]
    ensures KeptClaim(s, s', newOwner, o)
  {
    assert s'.history[..|s.history|] == s.history;
    if Claim(s', o).Some? {
      assert ClaimOk(s, o);
    }
  }

  lemma PinLoginKeepsInv(s: State, s0: State, i: ReqId, p: Phone, d: Device, max: nat)
    requires Inv(s, s0, max) && i !in s.flights && p in s.accounts
    ensures var u := s.accounts[p].user;
            Inv(Put(Note(s, PinLogin(u, p, d)), i, IssueEnr(u, p, d, |s.history|)), s0, max)
  {
    var u := s.accounts[p].user;
    var e := PinLogin(u, p, d);
    var s' := Put(Note(s, e), i, IssueEnr(u, p, d, |s.history|));
    forall o ensures KeptClaim(s, s', Some(OfFlight(i)), o) {
      if o != OfFlight(i) { ClaimUntouched(s, s', Some(OfFlight(i)), o, e); }
    }
    OriginsStay(s, s', s0, e);
    ProofEventKeepsInv(s, s', s0, e, Some(OfFlight(i)), max);
  }

  lemma StoreRegKeepsInv(s: State, s0: State, i: ReqId, a: Attempt, proof: Option<Hash>, v: nat, hash: Hash, max: nat)
    requires Inv(s, s0, max) && i in s.flights && s.flights[i] == Verify(a, proof, IssueReg(v))
    ensures Inv(End(StoreReg(s, a.phone, a.device, hash, v), i), s0, max)
  {
    var e := RegIssued(a.phone, a.device, hash, v);
    var s' := End(StoreReg(s, a.phone, a.device, hash, v), i);
    var owner := OfReg(a.phone);
    assert Claim(s, OfFlight(i)) == Some(v) && ClaimOk(s, OfFlight(i));
    forall o ensures KeptClaim(s, s', Some(owner), o) {
      if o != owner { ClaimUntouched(s, s', Some(owner), o, e); }
    }
    OriginsStay(s, s', s0, e);
    ProofEventKeepsInv(s, s', s0, e, Some(owner), max);
  }

  lemma StoreEnrKeepsInv(s: State, s0: State, i: ReqId, u: User, p: Phone, d: Device, login: nat, hash: Hash, max: nat)
    requires Inv(s, s0, max) && i in s.flights && s.flights[i] == IssueEnr(u, p, d, login)
    ensures Inv(End(StoreEnr(s, u, p, d, hash, login), i), s0, max)
  {
    var e := EnrIssued(u, p, d, hash, login);
    var s' := End(StoreEnr(s, u, p, d, hash, login), i);
    var owner := OfEnr(p);
    assert Claim(s, OfFlight(i)) == Some(login) && ClaimOk(s, OfFlight(i));
    forall o ensures KeptClaim(s, s', Some(owner), o) {
      if o != owner { ClaimUntouched(s, s', Some(owner), o, e); }
    }
    OriginsStay(s, s', s0, e);
    ProofEventKeepsInv(s, s', s0, e, Some(owner), max);
  }

  lemma TakeRegKeepsInv(s: State, s0: State, i: ReqId, p: Phone, d: Device, hash: Hash, max: nat)
    requires Inv(s, s0, max) && i in s.flights && s.flights[i] == Registering(p, d, hash, ConsumeReg)
    requires p in s.regOrigin && RegStatus(s.keys, p, d, hash) == Consumed
    ensures var t := TakeReg(s, p, d, hash, s.regOrigin[p]);
            Inv(Put(t, i, Registering(p, d, hash, CheckPhone(|s.history|))), s0, max)
  {
    var e := RegConsumed(p, d, hash, s.regOrigin[p]);
    var t := TakeReg(s, p, d, hash, s.regOrigin[p]);
    assert Claim(s, OfReg(p)) == Some(s.regOrigin[p]) && ClaimOk(s, OfReg(p));
    var s' := Put(t, i, Registering(p, d, hash, CheckPhone(|s.history|)));
    forall o ensures KeptClaim(s, s', Some(OfFlight(i)), o) {
      if o != OfFlight(i) { ClaimUntouched(s, s', Some(OfFlight(i)), o, e); }
    }
    OriginsStay(s, s', s0, e);
    ProofEventKeepsInv(s, s', s0, e, Some(OfFlight(i)), max);
  }

  lemma TakeEnrKeepsClaims(s: State, i: ReqId, a: Attempt, hash: Hash, v: nat, u: User)
    requires OwnersOk(s) && i in s.flights && s.flights[i] == Verify(a, Some(hash), ConsumeEnr(v, u))
    requires a.phone in s.enrOrigin
    ensures var t := TakeEnr(s, u, a.phone, a.device, hash, s.enrOrigin[a.phone], v);
            var s' := Put(t, i, Verify(a, Some(hash), UpsertDevice(|s.history|, u)));
            forall o :: KeptClaim(s, s', Some(OfFlight(i)), o)
  {
    var e := EnrConsumed(u, a.phone, a.device, hash, s.enrOrigin[a.phone], v);
    var t := TakeEnr(s, u, a.phone, a.device, hash, s.enrOrigin[a.phone], v);
    var s' := Put(t, i, Verify(a, Some(hash), UpsertDevice(|s.history|, u)));
    assert Claim(s, OfEnr(a.phone)) == Some(s.enrOrigin[a.phone]) && Claim(s, OfFlight(i)) == Some(v);
    forall o ensures KeptClaim(s, s', Some(OfFlight(i)), o) {
      if o != OfFlight(i) { ClaimUntouched(s, s', Some(OfFlight(i)), o, e); }
    }
  }

  lemma TakeEnrKeepsInv(s: State, s0: State, i: ReqId, a: Attempt, hash: Hash, v: nat, u: User, max: nat)
    requires Inv(s, s0, max) && i in s.flights && s.flights[i] == Verify(a, Some(hash), ConsumeEnr(v, u))
    requires a.phone in s.enrOrigin && EnrStatus(s.keys, u, a.phone, a.device, hash) == Consumed
    ensures var t := TakeEnr(s, u, a.phone, a.device, hash, s.enrOrigin[a.phone], v);
            Inv(Put(t, i, Verify(a, Some(hash), UpsertDevice(|s.history|, u))), s0, max)
  {
    var origin := s.enrOrigin[a.phone];
    var e := EnrConsumed(u, a.phone, a.device, hash, origin, v);
    var t := TakeEnr(s, u, a.phone, a.device, hash, origin, v);
    assert Claim(s, OfEnr(a.phone)) == Some(origin) && ClaimOk(s, OfEnr(a.phone));
    assert Claim(s, OfFlight(i)) == Some(v) && ClaimOk(s, OfFlight(i));
    var s' := Put(t, i, Verify(a, Some(hash), UpsertDevice(|s.history|, u)));
    TakeEnrKeepsClaims(s, i, a, hash, v, u);
    OriginsStay(s, s', s0, e);
    ProofEventKeepsInv(s, s', s0, e, Some(OfFlight(i)), max);
  }

  lemma UpsertKeepsInv(s: State, s0: State, i: ReqId, a: Attempt, proof: Option<Hash>, c: nat, u: User, max: nat)
    requires Inv(s, s0, max) && i in s.flights && s.flights[i] == Verify(a, proof, UpsertDevice(c, u))
    ensures Inv(End(Note(s.(trusted := s.trusted + {Trusted(u, a.device)}), Enrolled(u, a.device, c)), i), s0, max)
  {
    var e := Enrolled(u, a.device, c);
    var s' := End(Note(s.(trusted := s.trusted + {Trusted(u, a.device)}), e), i);
    assert Claim(s, OfFlight(i)) == Some(c) && ClaimOk(s, OfFlight(i));
    forall o ensures KeptClaim(s, s', None, o) { ClaimUntouched(s, s', None, o, e); }
    RecordsStay(s.history, e);
    assert DeviceRecorded(s'.history, Trusted(u, a.device)) by { assert s'.history[|s.history|] == e; }
    ProofEventKeepsInv(s, s', s0, e, None, max);
  }

  lemma CreateKeepsInv(s: State, s0: State, i: ReqId, p: Phone, d: Device, hash: Hash, c: nat, u: User, max: nat)
    requires Inv(s, s0, max) && i in s.flights && s.flights[i] == Registering(p, d, hash, CreateAccount(c))
    requires p !in s.accounts
    ensures Inv(End(Note(s.(accounts := s.accounts[p := Account(u, true)], trusted := s.trusted + {Trusted(u, d)}),
                         AccountCreated(p, u, d, c)), i), s0, max)
  {
    var e := AccountCreated(p, u, d, c);
    var s' := End(Note(s.(accounts := s.accounts[p := Account(u, true)], trusted := s.trusted + {Trusted(u, d)}), e),
        i);
    assert Claim(s, OfFlight(i)) == Some(c) && ClaimOk(s, OfFlight(i));
    forall o ensures KeptClaim(s, s', None, o) { ClaimUntouched(s, s', None, o, e); }
    RecordsStay(s.history, e);
    assert s'.history[|s.history|] == e;
    assert AccountRecorded(s'.history, p, u) && DeviceRecorded(s'.history, Trusted(u, d));
    ProofEventKeepsInv(s, s', s0, e, None, max);
  }

  // ---------------------------------------------------------------- events about codes

  lemma ActivateKeepsInv(s: State, s0: State, i: ReqId, p: Phone, d: Device, cid: Cid, max: nat)
    requires Inv(s, s0, max) && i in s.flights && s.flights[i] == Send(p, d, StoreActive(cid))
    ensures var t := Note(s.(keys := s.keys.(active := s.keys.active[p := cid])), Activated(p, cid));
            Inv(Put(t, i, Send(p, d, UndoChallenge(cid))), s0, max)
  {
    var e := Activated(p, cid);
    var s' := Put(Note(s.(keys := s.keys.(active := s.keys.active[p := cid])), e), i, Send(p, d, UndoChallenge(cid)));
    assert ToActivate(s.flights[i]) == Some(cid);
    SoundAppends(s.history, e, max);
    OriginsStay(s, s', s0, e);
    ActivationKeepsCodes(s, s', p, cid, max);
    forall o ensures KeptClaim(s, s', None, o) {
      if o != OfFlight(i) { ClaimUntouched(s, s', None, o, e); }
    }
    assert Grew(s, s') by { HistoryGrows(s.history, e, 0); }
    OwnersCarry(s, s', None, max);
    ActivationIsNew(s, s', i, p, cid);
  }

  lemma ActivationKeepsCodes(s: State, s': State, p: Phone, cid: Cid, max: nat)
    requires ActiveOk(s) && FailuresOk(s, max) && s'.history == s.history + [Activated(p, cid)]
    requires s'.keys == s.keys.(active := s.keys.active[p := cid])
    ensures ActiveOk(s') && FailuresOk(s', max)
  {
    forall q
      ensures Latest(s'.history, q) == if q == p then Some(cid) else Latest(s.history, q)
      ensures Rejections(s'.history, q) == Rejections(s.history, q)
    {
      HistoryGrows(s.history, Activated(p, cid), q);
    }
    forall q ensures Failures(s'.keys, q) == Rejections(s'.history, q) <= max {
      assert Failures(s'.keys, q) == Failures(s.keys, q);
    }
  }

  lemma ActivationIsNew(s: State, s': State, i: ReqId, p: Phone, cid: Cid)
    requires ActivationsOk(s) && i in s.flights && ToActivate(s.flights[i]) == Some(cid)
    requires s'.history == s.history + [Activated(p, cid)] && s'.minted == s.minted
    requires forall j :: j in s'.flights ==>
               j in s.flights && (if j == i then ToActivate(s'.flights[j]) == None else s'.flights[j] == s.flights[j])
    ensures ActivationsOk(s')
  {
    forall j | j in s'.flights && ToActivate(s'.flights[j]).Some?
      ensures NotActivated(s'.history, ToActivate(s'.flights[j]).value)
    {
      assert NotActivated(s.history, ToActivate(s.flights[j]).value) && ToActivate(s.flights[j]) != Some(cid);
    }
  }

  lemma CounterExpiryKeepsInv(s: State, s0: State, p: Phone, max: nat)
    requires Inv(s, s0, max)
    ensures Inv(Note(s.(keys := s.keys.(failures := s.keys.failures - {p})), CounterExpired(p)), s0, max)
  {
    var e := CounterExpired(p);
    var s' := Note(s.(keys := s.keys.(failures := s.keys.failures - {p})), e);
    SoundAppends(s.history, e, max);
    RecordsStay(s.history, e);
    forall q
      ensures Latest(s'.history, q) == Latest(s.history, q)
      ensures Rejections(s'.history, q) == if q == p then 0 else Rejections(s.history, q)
    {
      HistoryGrows(s.history, e, q);
    }
    forall o ensures KeptClaim(s, s', None, o) { ClaimUntouched(s, s', None, o, e); }
    assert Grew(s, s') by { HistoryGrows(s.history, e, 0); }
    OwnersCarry(s, s', None, max);
    CodesStandStill(s, s', e);
    forall q ensures Failures(s'.keys, q) == Rejections(s'.history, q) {
      assert Failures(s.keys, q) == Rejections(s.history, q);
    }
  }

  lemma RejectionKeepsInv(s: State, s0: State, i: ReqId, a: Attempt, max: nat)
    requires Inv(s, s0, max) && Compared(s.keys, a, max) && !CodeMatches(s.keys, a)
    ensures Inv(End(ScriptEvent(s, a, max), i), s0, max)
  {
    var e := Rejected(a.phone, a.cid);
    var s' := End(ScriptEvent(s, a, max), i);
    assert Failures(s.keys, a.phone) == Rejections(s.history, a.phone);
    SoundAppends(s.history, e, max);
    RecordsStay(s.history, e);
    forall q ensures Latest(s'.history, q) == Latest(s.history, q) {
      HistoryGrows(s.history, e, q);
    }
    forall q ensures Failures(s'.keys, q) == Rejections(s'.history, q) <= max {
      HistoryGrows(s.history, e, q);
      assert Failures(s.keys, q) == Rejections(s.history, q);
    }
    forall o ensures KeptClaim(s, s', None, o) { ClaimUntouched(s, s', None, o, e); }
    assert Grew(s, s') by { HistoryGrows(s.history, e, 0); }
    OwnersCarry(s, s', None, max);
    CodesStandStill(s, s', e);
  }

  lemma VerificationKeepsCodes(s: State, s': State, a: Attempt, max: nat)
    requires ActiveOk(s) && FailuresOk(s, max) && Compared(s.keys, a, max) && CodeMatches(s.keys, a)
    requires s'.keys == ConsumeChallenge(s.keys, a.phone, a.cid)
    requires s'.history == s.history + [CodeVerified(a.phone, a.cid, a.device)]
    ensures ActiveOk(s') && FailuresOk(s', max)
  {
    var e := CodeVerified(a.phone, a.cid, a.device);
    forall q | q in s'.keys.active ensures Latest(s'.history, q) == Some(s'.keys.active[q]) {
      HistoryGrows(s.history, e, q);
    }
    forall q ensures Failures(s'.keys, q) == Rejections(s'.history, q) <= max {
      HistoryGrows(s.history, e, q);
      assert Failures(s.keys, q) == Rejections(s.history, q);
    }
  }

  lemma VerificationKeepsInv(s: State, s0: State, i: ReqId, a: Attempt, proof: Option<Hash>, max: nat)
    requires Inv(s, s0, max) && Compared(s.keys, a, max) && CodeMatches(s.keys, a)
    requires i in s.flights && s.flights[i] == Verify(a, proof, RunScript)
    ensures Inv(Put(ScriptEvent(s, a, max), i, Verify(a, proof, FindUser(|s.history|))), s0, max)
  {
    var e := CodeVerified(a.phone, a.cid, a.device);
    var s' := Put(ScriptEvent(s, a, max), i, Verify(a, proof, FindUser(|s.history|)));
    assert Failures(s.keys, a.phone) == Rejections(s.history, a.phone);
    SoundAppends(s.history, e, max);
    RecordsStay(s.history, e);
    VerificationKeepsCodes(s, s', a, max);
    forall o ensures KeptClaim(s, s', Some(OfFlight(i)), o) {
      if o != OfFlight(i) { ClaimUntouched(s, s', Some(OfFlight(i)), o, e); }
    }
    assert Grew(s, s') by { HistoryGrows(s.history, e, 0); }
    OwnersCarry(s, s', Some(OfFlight(i)), max);
    CodesStandStill(s, s', e);
  }

  // ---------------------------------------------------------------- every step

  lemma PutIsQuiet(s: State, i: ReqId, f: Flight)
    requires (FlightClaim(f) == None || Claim(s, OfFlight(i)) == FlightClaim(f)) && FlightClaimOk(s.history, f)
    requires ToActivate(f) == None
    ensures Quiet(s, Put(s, i, f))
  {}

  lemma EndIsQuiet(s: State, i: ReqId)
    ensures Quiet(s, End(s, i))
  {}

  lemma EndKeepsInv(s: State, s0: State, i: ReqId, max: nat)
    requires Inv(s, s0, max)
    ensures Inv(End(s, i), s0, max)
  {
    EndIsQuiet(s, i);
    QuietKeepsInv(s, End(s, i), s0, max);
  }

  // A request that ends where it could have gone on.
  lemma EndInsteadKeepsInv(t: State, s0: State, i: ReqId, f: Flight, max: nat)
    requires Inv(Put(t, i, f), s0, max)
    ensures Inv(End(t, i), s0, max)
  {
    EndKeepsInv(Put(t, i, f), s0, i, max);
    assert End(Put(t, i, f), i).flights == End(t, i).flights;
  }

  // The keys a send writes before and after activation: cooldown and challenges.
  lemma SideKeysAreQuiet(s: State, t: State, i: ReqId, f: Flight)
    requires t.flights == s.flights && t.(minted := s.minted, keys := s.keys) == s && s.minted <= t.minted
    requires t.keys.(cooldown := s.keys.cooldown, challenges := s.keys.challenges) == s.keys
    requires f.Send? && (ToActivate(f).Some? ==> ToActivate(f).value in t.minted - s.minted)
    ensures Quiet(s, Put(t, i, f)) && Quiet(s, End(t, i))
  {
    assert QuietTables(s, Put(t, i, f)) && QuietCodes(s, Put(t, i, f)) && QuietProofs(s, Put(t, i, f));
  }

  lemma SendStepIsQuiet(s: State, i: ReqId, p: Phone, d: Device, pc: SendPc, ack: Ack, value: nat, code: Code, max: nat)
    requires i in s.flights && !(pc.StoreActive? && !ack.Failed?)
    ensures SendStep(s, i, p, d, pc, ack, value, code, max) == s
            || Quiet(s, SendStep(s, i, p, d, pc, ack, value, code, max))
  {
    match pc
    case ReadFailures => SideKeysAreQuiet(s, s, i, Send(p, d, TakeCooldown));
    case TakeCooldown =>
      SideKeysAreQuiet(s, s, i, Send(p, d, StoreChallenge));
      SideKeysAreQuiet(s, s.(keys := s.keys.(cooldown := s.keys.cooldown + {p})), i, Send(p, d, StoreChallenge));
    case StoreChallenge =>
      SideKeysAreQuiet(s, s, i, Send(p, d, UndoCooldown));
      var t := s.(keys := s.keys.(challenges := s.keys.challenges[ChallengeKey(p, value) := Challenge(p, d, code)]),
                  minted := s.minted + {value});
      SideKeysAreQuiet(s, t, i, Send(p, d, UndoCooldown));
      if value !in s.minted { SideKeysAreQuiet(s, t, i, Send(p, d, StoreActive(value))); }
    case StoreActive(cid) => SideKeysAreQuiet(s, s, i, Send(p, d, UndoChallenge(cid)));
    case UndoChallenge(cid) =>
      SideKeysAreQuiet(s, s, i, Send(p, d, UndoCooldown));
      SideKeysAreQuiet(s, s.(keys := s.keys.(challenges := s.keys.challenges - {ChallengeKey(p, cid)})), i,
          Send(p, d, UndoCooldown));
    case UndoCooldown =>
      SideKeysAreQuiet(s, s, i, Send(p, d, UndoCooldown));
      SideKeysAreQuiet(s, s.(keys := s.keys.(cooldown := s.keys.cooldown - {p})), i, Send(p, d, UndoCooldown));
  }

  lemma SendStepKeepsInv(
      s: State, s0: State, i: ReqId, p: Phone, d: Device, pc: SendPc, ack: Ack, value: nat, code: Code, max: nat)
    requires Inv(s, s0, max) && i in s.flights && s.flights[i] == Send(p, d, pc)
    ensures Inv(SendStep(s, i, p, d, pc, ack, value, code, max), s0, max)
  {
    if pc.StoreActive? && !ack.Failed? {
      var t := Note(s.(keys := s.keys.(active := s.keys.active[p := pc.cid])), Activated(p, pc.cid));
      ActivateKeepsInv(s, s0, i, p, d, pc.cid, max);
      EndInsteadKeepsInv(t, s0, i, Send(p, d, UndoChallenge(pc.cid)), max);
    } else {
      SendStepIsQuiet(s, i, p, d, pc, ack, value, code, max);
      var s' := SendStep(s, i, p, d, pc, ack, value, code, max);
      if s' != s { QuietKeepsInv(s, s', s0, max); }
    }
  }

  lemma ScriptStepKeepsInv(
      s: State, s0: State, i: ReqId, a: Attempt, proof: Option<Hash>, ack: Ack, value: nat, max: nat)
    requires Inv(s, s0, max) && i in s.flights && s.flights[i] == Verify(a, proof, RunScript)
    ensures Inv(VerifyStep(s, i, a, proof, RunScript, ack, value, max), s0, max)
  {
    if ack.Failed? || !Compared(s.keys, a, max) {
      EndKeepsInv(s, s0, i, max);
    } else if CodeMatches(s.keys, a) {
      VerificationKeepsInv(s, s0, i, a, proof, max);
      EndInsteadKeepsInv(ScriptEvent(s, a, max), s0, i, Verify(a, proof, FindUser(|s.history|)), max);
    } else {
      RejectionKeepsInv(s, s0, i, a, max);
    }
  }

  lemma MoveOnKeepsInv(s: State, s0: State, i: ReqId, f: Flight, max: nat)
    requires Inv(s, s0, max) && i in s.flights && ToActivate(f) == None
    requires FlightClaim(f) == FlightClaim(s.flights[i]) && FlightClaimOk(s.history, f)
    ensures Inv(Put(s, i, f), s0, max)
  {
    PutIsQuiet(s, i, f);
    QuietKeepsInv(s, Put(s, i, f), s0, max);
  }

  lemma FlightClaimHolds(s: State, i: ReqId)
    requires OwnersOk(s) && i in s.flights && FlightClaim(s.flights[i]).Some?
    ensures FlightClaimOk(s.history, s.flights[i])
  {
    assert Claim(s, OfFlight(i)).Some? && ClaimOk(s, OfFlight(i));
  }

  lemma VerifyStepKeepsInv(
      s: State, s0: State, i: ReqId, a: Attempt, proof: Option<Hash>, pc: VerifyPc, ack: Ack, value: nat, max: nat)
    requires Inv(s, s0, max) && i in s.flights && s.flights[i] == Verify(a, proof, pc)
    ensures Inv(VerifyStep(s, i, a, proof, pc, ack, value, max), s0, max)
  {
    EndKeepsInv(s, s0, i, max);
    match pc
    case RunScript => ScriptStepKeepsInv(s, s0, i, a, proof, ack, value, max);
    case FindUser(v) =>
      FlightClaimHolds(s, i);
      if a.phone !in s.accounts {
        MoveOnKeepsInv(s, s0, i, Verify(a, proof, IssueReg(v)), max);
      } else {
        MoveOnKeepsInv(s, s0, i, Verify(a, proof, ConsumeEnr(v, s.accounts[a.phone].user)), max);
      }
    case IssueReg(v) => if !ack.Failed? { StoreRegKeepsInv(s, s0, i, a, proof, v, value, max); }
    case ConsumeEnr(v, u) =>
      if !(ack.Failed? || proof == None || a.phone !in s.enrOrigin
           || EnrStatus(s.keys, u, a.phone, a.device, proof.value) != Consumed) {
        TakeEnrKeepsInv(s, s0, i, a, proof.value, v, u, max);
        EndInsteadKeepsInv(TakeEnr(s, u, a.phone, a.device, proof.value, s.enrOrigin[a.phone], v), s0, i,
                           Verify(a, proof, UpsertDevice(|s.history|, u)), max);
      }
    case UpsertDevice(c, u) => UpsertKeepsInv(s, s0, i, a, proof, c, u, max);
  }

  lemma RegisterStepKeepsInv(
      s: State, s0: State, i: ReqId, p: Phone, d: Device, hash: Hash, pc: RegisterPc, ack: Ack, value: nat, max: nat)
    requires Inv(s, s0, max) && i in s.flights && s.flights[i] == Registering(p, d, hash, pc)
    ensures Inv(RegisterStep(s, i, p, d, hash, pc, ack, value), s0, max)
  {
    EndKeepsInv(s, s0, i, max);
    match pc
    case ConsumeReg =>
      if !(ack.Failed? || p !in s.regOrigin || RegStatus(s.keys, p, d, hash) != Consumed) {
        TakeRegKeepsInv(s, s0, i, p, d, hash, max);
        EndInsteadKeepsInv(TakeReg(s, p, d, hash, s.regOrigin[p]), s0, i,
            Registering(p, d, hash, CheckPhone(|s.history|)),
            max);
      }
    case CheckPhone(c) =>
      FlightClaimHolds(s, i);
      MoveOnKeepsInv(s, s0, i, Registering(p, d, hash, CreateAccount(c)), max);
    case CreateAccount(c) =>
      if !(p in s.accounts || !UserIdFree(s, value)) {
        CreateKeepsInv(s, s0, i, p, d, hash, c, value, max);
      }
  }

  lemma StepKeepsInv(s: State, s0: State, i: ReqId, ack: Ack, value: nat, code: Code, max: nat)
    requires Inv(s, s0, max) && i in s.flights
    ensures Inv(StepFlight(s, i, ack, value, code, max), s0, max)
  {
    match s.flights[i]
    case Send(p, d, pc) => SendStepKeepsInv(s, s0, i, p, d, pc, ack, value, code, max);
    case Verify(att, proof, pc) => VerifyStepKeepsInv(s, s0, i, att, proof, pc, ack, value, max);
    case IssueEnr(u, p, d, login) =>
      if ack.Failed? { EndKeepsInv(s, s0, i, max); } else { StoreEnrKeepsInv(s, s0, i, u, p, d, login, value, max); }
    case Registering(p, d, hash, pc) => RegisterStepKeepsInv(s, s0, i, p, d, hash, pc, ack, value, max);
  }

  lemma BeginKeepsInv(s: State, s0: State, i: ReqId, f: Flight, max: nat)
    requires Inv(s, s0, max) && FlightClaim(f) == None && ToActivate(f) == None
    ensures Inv(Put(s, i, f), s0, max)
  {
    PutIsQuiet(s, i, f);
    QuietKeepsInv(s, Put(s, i, f), s0, max);
  }

  lemma SameFlightsAreQuiet(s: State, s': State)
    requires s'.flights == s.flights && QuietTables(s, s') && QuietCodes(s, s') && QuietProofs(s, s')
    ensures Quiet(s, s')
  {}

  lemma ExpiryIsQuiet(s: State, a: Action, max: nat)
    requires a.ExpireActive? || a.ExpireChallenge? || a.ExpireCooldown? || a.ExpireReg? || a.ExpireEnr?
             || a.SetAccountActive? || a.RevokeDevice?
    ensures Quiet(s, Next(s, a, max))
  {
    var s' := Next(s, a, max);
    assert s'.history == s.history && s'.flights == s.flights && s'.minted == s.minted;
    assert QuietCodes(s, s');
    assert QuietProofs(s, s');
    SameFlightsAreQuiet(s, s');
  }

  lemma NextKeepsInv(s: State, s0: State, a: Action, max: nat)
    requires Inv(s, s0, max)
    ensures Inv(Next(s, a, max), s0, max)
  {
    match a
    case LoginWithPin(i, p, d) =>
      if !(i in s.flights || p !in s.accounts) { PinLoginKeepsInv(s, s0, i, p, d, max); }
    case ExpireFailures(p) => if p in s.keys.failures { CounterExpiryKeepsInv(s, s0, p, max); }
    case Step(i, ack, value, code) => if i in s.flights { StepKeepsInv(s, s0, i, ack, value, code, max); }
    case BeginSend(i, p, d) => BeginKeepsInv(s, s0, i, Send(p, d, ReadFailures), max);
    case BeginVerify(i, att, proof) => BeginKeepsInv(s, s0, i, Verify(att, proof, RunScript), max);
    case BeginRegister(i, p, d, hash) => BeginKeepsInv(s, s0, i, Registering(p, d, hash, ConsumeReg), max);
    case Crash(i) => EndKeepsInv(s, s0, i, max);
    case _ =>
      ExpiryIsQuiet(s, a, max);
      QuietKeepsInv(s, Next(s, a, max), s0, max);
  }

  lemma {:induction false} EveryRunKeepsInv(
      accounts: map<Phone, Account>, trusted: set<Trusted>, actions: seq<Action>, max: nat)
    ensures Inv(Run(Init(accounts, trusted), actions, max), Init(accounts, trusted), max)
  {
    var s0 := Init(accounts, trusted);
    if actions == [] {
      assert forall o :: Claim(s0, o) == None;
    } else {
      EveryRunKeepsInv(accounts, trusted, actions[..|actions| - 1], max);
      NextKeepsInv(Run(s0, actions[..|actions| - 1], max), s0, actions[|actions| - 1], max);
    }
  }

  // ---------------------------------------------------------------- one-time codes in a sound history

  lemma {:induction false} LatestWasActivated(h: History, p: Phone, c: Cid) returns (k: nat)
    requires Latest(h, p) == Some(c)
    ensures k < |h| && h[k] == Activated(p, c)
    ensures forall m :: k < m < |h| ==>
              !(h[m].Activated? && h[m].phone == p) && !(h[m].CodeVerified? && h[m].phone == p)
  {
    var last := h[|h| - 1];
    if last == Activated(p, c) {
      k := |h| - 1;
    } else {
      k := LatestWasActivated(h[..|h| - 1], p, c);
    }
  }

  lemma ActivatedOnce(h: History, max: nat, j: nat, k: nat)
    requires Sound(h, max) && j < k < |h| && h[j].Activated? && h[k].Activated?
    ensures h[j].cid != h[k].cid
  {
    assert Justified(h[..k], h[k], max);
    assert h[..k][j] == h[j];
  }

  lemma VerifiedWasActive(h: History, max: nat, j: nat) returns (k: nat)
    requires Sound(h, max) && j < |h| && h[j].CodeVerified?
    ensures k < j && h[k] == Activated(h[j].phone, h[j].cid)
    ensures forall m :: k < m < j ==>
              !(h[m].Activated? && h[m].phone == h[j].phone) && !(h[m].CodeVerified? && h[m].phone == h[j].phone)
  {
    assert Justified(h[..j], h[j], max);
    k := LatestWasActivated(h[..j], h[j].phone, h[j].cid);
    assert h[..j][k] == h[k];
    forall m | k < m < j
      ensures !(h[m].Activated? && h[m].phone == h[j].phone) && !(h[m].CodeVerified? && h[m].phone == h[j].phone)
    {
      assert h[..j][m] == h[m];
    }
  }

  lemma VerifiedOnceIn(h: History, max: nat, i: nat, j: nat)
    requires Sound(h, max) && i < j < |h| && h[i].CodeVerified? && h[j].CodeVerified?
    ensures h[i].cid != h[j].cid
  {
    var k := VerifiedWasActive(h, max, i);
    var l := VerifiedWasActive(h, max, j);
    if h[i].cid == h[j].cid {
      if k < l { ActivatedOnce(h, max, k, l); } else if l < k { ActivatedOnce(h, max, l, k); }
    }
  }

  lemma SupersededIn(h: History, max: nat, a: nat, b: nat, j: nat)
    requires Sound(h, max) && a < b < j < |h|
    requires h[a].Activated? && h[b].Activated? && h[a].phone == h[b].phone
    requires h[j].CodeVerified? && h[j].phone == h[a].phone
    ensures h[j].cid != h[a].cid
  {
    var k := VerifiedWasActive(h, max, j);
    if a < k {
      ActivatedOnce(h, max, a, k);
    }
  }

  predicate Resets(e: Event, p: Phone) {
    (e.CodeVerified? || e.CounterExpired?) && e.phone == p
  }

  function CountRejected(h: History, p: Phone): nat {
    if h == [] then 0
    else CountRejected(h[..|h| - 1], p) + if h[|h| - 1].Rejected? && h[|h| - 1].phone == p then 1 else 0
  }

  lemma {:induction false} RejectionsBounded(h: History, max: nat, p: Phone, n: nat)
    requires Sound(h, max) && n <= |h|
    ensures Rejections(h[..n], p) <= max
  {
    if n > 0 {
      RejectionsBounded(h, max, p, n - 1);
      assert h[..n][..n - 1] == h[..n - 1];
      assert Justified(h[..n - 1], h[n - 1], max);
    }
  }

  lemma {:induction false} CountWithinWindow(h: History, p: Phone, a: nat, b: nat)
    requires a <= b <= |h| && forall k :: a <= k < b ==> !Resets(h[k], p)
    ensures CountRejected(h[a..b], p) <= Rejections(h[..b], p)
  {
    if a < b {
      CountWithinWindow(h, p, a, b - 1);
      assert h[a..b][..b - 1 - a] == h[a..b - 1];
      assert h[..b][..b - 1] == h[..b - 1];
    }
  }

  lemma GuessesIn(h: History, max: nat, p: Phone, a: nat, b: nat)
    requires Sound(h, max) && a <= b <= |h| && forall k :: a <= k < b ==> !Resets(h[k], p)
    ensures CountRejected(h[a..b], p) <= max
    ensures b < |h| && h[b].CodeVerified? && h[b].phone == p ==> CountRejected(h[a..b], p) < max
  {
    CountWithinWindow(h, p, a, b);
    RejectionsBounded(h, max, p, b);
    if b < |h| { assert Justified(h[..b], h[b], max); }
  }

  // ---------------------------------------------------------------- evidence in a sound history

  predicate IsOutcome(e: Event) {
    e.AccountCreated? || e.Enrolled?
  }

  /** The chain behind an account or an enrolment: consumed proof, its issue, the verified code and, for an enrolment,
      the login. `hash` is the hash of the token that was handed out, and of the one presented. */
  datatype Evidence = Evidence(consumed: nat, issued: nat, verified: nat, login: nat, hash: Hash)

  ghost predicate Backs(h: History, k: nat, ev: Evidence) {
    && k < |h| && ev.consumed < k && ev.issued < ev.consumed && ev.verified < ev.consumed
    && (match h[k]
        case AccountCreated(p, _, d, c) =>
          && c == ev.consumed && h[c] == RegConsumed(p, d, ev.hash, ev.issued)
          && h[ev.issued] == RegIssued(p, d, ev.hash, ev.verified)
          && VerifiedFor(h, ev.verified, p, d) && ev.verified < ev.issued
        case Enrolled(u, d, c) =>
          && c == ev.consumed && h[c].EnrConsumed?
          && var p := h[c].phone;
          && h[c] == EnrConsumed(u, p, d, ev.hash, ev.issued, ev.verified)
          && h[ev.issued] == EnrIssued(u, p, d, ev.hash, ev.login)
          && ev.login < ev.issued && h[ev.login] == PinLogin(u, p, d)
          && VerifiedFor(h, ev.verified, p, d)
        case _ => false)
  }

  lemma BackedIn(h: History, max: nat, k: nat) returns (ev: Evidence)
    requires Sound(h, max) && k < |h| && IsOutcome(h[k])
    ensures Backs(h, k, ev)
  {
    assert Justified(h[..k], h[k], max);
    var c := h[k].consumed;
    assert h[..k][c] == h[c];
    assert Justified(h[..c], h[c], max);
    if h[k].AccountCreated? {
      var i := h[c].issued;
      assert h[..c][i] == h[i];
      assert Justified(h[..i], h[i], max);
      var v := h[i].verified;
      assert h[..i][v] == h[v];
      ev := Evidence(c, i, v, 0, h[c].hash);
    } else {
      var i, v := h[c].issued, h[c].verified;
      assert h[..c][i] == h[i] && h[..c][v] == h[v];
      assert Justified(h[..i], h[i], max);
      assert h[..i][h[i].login] == h[h[i].login];
      ev := Evidence(c, i, v, h[i].login, h[c].hash);
    }
  }

  lemma NotSharedIn(h: History, max: nat, j: nat, k: nat, a: Evidence, b: Evidence)
    requires Sound(h, max) && j != k && Backs(h, j, a) && Backs(h, k, b)
    ensures a.consumed != b.consumed && a.issued != b.issued && a.verified != b.verified
  {
    Unshared(h, max, j, k);
    assert a.consumed in Causes(h[j]) && b.consumed in Causes(h[k]);
    Unshared(h, max, a.consumed, b.consumed);
    assert a.issued in Causes(h[a.consumed]) && b.issued in Causes(h[b.consumed]);
    var x := if h[j].AccountCreated? then a.issued else a.consumed;
    var y := if h[k].AccountCreated? then b.issued else b.consumed;
    assert a.verified in Causes(h[x]) && b.verified in Causes(h[y]);
    Unshared(h, max, x, y);
  }

  lemma LoginsNotSharedIn(h: History, max: nat, j: nat, k: nat, a: Evidence, b: Evidence)
    requires Sound(h, max) && Backs(h, j, a) && Backs(h, k, b) && a.issued != b.issued
    requires h[j].Enrolled? && h[k].Enrolled?
    ensures a.login != b.login
  {
    assert a.login in Causes(h[a.issued]) && b.login in Causes(h[b.issued]);
    Unshared(h, max, a.issued, b.issued);
  }

  lemma Unshared(h: History, max: nat, j: nat, k: nat)
    requires Sound(h, max) && j < |h| && k < |h| && j != k
    ensures Causes(h[j]) !! Causes(h[k])
  {}

  // ---------------------------------------------------------------- over every run

  function HistoryOf(accounts: map<Phone, Account>, trusted: set<Trusted>, actions: seq<Action>, max: nat): History {
    Run(Init(accounts, trusted), actions, max).history
  }

  /** A PIN login just recorded found an ACTIVE account on a device not authorised for it. */
  ghost predicate LoginChecked(s: State, s': State) {
    |s'.history| == |s.history| + 1 && s'.history[|s.history|].PinLogin? ==>
      var e := s'.history[|s.history|];
      && e.phone in s.accounts && s.accounts[e.phone] == Account(e.user, true)
      && Trusted(e.user, e.device) !in s.trusted
  }

  /** A verified code that has just gone on to enrolment came with a proof and found an ACTIVE account; one that has
      gone on to registration found none. */
  ghost predicate WayChecked(s: State, s': State, i: ReqId) {
    i in s'.flights && s'.flights[i].Verify? && !(i in s.flights && s.flights[i] == s'.flights[i]) ==>
      var f := s'.flights[i];
      && (f.vpc.ConsumeEnr? ==>
            && f.proof.Some? && f.attempt.phone in s.accounts
            && s.accounts[f.attempt.phone] == Account(f.vpc.user, true))
      && (f.vpc.IssueReg? ==> f.attempt.phone !in s.accounts)
  }

  lemma SendIsChecked(s: State, i: ReqId, ack: Ack, value: nat, code: Code, max: nat, j: ReqId)
    requires i in s.flights && s.flights[i].Send?
    ensures LoginChecked(s, StepFlight(s, i, ack, value, code, max))
    ensures WayChecked(s, StepFlight(s, i, ack, value, code, max), j)
  {}

  lemma ScriptIsChecked(s: State, i: ReqId, ack: Ack, value: nat, code: Code, max: nat, j: ReqId)
    requires i in s.flights && s.flights[i].Verify? && s.flights[i].vpc.RunScript?
    ensures LoginChecked(s, StepFlight(s, i, ack, value, code, max))
    ensures WayChecked(s, StepFlight(s, i, ack, value, code, max), j)
  {}

  lemma VerifiedIsChecked(s: State, i: ReqId, ack: Ack, value: nat, code: Code, max: nat, j: ReqId)
    requires i in s.flights && s.flights[i].Verify? && !s.flights[i].vpc.RunScript?
    ensures LoginChecked(s, StepFlight(s, i, ack, value, code, max))
    ensures WayChecked(s, StepFlight(s, i, ack, value, code, max), j)
  {}

  lemma IssueAndRegisterAreChecked(s: State, i: ReqId, ack: Ack, value: nat, code: Code, max: nat, j: ReqId)
    requires i in s.flights && (s.flights[i].IssueEnr? || s.flights[i].Registering?)
    ensures LoginChecked(s, StepFlight(s, i, ack, value, code, max))
    ensures WayChecked(s, StepFlight(s, i, ack, value, code, max), j)
  {}

  /** Every step of the machine checks the account before a login starts an enrolment and before a code goes on. */
  lemma LoginsAndEnrollmentsAreChecked(s: State, a: Action, max: nat, j: ReqId)
    ensures LoginChecked(s, Next(s, a, max)) && WayChecked(s, Next(s, a, max), j)
  {
    if a.Step? && a.id in s.flights {
      match s.flights[a.id]
      case Send(_, _, _) => SendIsChecked(s, a.id, a.ack, a.value, a.code, max, j);
      case Verify(_, _, RunScript) => ScriptIsChecked(s, a.id, a.ack, a.value, a.code, max, j);
      case Verify(_, _, _) => VerifiedIsChecked(s, a.id, a.ack, a.value, a.code, max, j);
      case _ => IssueAndRegisterAreChecked(s, a.id, a.ack, a.value, a.code, max, j);
    }
  }

  /** A challenge id yields VERIFIED at most once. */
  lemma VerifiedAtMostOnce(
      accounts: map<Phone, Account>, trusted: set<Trusted>, actions: seq<Action>, max: nat, i: nat, j: nat)
    requires var h := HistoryOf(accounts, trusted, actions, max);
             i < j < |h| && h[i].CodeVerified? && h[j].CodeVerified?
    ensures var h := HistoryOf(accounts, trusted, actions, max); h[i].cid != h[j].cid
  {
    EveryRunKeepsInv(accounts, trusted, actions, max);
    VerifiedOnceIn(HistoryOf(accounts, trusted, actions, max), max, i, j);
  }

  /** A challenge is not verified after another one for its phone has become active. */
  lemma NotVerifiedOnceSuperseded(
      accounts: map<Phone, Account>, trusted: set<Trusted>, actions: seq<Action>, max: nat, a: nat, b: nat, j: nat)
    requires var h := HistoryOf(accounts, trusted, actions, max);
             && a < b < j < |h| && h[a].Activated? && h[b].Activated? && h[j].CodeVerified?
             && h[a].phone == h[b].phone == h[j].phone
    ensures var h := HistoryOf(accounts, trusted, actions, max); h[j].cid != h[a].cid
  {
    EveryRunKeepsInv(accounts, trusted, actions, max);
    SupersededIn(HistoryOf(accounts, trusted, actions, max), max, a, b, j);
  }

  /** Across any number of resent challenges, between two resets of a phone's counter at most `max` codes are compared
      and rejected, and a code verifies only while fewer than `max` have been. */
  lemma FewGuessesBetweenResets(
      accounts: map<Phone, Account>, trusted: set<Trusted>, actions: seq<Action>, max: nat, p: Phone, a: nat, b: nat)
    requires var h := HistoryOf(accounts, trusted, actions, max);
             a <= b <= |h| && forall k :: a <= k < b ==> !Resets(h[k], p)
    ensures var h := HistoryOf(accounts, trusted, actions, max);
            && CountRejected(h[a..b], p) <= max
            && (b < |h| && h[b].CodeVerified? && h[b].phone == p ==> CountRejected(h[a..b], p) < max)
  {
    EveryRunKeepsInv(accounts, trusted, actions, max);
    GuessesIn(HistoryOf(accounts, trusted, actions, max), max, p, a, b);
  }

  /** Every account and every enrolment rests on a consumed proof and an earlier VERIFIED code for the same phone and
      device, and the token presented was the one issued; an enrolment's proof was issued by a PIN-checked login of the
      same user on the same device. */
  lemma EveryOutcomeIsBacked(
      accounts: map<Phone, Account>, trusted: set<Trusted>, actions: seq<Action>, max: nat, k: nat)
    returns (ev: Evidence)
    requires var h := HistoryOf(accounts, trusted, actions, max); k < |h| && IsOutcome(h[k])
    ensures Backs(HistoryOf(accounts, trusted, actions, max), k, ev)
  {
    EveryRunKeepsInv(accounts, trusted, actions, max);
    ev := BackedIn(HistoryOf(accounts, trusted, actions, max), max, k);
  }

  /** The mapping is injective: two outcomes never share a consumed proof, an issued proof or a VERIFIED code, nor two
      enrolments a login. */
  lemma EvidenceIsNotShared(
      accounts: map<Phone, Account>, trusted: set<Trusted>, actions: seq<Action>, max: nat,
      j: nat, k: nat, a: Evidence, b: Evidence)
    requires var h := HistoryOf(accounts, trusted, actions, max); j != k && Backs(h, j, a) && Backs(h, k, b)
    ensures a.consumed != b.consumed && a.issued != b.issued && a.verified != b.verified
    ensures var h := HistoryOf(accounts, trusted, actions, max);
            h[j].Enrolled? && h[k].Enrolled? ==> a.login != b.login
  {
    EveryRunKeepsInv(accounts, trusted, actions, max);
    var h := HistoryOf(accounts, trusted, actions, max);
    NotSharedIn(h, max, j, k, a, b);
    if h[j].Enrolled? && h[k].Enrolled? { LoginsNotSharedIn(h, max, j, k, a, b); }
  }

  /** Whoever consumes a proof is the only one ever to consume it, and a VERIFIED code earns one thing only: a
      registration proof or, together with an enrolment proof, an enrolment. */
  lemma ProofsAreSpentOnce(
      accounts: map<Phone, Account>, trusted: set<Trusted>, actions: seq<Action>, max: nat, j: nat, k: nat)
    requires var h := HistoryOf(accounts, trusted, actions, max); j < |h| && k < |h| && j != k
    ensures var h := HistoryOf(accounts, trusted, actions, max);
            && (h[j].RegConsumed? && h[k].RegConsumed? ==> h[j].issued != h[k].issued)
            && (h[j].EnrConsumed? && h[k].EnrConsumed? ==> h[j].issued != h[k].issued && h[j].verified != h[k].verified)
            && (h[j].RegIssued? && h[k].RegIssued? ==> h[j].verified != h[k].verified)
            && (h[j].RegIssued? && h[k].EnrConsumed? ==> h[j].verified != h[k].verified)
  {
    EveryRunKeepsInv(accounts, trusted, actions, max);
    var h := HistoryOf(accounts, trusted, actions, max);
    Unshared(h, max, j, k);
    assert h[j].RegConsumed? ==> h[j].issued in Causes(h[j]);
    assert h[j].EnrConsumed? ==> h[j].issued in Causes(h[j]) && h[j].verified in Causes(h[j]);
    assert h[j].RegIssued? ==> h[j].verified in Causes(h[j]);
  }

  /** Every account and every authorised device that was not there at the start has its evidence in the history. */
  lemma AuthorityHasEvidence(accounts: map<Phone, Account>, trusted: set<Trusted>, actions: seq<Action>, max: nat)
    ensures var s := Run(Init(accounts, trusted), actions, max);
            && Sound(s.history, max)
            && (forall p :: p in s.accounts && p !in accounts ==>
                  exists k: nat, ev :: Backs(s.history, k, ev) && s.history[k].AccountCreated?
                                  && s.history[k].phone == p && s.history[k].user == s.accounts[p].user)
            && (forall t :: t in s.trusted && t !in trusted ==>
                  exists k: nat, ev ::
                    Backs(s.history, k, ev) && s.history[k].user == t.user && s.history[k].device == t.device)
  {
    EveryRunKeepsInv(accounts, trusted, actions, max);
    var s := Run(Init(accounts, trusted), actions, max);
    var h := s.history;
    forall p | p in s.accounts && p !in accounts
      ensures exists k: nat, ev ::
                Backs(h, k, ev) && h[k].AccountCreated? && h[k].phone == p && h[k].user == s.accounts[p].user
    {
      var k :| 0 <= k < |h| && h[k].AccountCreated? && h[k].phone == p && h[k].user == s.accounts[p].user;
      var ev := BackedIn(h, max, k);
    }
    forall t | t in s.trusted && t !in trusted
      ensures exists k: nat, ev :: Backs(h, k, ev) && h[k].user == t.user && h[k].device == t.device
    {
      var k :| 0 <= k < |h| && IsOutcome(h[k]) && h[k].user == t.user && h[k].device == t.device;
      var ev := BackedIn(h, max, k);
    }
  }

  /** The failure counter of every phone equals the rejections since its last reset, and never passes the maximum. */
  lemma CounterCountsRejections(
      accounts: map<Phone, Account>, trusted: set<Trusted>, actions: seq<Action>, max: nat, p: Phone)
    ensures var s := Run(Init(accounts, trusted), actions, max);
            Failures(s.keys, p) == Rejections(s.history, p) <= max
  {
    EveryRunKeepsInv(accounts, trusted, actions, max);
  }
}
