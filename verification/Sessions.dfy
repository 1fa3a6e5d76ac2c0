/** Refresh-session families on trusted devices. Logins, refreshes (four statements each), logouts, revocations,
    re-enrolments and suspensions race; every single statement, and every `$transaction`, is one atomic step.
    Random UUIDs are fresh. */
module Sessions {
  import opened Wrappers
  import opened Bank

  type Uuid = nat

  datatype DevId = DevId(user: UserId, device: DeviceId)

  datatype Device = Device(authorized: bool, sid: Option<Uuid>, jti: Option<Uuid>)

  datatype Tables = Tables(users: map<UserId, Status>, devices: map<DevId, Device>)

  // The claims of a refresh token; only signed, hence issued, tokens get past the guard.
  datatype Token = Token(dev: DevId, sid: Uuid, jti: Uuid)

  // ---------------------------------------------------------------- the statements

  predicate IsActive(db: Tables, u: UserId) {
    u in db.users && db.users[u] == Active
  }

  /** login's update: isAuthorized and the owner ACTIVE. */
  predicate LoginMatches(db: Tables, dev: DevId) {
    dev in db.devices && db.devices[dev].authorized && IsActive(db, dev.user)
  }

  function OpenFamily(db: Tables, dev: DevId, sid: Uuid, jti: Uuid): Tables {
    if LoginMatches(db, dev)
    then db.(devices := db.devices[dev := db.devices[dev].(sid := Some(sid), jti := Some(jti))])
    else db
  }

  predicate RotateMatches(db: Tables, t: Token) {
    && LoginMatches(db, t.dev)
    && db.devices[t.dev].sid == Some(t.sid) && db.devices[t.dev].jti == Some(t.jti)
  }

  function Rotate(db: Tables, t: Token, newJti: Uuid): Tables {
    if RotateMatches(db, t) then db.(devices := db.devices[t.dev := db.devices[t.dev].(jti := Some(newJti))]) else db
  }

  /** The family of the token is current under another jti. */
  predicate ReplayMatches(db: Tables, t: Token) {
    && t.dev in db.devices && db.devices[t.dev].authorized
    && db.devices[t.dev].sid == Some(t.sid)
    && db.devices[t.dev].jti != None && db.devices[t.dev].jti != Some(t.jti)
  }

  function ClearRow(db: Tables, dev: DevId): Tables
    requires dev in db.devices
  {
    db.(devices := db.devices[dev := db.devices[dev].(sid := None, jti := None)])
  }

  function EndFamily(db: Tables, t: Token): Tables {
    if ReplayMatches(db, t) then ClearRow(db, t.dev) else db
  }

  function Logout(db: Tables, t: Token): Tables {
    if t.dev in db.devices && db.devices[t.dev].sid == Some(t.sid) then ClearRow(db, t.dev) else db
  }

  function Revoke(db: Tables, dev: DevId): Tables {
    if dev in db.devices then db.(devices := db.devices[dev := Device(false, None, None)]) else db
  }

  function Enroll(db: Tables, dev: DevId): Tables {
    db.(devices := db.devices[dev := Device(true, None, None)])
  }

  /** The whole suspension transaction: status and all sessions of the user. */
  function SuspendUser(db: Tables, u: UserId): Tables {
    if u in db.users && db.users[u] != Locked then
      Tables(db.users[u := Suspended],
             map d | d in db.devices :: if d.user == u then db.devices[d].(sid := None, jti := None) else db.devices[d])
    else db
  }

  function ReactivateUser(db: Tables, u: UserId): Tables {
    if u in db.users && db.users[u] == Suspended then db.(users := db.users[u := Active]) else db
  }

  function Register(db: Tables, dev: DevId, sid: Uuid, jti: Uuid): Tables {
    Tables(db.users[dev.user := Active], db.devices[dev := Device(true, Some(sid), Some(jti))])
  }

  /** A refresh, its replay reaction or a logout carrying another sid leaves the row, and every other row, as it was. */
  lemma OtherFamiliesUntouched(db: Tables, t: Token, newJti: Uuid)
    ensures forall d :: d in db.devices && (d != t.dev || db.devices[d].sid != Some(t.sid)) ==>
              && d in Rotate(db, t, newJti).devices && Rotate(db, t, newJti).devices[d] == db.devices[d]
              && d in EndFamily(db, t).devices && EndFamily(db, t).devices[d] == db.devices[d]
              && d in Logout(db, t).devices && Logout(db, t).devices[d] == db.devices[d]
  {}

  // ---------------------------------------------------------------- the machine

  datatype Pc = ReadUser | RotateRow(newJti: Uuid) | ReadDevice | EndReplay

  datatype Flight =
    | Login(dev: DevId, sid: Uuid, jti: Uuid)
    | Refresh(token: Token, pc: Pc)

  type ReqId = nat

  datatype State = State(
    db: Tables,
    flights: map<ReqId, Flight>,
    minted: set<Uuid>,        // every UUID generated so far
    issued: set<Token>,       // tokens handed to clients
    exchanged: seq<Token>,    // tokens successfully refreshed, in order
    refused: set<Token>)      // tokens of refresh requests that ran to their end and were refused

  datatype Action =
    | BeginLogin(id: ReqId, dev: DevId, sid: Uuid, jti: Uuid)
    | BeginRefresh(id: ReqId, token: Token)
    | Step(id: ReqId, uuid: Uuid)   // next statement; a refresh generates `uuid` after its first
    | Crash(id: ReqId)
    | DoLogout(token: Token)
    | DoRevoke(dev: DevId)
    | DoEnroll(dev: DevId)
    | DoSuspend(user: UserId)
    | DoReactivate(user: UserId)
    | DoRegister(dev: DevId, sid: Uuid, jti: Uuid)

  predicate FreshPair(s: State, sid: Uuid, jti: Uuid) {
    sid !in s.minted && jti !in s.minted && sid != jti
  }

  function Drop(s: State, i: ReqId): State {
    s.(flights := s.flights - {i})
  }

  function RefreshStep(s: State, i: ReqId, t: Token, pc: Pc, uuid: Uuid): State {
    match pc
    case ReadUser =>
      if uuid in s.minted then s
      else if !IsActive(s.db, t.dev.user) then Drop(s, i).(refused := s.refused + {t})
      else s.(flights := s.flights[i := Refresh(t, RotateRow(uuid))], minted := s.minted + {uuid})
    case RotateRow(newJti) =>
      if RotateMatches(s.db, t) then
        Drop(s, i).(db := Rotate(s.db, t, newJti), issued := s.issued + {t.(jti := newJti)},
                    exchanged := s.exchanged + [t])
      else s.(flights := s.flights[i := Refresh(t, ReadDevice)])
    case ReadDevice =>
      if ReplayMatches(s.db, t) then s.(flights := s.flights[i := Refresh(t, EndReplay)])
      else Drop(s, i).(refused := s.refused + {t})
    case EndReplay =>
      Drop(s, i).(db := EndFamily(s.db, t), refused := s.refused + {t})
  }

  function StepFlight(s: State, i: ReqId, uuid: Uuid): State
    requires i in s.flights
  {
    match s.flights[i]
    case Login(dev, sid, jti) =>
      if LoginMatches(s.db, dev)
      then Drop(s, i).(db := OpenFamily(s.db, dev, sid, jti), issued := s.issued + {Token(dev, sid, jti)})
      else Drop(s, i)
    case Refresh(t, pc) => RefreshStep(s, i, t, pc, uuid)
  }

  function Next(s: State, a: Action): State {
    match a
    case BeginLogin(i, dev, sid, jti) =>
      if i !in s.flights && LoginMatches(s.db, dev) && FreshPair(s, sid, jti)
      then s.(flights := s.flights[i := Login(dev, sid, jti)], minted := s.minted + {sid, jti}) else s
    case BeginRefresh(i, t) =>
      if i !in s.flights && t in s.issued then s.(flights := s.flights[i := Refresh(t, ReadUser)]) else s
    case Step(i, uuid) => if i in s.flights then StepFlight(s, i, uuid) else s
    case Crash(i) => Drop(s, i)
    case DoLogout(t) => if t in s.issued then s.(db := Logout(s.db, t)) else s
    case DoRevoke(dev) => s.(db := Revoke(s.db, dev))
    case DoEnroll(dev) => if dev.user in s.db.users then s.(db := Enroll(s.db, dev)) else s
    case DoSuspend(u) => s.(db := SuspendUser(s.db, u))
    case DoReactivate(u) => s.(db := ReactivateUser(s.db, u))
    case DoRegister(dev, sid, jti) =>
      if dev.user !in s.db.users && FreshPair(s, sid, jti)
      then s.(db := Register(s.db, dev, sid, jti), minted := s.minted + {sid, jti},
              issued := s.issued + {Token(dev, sid, jti)})
      else s
  }

  function Run(s: State, actions: seq<Action>): State {
    if actions == [] then s else Next(Run(s, actions[..|actions| - 1]), actions[|actions| - 1])
  }

  function Init(users: map<UserId, Status>): State {
    State(Tables(users, map[]), map[], {}, {}, [], {})
  }

  // ---------------------------------------------------------------- invariants

  function Row(s: State, dev: DevId): Device {
    if dev in s.db.devices then s.db.devices[dev] else Device(false, None, None)
  }

  predicate Current(s: State, t: Token) {
    Row(s, t.dev).sid == Some(t.sid) && Row(s, t.dev).jti == Some(t.jti)
  }

  /** sid and jti come and go together; none on a device that is not authorised or whose owner is not ACTIVE. */
  ghost predicate RowsOk(s: State) {
    forall d :: d in s.db.devices ==>
      && d.user in s.db.users
      && (s.db.devices[d].sid.Some? <==> s.db.devices[d].jti.Some?)
      && (s.db.devices[d].sid.Some? ==> s.db.devices[d].authorized && s.db.users[d.user] == Active)
  }

  /** The current pair of a device is an issued token, never one already exchanged. */
  ghost predicate RowsIssued(s: State) {
    forall d :: d in s.db.devices && s.db.devices[d].sid.Some? && s.db.devices[d].jti.Some? ==>
      && Token(d, s.db.devices[d].sid.value, s.db.devices[d].jti.value) in s.issued
      && Token(d, s.db.devices[d].sid.value, s.db.devices[d].jti.value) !in s.exchanged
  }

  /** Issued tokens carry generated ids, a family stays on one device, and a jti belongs to one token. */
  ghost predicate IssuedOk(s: State) {
    && (forall t :: t in s.issued ==> t.sid in s.minted && t.jti in s.minted && t.dev.user in s.db.users)
    && (forall t, t' :: t in s.issued && t' in s.issued && t.sid == t'.sid ==> t.dev == t'.dev)
    && (forall t, t' :: t in s.issued && t' in s.issued && t.jti == t'.jti ==> t == t')
    && (forall t :: t in s.exchanged ==> t in s.issued)
    && (forall t :: t in s.refused ==> t in s.issued)
  }

  /** Ids generated by requests still in flight have not been used yet. */
  ghost predicate Pending(s: State, f: Flight) {
    match f
    case Login(dev, sid, jti) =>
      && sid in s.minted && jti in s.minted && dev.user in s.db.users
      && (forall t :: t in s.issued ==> t.sid != sid && t.jti != jti)
    case Refresh(t, pc) =>
      && t in s.issued
      && (pc.RotateRow? ==> pc.newJti in s.minted && forall t' :: t' in s.issued ==> t'.jti != pc.newJti)
      && ((pc.ReadDevice? || pc.EndReplay?) ==> !Current(s, t))
  }

  ghost predicate FlightsOk(s: State) {
    forall i :: i in s.flights ==> Pending(s, s.flights[i])
  }

  // The ids a request in flight has generated but not used.
  function Reserved(f: Flight): set<Uuid> {
    match f
    case Login(_, sid, jti) => {sid, jti}
    case Refresh(_, pc) => if pc.RotateRow? then {pc.newJti} else {}
  }

  ghost predicate ReservedApart(s: State) {
    forall i, j :: i in s.flights && j in s.flights && i != j ==> Reserved(s.flights[i]) !! Reserved(s.flights[j])
  }

  ghost predicate ExchangedOnce(s: State) {
    forall i, j :: 0 <= i < j < |s.exchanged| ==> s.exchanged[i] != s.exchanged[j]
  }

  /** A family nothing can make current again: generated, on no device, and not waiting in a login. */
  ghost predicate Dead(s: State, sid: Uuid) {
    && sid in s.minted
    && (forall d :: d in s.db.devices ==> s.db.devices[d].sid != Some(sid))
    && (forall i :: i in s.flights && s.flights[i].Login? ==> s.flights[i].sid != sid)
  }

  ghost predicate RefusedDead(s: State) {
    forall t :: t in s.refused ==> Dead(s, t.sid)
  }

  ghost predicate Inv(s: State) {
    && RowsOk(s) && RowsIssued(s) && IssuedOk(s) && FlightsOk(s) && ReservedApart(s) && ExchangedOnce(s)
    && RefusedDead(s)
  }

  // ---------------------------------------------------------------- dead families stay dead

  lemma DeadSurvivesRefresh(s: State, i: ReqId, t: Token, pc: Pc, uuid: Uuid, sid: Uuid)
    requires Dead(s, sid)
    ensures Dead(RefreshStep(s, i, t, pc, uuid), sid)
    ensures RefreshStep(s, i, t, pc, uuid).exchanged == s.exchanged
            || (RefreshStep(s, i, t, pc, uuid).exchanged == s.exchanged + [t] && t.sid != sid)
  {
    assert RotateMatches(s.db, t) ==> s.db.devices[t.dev].sid == Some(t.sid);
  }

  lemma DeadSurvivesOthers(s: State, a: Action, sid: Uuid)
    requires Dead(s, sid) && !(a.Step? && a.id in s.flights && s.flights[a.id].Refresh?)
    ensures Dead(Next(s, a), sid) && Next(s, a).exchanged == s.exchanged
  {}

  /** Once dead, a family stays dead and none of its tokens is ever exchanged again. */
  lemma DeadStaysDead(s: State, a: Action, sid: Uuid)
    requires Dead(s, sid)
    ensures Dead(Next(s, a), sid)
    ensures Next(s, a).exchanged == s.exchanged
            || (Next(s, a).exchanged == s.exchanged + [Next(s, a).exchanged[|s.exchanged|]]
                && Next(s, a).exchanged[|s.exchanged|].sid != sid)
  {
    if a.Step? && a.id in s.flights && s.flights[a.id].Refresh? {
      DeadSurvivesRefresh(s, a.id, s.flights[a.id].token, s.flights[a.id].pc, a.uuid, sid);
    } else {
      DeadSurvivesOthers(s, a, sid);
    }
  }

  /** An issued family that is not on its own device is on none, and can never come back. */
  lemma LeftFamilyIsDead(s: State, t: Token)
    requires RowsOk(s) && RowsIssued(s) && IssuedOk(s) && FlightsOk(s)
    requires t in s.issued && Row(s, t.dev).sid != Some(t.sid)
    ensures Dead(s, t.sid)
  {
    forall i | i in s.flights && s.flights[i].Login? ensures s.flights[i].sid != t.sid {
      assert Pending(s, s.flights[i]);
    }
  }

  // ---------------------------------------------------------------- statements that only clear rows

  /** Every row is as before or without a session, and no owner of a session stops being ACTIVE. */
  ghost predicate OnlyClears(db: Tables, d: Tables) {
    && db.users.Keys <= d.users.Keys && db.devices.Keys <= d.devices.Keys
    && (forall x :: x in d.devices ==>
          && x.user in d.users
          && ((d.devices[x].sid == None && d.devices[x].jti == None)
              || (x in db.devices && d.devices[x] == db.devices[x] && (IsActive(db, x.user) ==> IsActive(d, x.user)))))
  }

  lemma ClearingKeepsInv(s: State, d: Tables)
    requires Inv(s) && OnlyClears(s.db, d)
    ensures Inv(s.(db := d))
  {
    var s' := s.(db := d);
    forall i | i in s.flights ensures Pending(s', s.flights[i]) {
      assert Pending(s, s.flights[i]);
    }
    forall t | t in s.refused ensures Dead(s', t.sid) {
      assert Dead(s, t.sid);
    }
  }

  lemma RowStatementsClear(s: State, t: Token, dev: DevId)
    requires RowsOk(s)
    ensures OnlyClears(s.db, Logout(s.db, t))
    ensures OnlyClears(s.db, EndFamily(s.db, t))
    ensures OnlyClears(s.db, Revoke(s.db, dev))
    ensures dev.user in s.db.users ==> OnlyClears(s.db, Enroll(s.db, dev))
  {}

  lemma UserStatementsClear(s: State, u: UserId)
    requires RowsOk(s)
    ensures OnlyClears(s.db, SuspendUser(s.db, u))
    ensures OnlyClears(s.db, ReactivateUser(s.db, u))
  {}

  // ---------------------------------------------------------------- statements that open or rotate

  lemma RegisterKeepsInv(s: State, dev: DevId, sid: Uuid, jti: Uuid)
    requires Inv(s) && dev.user !in s.db.users && FreshPair(s, sid, jti)
    ensures Inv(Next(s, DoRegister(dev, sid, jti)))
  {
    var s' := Next(s, DoRegister(dev, sid, jti));
    forall i | i in s.flights ensures Pending(s', s.flights[i]) {
      assert Pending(s, s.flights[i]);
    }
    forall t | t in s.refused ensures Dead(s', t.sid) {
      DeadStaysDead(s, DoRegister(dev, sid, jti), t.sid);
    }
  }

  lemma BeginLoginKeepsInv(s: State, i: ReqId, dev: DevId, sid: Uuid, jti: Uuid)
    requires Inv(s) && i !in s.flights && LoginMatches(s.db, dev) && FreshPair(s, sid, jti)
    ensures Inv(Next(s, BeginLogin(i, dev, sid, jti)))
  {
    var s' := Next(s, BeginLogin(i, dev, sid, jti));
    forall j | j in s'.flights ensures Pending(s', s'.flights[j]) {
      assert j != i ==> Pending(s, s.flights[j]);
    }
    forall j | j in s.flights ensures Reserved(s.flights[j]) <= s.minted {
      assert Pending(s, s.flights[j]);
    }
    forall t | t in s.refused ensures Dead(s', t.sid) {
      DeadStaysDead(s, BeginLogin(i, dev, sid, jti), t.sid);
    }
  }

  lemma LoginKeepsInv(s: State, i: ReqId, dev: DevId, sid: Uuid, jti: Uuid)
    requires Inv(s) && i in s.flights && s.flights[i] == Login(dev, sid, jti) && LoginMatches(s.db, dev)
    ensures Inv(Next(s, Step(i, 0)))
  {
    var s' := Next(s, Step(i, 0));
    assert Pending(s, s.flights[i]);
    forall j | j in s'.flights ensures Pending(s', s'.flights[j]) {
      assert Pending(s, s.flights[j]);
      assert Reserved(s.flights[j]) !! Reserved(s.flights[i]);
      assert sid in Reserved(s.flights[i]) && jti in Reserved(s.flights[i]);
    }
    forall t | t in s.refused ensures Dead(s', t.sid) {
      DeadStaysDead(s, Step(i, 0), t.sid);
    }
  }

  lemma RotateKeepsRows(s: State, s': State, t: Token, newJti: Uuid)
    requires RowsOk(s) && RowsIssued(s) && IssuedOk(s) && ExchangedOnce(s) && RotateMatches(s.db, t)
    requires newJti in s.minted && forall x :: x in s.issued ==> x.jti != newJti
    requires s'.db == Rotate(s.db, t, newJti) && s'.issued == s.issued + {t.(jti := newJti)}
    requires s'.exchanged == s.exchanged + [t] && s'.minted == s.minted && s'.refused == s.refused
    ensures RowsOk(s') && RowsIssued(s') && IssuedOk(s') && ExchangedOnce(s')
  {
    assert t in s.issued && t !in s.exchanged;
  }

  lemma RotateKeepsInv(s: State, i: ReqId, t: Token, newJti: Uuid)
    requires Inv(s) && i in s.flights && s.flights[i] == Refresh(t, RotateRow(newJti)) && RotateMatches(s.db, t)
    ensures Inv(Next(s, Step(i, 0)))
  {
    var s' := Next(s, Step(i, 0));
    assert Pending(s, s.flights[i]);
    RotateKeepsRows(s, s', t, newJti);
    forall j | j in s'.flights ensures Pending(s', s'.flights[j]) {
      assert Pending(s, s.flights[j]);
      assert Reserved(s.flights[j]) !! Reserved(s.flights[i]);
      assert newJti in Reserved(s.flights[i]);
    }
    forall r | r in s.refused ensures Dead(s', r.sid) {
      DeadStaysDead(s, Step(i, 0), r.sid);
    }
  }

  // ---------------------------------------------------------------- steps that change no row

  lemma DropKeepsInv(s: State, i: ReqId)
    requires Inv(s)
    ensures Inv(Drop(s, i))
  {
    forall t | t in s.refused ensures Dead(Drop(s, i), t.sid) { assert Dead(s, t.sid); }
    forall j | j in Drop(s, i).flights ensures Pending(Drop(s, i), s.flights[j]) { assert Pending(s, s.flights[j]); }
  }

  lemma MoveOnKeepsInv(s: State, i: ReqId, t: Token, pc: Pc)
    requires Inv(s) && t in s.issued && (pc.ReadUser? || ((pc.ReadDevice? || pc.EndReplay?) && !Current(s, t)))
    ensures Inv(s.(flights := s.flights[i := Refresh(t, pc)]))
  {
    var s' := s.(flights := s.flights[i := Refresh(t, pc)]);
    forall r | r in s.refused ensures Dead(s', r.sid) { assert Dead(s, r.sid); }
    forall j | j in s'.flights ensures Pending(s', s'.flights[j]) {
      assert j != i ==> Pending(s, s.flights[j]);
    }
  }

  lemma MintKeepsInv(s: State, i: ReqId, t: Token, uuid: Uuid)
    requires Inv(s) && t in s.issued && uuid !in s.minted
    ensures Inv(s.(flights := s.flights[i := Refresh(t, RotateRow(uuid))], minted := s.minted + {uuid}))
  {
    var s' := s.(flights := s.flights[i := Refresh(t, RotateRow(uuid))], minted := s.minted + {uuid});
    forall j | j in s.flights ensures Reserved(s.flights[j]) <= s.minted {
      assert Pending(s, s.flights[j]);
    }
    forall r | r in s.refused ensures Dead(s', r.sid) { assert Dead(s, r.sid); }
    forall j | j in s'.flights ensures Pending(s', s'.flights[j]) {
      assert j != i ==> Pending(s, s.flights[j]);
    }
  }

  /** A refusal comes only after the family has left its device. */
  lemma RefusalKeepsInv(s: State, i: ReqId, t: Token)
    requires Inv(s) && t in s.issued && Row(s, t.dev).sid != Some(t.sid)
    ensures Inv(Drop(s, i).(refused := s.refused + {t}))
  {
    DropKeepsInv(s, i);
    LeftFamilyIsDead(Drop(s, i), t);
    forall r | r in s.refused + {t} ensures Dead(Drop(s, i).(refused := s.refused + {t}), r.sid) {
      assert Dead(Drop(s, i), r.sid);
    }
    forall j | j in Drop(s, i).flights ensures Pending(Drop(s, i).(refused := s.refused + {t}), s.flights[j]) {
      assert Pending(Drop(s, i), s.flights[j]);
    }
  }

  lemma RefreshStepKeepsInv(s: State, i: ReqId, t: Token, pc: Pc, uuid: Uuid)
    requires Inv(s) && i in s.flights && s.flights[i] == Refresh(t, pc)
    ensures Inv(RefreshStep(s, i, t, pc, uuid))
  {
    assert Pending(s, s.flights[i]);
    match pc
    case ReadUser =>
      if uuid !in s.minted {
        if IsActive(s.db, t.dev.user) { MintKeepsInv(s, i, t, uuid); } else { RefusalKeepsInv(s, i, t); }
      }
    case RotateRow(newJti) =>
      if RotateMatches(s.db, t) {
        RotateKeepsInv(s, i, t, newJti);
      } else {
        assert !Current(s, t);
        MoveOnKeepsInv(s, i, t, ReadDevice);
      }
    case ReadDevice =>
      if ReplayMatches(s.db, t) { MoveOnKeepsInv(s, i, t, EndReplay); } else { RefusalKeepsInv(s, i, t); }
    case EndReplay =>
      RowStatementsClear(s, t, t.dev);
      ClearingKeepsInv(s, EndFamily(s.db, t));
      RefusalKeepsInv(s.(db := EndFamily(s.db, t)), i, t);
  }

  lemma NextKeepsInv(s: State, a: Action)
    requires Inv(s)
    ensures Inv(Next(s, a))
  {
    match a
    case BeginLogin(i, dev, sid, jti) =>
      if i !in s.flights && LoginMatches(s.db, dev) && FreshPair(s, sid, jti) {
        BeginLoginKeepsInv(s, i, dev, sid, jti);
      }
    case BeginRefresh(i, t) => if i !in s.flights && t in s.issued { MoveOnKeepsInv(s, i, t, ReadUser); }
    case Step(i, uuid) =>
      if i in s.flights {
        match s.flights[i]
        case Login(dev, sid, jti) =>
          if LoginMatches(s.db, dev) { LoginKeepsInv(s, i, dev, sid, jti); } else { DropKeepsInv(s, i); }
        case Refresh(t, pc) => RefreshStepKeepsInv(s, i, t, pc, uuid);
      }
    case Crash(i) => DropKeepsInv(s, i);
    case DoLogout(t) => RowStatementsClear(s, t, t.dev); ClearingKeepsInv(s, Logout(s.db, t));
    case DoRevoke(dev) => RowStatementsClear(s, Token(dev, 0, 0), dev); ClearingKeepsInv(s, Revoke(s.db, dev));
    case DoEnroll(dev) =>
      if dev.user in s.db.users {
        RowStatementsClear(s, Token(dev, 0, 0), dev);
        ClearingKeepsInv(s, Enroll(s.db, dev));
      }
    case DoSuspend(u) => UserStatementsClear(s, u); ClearingKeepsInv(s, SuspendUser(s.db, u));
    case DoReactivate(u) => UserStatementsClear(s, u); ClearingKeepsInv(s, ReactivateUser(s.db, u));
    case DoRegister(dev, sid, jti) =>
      if dev.user !in s.db.users && FreshPair(s, sid, jti) { RegisterKeepsInv(s, dev, sid, jti); }
  }

  // ---------------------------------------------------------------- every run

  lemma {:induction false} EveryRunKeepsInv(s0: State, actions: seq<Action>)
    requires Inv(s0)
    ensures Inv(Run(s0, actions))
  {
    if actions != [] {
      EveryRunKeepsInv(s0, actions[..|actions| - 1]);
      NextKeepsInv(Run(s0, actions[..|actions| - 1]), actions[|actions| - 1]);
    }
  }

  lemma InitIsSound(users: map<UserId, Status>)
    ensures Inv(Init(users))
  {}

  /** sid is null exactly when jti is, and only authorised devices of ACTIVE owners carry a session. */
  lemma SessionsAreWellFormed(s0: State, actions: seq<Action>, d: DevId)
    requires Inv(s0)
    ensures var s := Run(s0, actions);
            d in s.db.devices ==>
              && (s.db.devices[d].sid == None <==> s.db.devices[d].jti == None)
              && (!s.db.devices[d].authorized ==> s.db.devices[d].sid == None)
              && (d.user in s.db.users && s.db.users[d.user] == Suspended ==> s.db.devices[d].sid == None)
  {
    EveryRunKeepsInv(s0, actions);
  }

  /** Each refresh token is exchanged successfully at most once, and never while it is still the current one. */
  lemma TokenExchangedOnce(s0: State, actions: seq<Action>, t: Token)
    requires Inv(s0)
    ensures var s := Run(s0, actions);
            && (forall i, j :: 0 <= i < j < |s.exchanged| ==> !(s.exchanged[i] == t && s.exchanged[j] == t))
            && (t in s.exchanged ==> !Current(s, t))
  {
    EveryRunKeepsInv(s0, actions);
    var s := Run(s0, actions);
    assert t.dev in s.db.devices && Current(s, t) ==>
        t == Token(t.dev, s.db.devices[t.dev].sid.value, s.db.devices[t.dev].jti.value);
  }

  lemma {:induction false} DeadForGood(s: State, actions: seq<Action>, sid: Uuid)
    requires Inv(s) && Dead(s, sid)
    ensures Inv(Run(s, actions)) && Dead(Run(s, actions), sid)
    ensures s.exchanged <= Run(s, actions).exchanged
    ensures forall k :: |s.exchanged| <= k < |Run(s, actions).exchanged| ==> Run(s, actions).exchanged[k].sid != sid
  {
    if actions != [] {
      var prefix, a := actions[..|actions| - 1], actions[|actions| - 1];
      DeadForGood(s, prefix, sid);
      NextKeepsInv(Run(s, prefix), a);
      DeadStaysDead(Run(s, prefix), a, sid);
    }
  }

  /** Whatever else runs between its statements, a refresh request that completes without new tokens leaves its family
      dead: no refresh in that sid ever succeeds afterwards. */
  lemma RefusedRefreshEndsFamily(s0: State, before: seq<Action>, later: seq<Action>, t: Token)
    requires Inv(s0) && t in Run(s0, before).refused
    ensures var s, s' := Run(s0, before), Run(Run(s0, before), later);
            && s.exchanged <= s'.exchanged
            && (forall k :: |s.exchanged| <= k < |s'.exchanged| ==> s'.exchanged[k].sid != t.sid)
            && (forall d :: d in s'.db.devices ==> s'.db.devices[d].sid != Some(t.sid))
  {
    EveryRunKeepsInv(s0, before);
    DeadForGood(Run(s0, before), later, t.sid);
  }

  /** A refresh whose token was already exchanged can only be refused, so presenting it to the end kills the family. */
  lemma ReplayIsRefused(s0: State, before: seq<Action>, i: ReqId, uuid: Uuid, t: Token, pc: Pc)
    requires Inv(s0)
    requires var s := Run(s0, before); t in s.exchanged && i in s.flights && s.flights[i] == Refresh(t, pc)
    ensures var s, s' := Run(s0, before), Next(Run(s0, before), Step(i, uuid));
            && s'.exchanged == s.exchanged
            && (i !in s'.flights ==> t in s'.refused)
  {
    EveryRunKeepsInv(s0, before);
    TokenExchangedOnce(s0, before, t);
  }

  lemma IssuedStays(s: State, a: Action)
    ensures s.issued <= Next(s, a).issued
  {}

  lemma LostFamilyIsDead(s: State, a: Action, dev: DevId, sid: Uuid)
    requires Inv(s) && Inv(Next(s, a)) && Row(s, dev).sid == Some(sid) && Row(Next(s, a), dev).sid != Some(sid)
    ensures Dead(Next(s, a), sid)
  {
    var t := Token(dev, sid, Row(s, dev).jti.value);
    assert t in s.issued;
    IssuedStays(s, a);
    LeftFamilyIsDead(Next(s, a), t);
  }

  /** A sid that was current on a device and has been replaced or cleared never becomes current again. */
  lemma ReplacedFamilyNeverReturns(s0: State, before: seq<Action>, a: Action, later: seq<Action>, dev: DevId, sid: Uuid)
    requires Inv(s0)
    requires Row(Run(s0, before), dev).sid == Some(sid)
    requires Row(Next(Run(s0, before), a), dev).sid != Some(sid)
    ensures forall d :: d in Run(Next(Run(s0, before), a), later).db.devices ==>
              Run(Next(Run(s0, before), a), later).db.devices[d].sid != Some(sid)
  {
    EveryRunKeepsInv(s0, before);
    NextKeepsInv(Run(s0, before), a);
    LostFamilyIsDead(Run(s0, before), a, dev, sid);
    DeadForGood(Next(Run(s0, before), a), later, sid);
  }

  // ---------------------------------------------------------------- the tokens handed out

  /** What each table statement leaves behind. */
  lemma AccountStatementsMean(db: Tables, u: UserId, dev: DevId, sid: Uuid, jti: Uuid)
    ensures SuspendUser(db, u).devices.Keys == db.devices.Keys && SuspendUser(db, u).users.Keys == db.users.Keys
    ensures u in db.users && db.users[u] != Locked ==>
              && SuspendUser(db, u).users == db.users[u := Suspended]
              && (forall d :: d in db.devices && d.user == u ==>
                    SuspendUser(db, u).devices[d] == Device(db.devices[d].authorized, None, None))
              && (forall d :: d in db.devices && d.user != u ==> SuspendUser(db, u).devices[d] == db.devices[d])
    ensures u in db.users && db.users[u] == Suspended ==>
              ReactivateUser(db, u) == Tables(db.users[u := Active], db.devices)
    ensures !(u in db.users && db.users[u] == Suspended) ==> ReactivateUser(db, u) == db
    ensures Register(db, dev, sid, jti) ==
            Tables(db.users[dev.user := Active], db.devices[dev := Device(true, Some(sid), Some(jti))])
  {}

  /** The token is what its device currently holds, authorised, for an ACTIVE owner: what an immediate refresh
      accepts. */
  ghost predicate Works(s: State, t: Token) {
    && t.dev.user in s.db.users && s.db.users[t.dev.user] == Active
    && t.dev in s.db.devices && s.db.devices[t.dev] == Device(true, Some(t.sid), Some(t.jti))
  }

  /** `t` was exchanged for another token of its family, which is handed out and works. */
  ghost predicate Exchanges(s: State, s': State, t: Token, newJti: Uuid) {
    && s'.exchanged == s.exchanged + [t] && Works(s, t)
    && s'.issued == s.issued + {Token(t.dev, t.sid, newJti)} && Works(s', Token(t.dev, t.sid, newJti))
    && s'.db.users == s.db.users && s'.db.devices == s.db.devices[t.dev := Device(true, Some(t.sid), Some(newJti))]
  }

  lemma RotationExchanges(s: State, i: ReqId, t: Token, newJti: Uuid)
    requires i in s.flights && s.flights[i] == Refresh(t, RotateRow(newJti)) && RotateMatches(s.db, t)
    ensures Exchanges(s, Next(s, Step(i, 0)), t, newJti)
    ensures forall uuid :: Next(s, Step(i, uuid)) == Next(s, Step(i, 0))
  {}

  /** Over every run a token works at the moment it is handed out, whether by a login, a registration or a refresh;
      and a refresh that succeeds replaces exactly the working token it was given, in that one row. */
  lemma TokensWorkWhenIssued(s0: State, actions: seq<Action>, a: Action)
    requires Inv(s0)
    ensures var s, s' := Run(s0, actions), Next(Run(s0, actions), a);
            && (forall t :: t in s'.issued && t !in s.issued ==> Works(s', t))
            && (s'.exchanged == s.exchanged || exists t, newJti :: Exchanges(s, s', t, newJti))
  {
    var s, s' := Run(s0, actions), Next(Run(s0, actions), a);
    if a.Step? && a.id in s.flights && s.flights[a.id].Refresh? {
      var t, pc := s.flights[a.id].token, s.flights[a.id].pc;
      if pc.RotateRow? && RotateMatches(s.db, t) {
        RotationExchanges(s, a.id, t, pc.newJti);
        assert s' == Next(s, Step(a.id, 0));
      }
    }
  }

  // ---------------------------------------------------------------- an undisturbed refresh

  function Steps(s: State, i: ReqId, uuid: Uuid, n: nat): State {
    if n == 0 then s else Next(Steps(s, i, uuid, n - 1), Step(i, uuid))
  }

  lemma {:induction false} StepsRun(s: State, a: Action, i: ReqId, uuid: Uuid, n: nat)
    ensures Run(s, [a] + seq(n, k => Step(i, uuid))) == Steps(Next(s, a), i, uuid, n)
  {
    var actions := [a] + seq(n, k => Step(i, uuid));
    if n == 0 {
      assert actions == [a] && actions[..0] == [];
    } else {
      StepsRun(s, a, i, uuid, n - 1);
      assert actions[..n] == [a] + seq(n - 1, k => Step(i, uuid));
    }
  }

  lemma {:induction false} EndedStays(s: State, i: ReqId, uuid: Uuid, n: nat)
    requires i !in s.flights
    ensures Steps(s, i, uuid, n) == s
  {
    if n > 0 { EndedStays(s, i, uuid, n - 1); }
  }

  lemma {:induction false} StepFirst(s: State, i: ReqId, uuid: Uuid, n: nat)
    requires n > 0
    ensures Steps(s, i, uuid, n) == Steps(Next(s, Step(i, uuid)), i, uuid, n - 1)
  {
    if n > 1 { StepFirst(s, i, uuid, n - 1); }
  }

  // A refresh whose update matched nothing.
  lemma ReactionSteps(s: State, i: ReqId, t: Token, uuid: Uuid)
    requires i in s.flights && s.flights[i] == Refresh(t, ReadDevice)
    ensures var s' := Steps(s, i, uuid, 2);
            s'.db == EndFamily(s.db, t) && s'.exchanged == s.exchanged && t in s'.refused
  {
    StepFirst(s, i, uuid, 2);
    var s1 := Next(s, Step(i, uuid));
    if ReplayMatches(s.db, t) {
      StepFirst(s1, i, uuid, 1);
    } else {
      EndedStays(s1, i, uuid, 1);
    }
  }

  lemma RotationSteps(s: State, i: ReqId, t: Token, uuid: Uuid)
    requires i in s.flights && s.flights[i] == Refresh(t, RotateRow(uuid))
    ensures var s' := Steps(s, i, uuid, 3);
            if RotateMatches(s.db, t)
            then s'.db == Rotate(s.db, t, uuid) && s'.exchanged == s.exchanged + [t] && t.(jti := uuid) in s'.issued
            else s'.db == EndFamily(s.db, t) && s'.exchanged == s.exchanged && t in s'.refused
  {
    StepFirst(s, i, uuid, 3);
    var s1 := Next(s, Step(i, uuid));
    if RotateMatches(s.db, t) { EndedStays(s1, i, uuid, 2); } else { ReactionSteps(s1, i, t, uuid); }
  }

  /** The owner is ACTIVE and the device, authorised, is current under exactly this token. */
  predicate Refreshable(db: Tables, t: Token) {
    && t.dev.user in db.users && db.users[t.dev.user] == Active
    && t.dev in db.devices && db.devices[t.dev] == Device(true, Some(t.sid), Some(t.jti))
  }

  /** The owner is ACTIVE and the device, authorised, is current under another token of the same family. */
  predicate Replayed(db: Tables, t: Token) {
    && t.dev.user in db.users && db.users[t.dev.user] == Active
    && t.dev in db.devices && db.devices[t.dev].authorized && db.devices[t.dev].sid == Some(t.sid)
    && db.devices[t.dev].jti.Some? && db.devices[t.dev].jti != Some(t.jti)
  }

  /** A login with nothing between its check and its update opens the new family exactly on an authorised device of an
      ACTIVE owner, and hands out its token. */
  lemma UndisturbedLogin(s: State, i: ReqId, dev: DevId, sid: Uuid, jti: Uuid)
    requires i !in s.flights && FreshPair(s, sid, jti)
    ensures var s' := Run(s, [BeginLogin(i, dev, sid, jti), Step(i, 0)]);
            && s'.db.users == s.db.users
            && if dev in s.db.devices && s.db.devices[dev].authorized && dev.user in s.db.users
                  && s.db.users[dev.user] == Active
               then && s'.db.devices == s.db.devices[dev := Device(true, Some(sid), Some(jti))]
                    && s'.issued == s.issued + {Token(dev, sid, jti)}
               else s' == s
  {
    var actions := [BeginLogin(i, dev, sid, jti), Step(i, 0)];
    assert actions[..1] == [actions[0]] && actions[..1][..0] == [];
    assert Run(s, actions[..1]) == Next(s, actions[0]);
  }

  /** A refresh with nothing between its statements succeeds exactly when its token is current on an authorised device
      of an ACTIVE owner, and then a new token replaces it; otherwise it is refused and a family current under another
      jti ends. */
  lemma UndisturbedRefresh(s: State, i: ReqId, t: Token, uuid: Uuid)
    requires i !in s.flights && t in s.issued && uuid !in s.minted
    ensures var s' := Run(s, [BeginRefresh(i, t)] + seq(4, k => Step(i, uuid)));
            && s'.db.users == s.db.users
            && (if Refreshable(s.db, t) then
                  && s'.db.devices == s.db.devices[t.dev := Device(true, Some(t.sid), Some(uuid))]
                  && s'.exchanged == s.exchanged + [t] && Token(t.dev, t.sid, uuid) in s'.issued
                else
                  && s'.db.devices == (if Replayed(s.db, t) then s.db.devices[t.dev := Device(true, None, None)]
                                       else s.db.devices)
                  && s'.exchanged == s.exchanged && t in s'.refused)
  {
    StepsRun(s, BeginRefresh(i, t), i, uuid, 4);
    var s0 := Next(s, BeginRefresh(i, t));
    StepFirst(s0, i, uuid, 4);
    var s1 := Next(s0, Step(i, uuid));
    if IsActive(s.db, t.dev.user) { RotationSteps(s1, i, t, uuid); } else { EndedStays(s1, i, uuid, 3); }
  }

  // ---------------------------------------------------------------- the service, in place

  class DeviceTable {
    var users: map<UserId, Status>
    var devices: map<DevId, Device>

    ghost function Contents(): Tables
      reads this
    {
      Tables(users, devices)
    }

    constructor (db: Tables)
      ensures Contents() == db
    {
      users, devices := db.users, db.devices;
    }

    method EstablishSession(dev: DevId, sid: Uuid, jti: Uuid) returns (count: nat)
      modifies this`devices
      ensures Contents() == OpenFamily(old(Contents()), dev, sid, jti)
      ensures count == if LoginMatches(old(Contents()), dev) then 1 else 0
      ensures count == 1 <==> dev in old(devices) && old(devices)[dev].authorized
                              && dev.user in users && users[dev.user] == Active
      ensures devices == if count == 1 then old(devices)[dev := Device(true, Some(sid), Some(jti))] else old(devices)
    {
      if dev in devices && devices[dev].authorized && dev.user in users && users[dev.user] == Active {
        devices := devices[dev := devices[dev].(sid := Some(sid), jti := Some(jti))];
        return 1;
      }
      return 0;
    }

    method RotateToken(t: Token, newJti: Uuid) returns (count: nat)
      modifies this`devices
      ensures Contents() == Rotate(old(Contents()), t, newJti)
      ensures count == if RotateMatches(old(Contents()), t) then 1 else 0
      ensures count == 1 <==> Refreshable(old(Contents()), t)
      ensures devices ==
              if count == 1 then old(devices)[t.dev := Device(true, Some(t.sid), Some(newJti))] else old(devices)
    {
      if t.dev in devices && devices[t.dev].authorized && t.dev.user in users && users[t.dev.user] == Active {
        if devices[t.dev].sid == Some(t.sid) && devices[t.dev].jti == Some(t.jti) {
          devices := devices[t.dev := devices[t.dev].(jti := Some(newJti))];
          return 1;
        }
      }
      return 0;
    }

    /** The four statements of a refresh with nothing in between. */
    method RefreshTokens(t: Token, newJti: Uuid) returns (ok: bool)
      modifies this`devices
      ensures ok <==> RotateMatches(old(Contents()), t)
      ensures ok ==> Contents() == Rotate(old(Contents()), t, newJti)
      ensures !ok && IsActive(old(Contents()), t.dev.user) ==> Contents() == EndFamily(old(Contents()), t)
      ensures !ok && !IsActive(old(Contents()), t.dev.user) ==> Contents() == old(Contents())
      ensures ok <==> Refreshable(old(Contents()), t)
      ensures devices ==
              if ok then old(devices)[t.dev := Device(true, Some(t.sid), Some(newJti))]
              else if Replayed(old(Contents()), t) then old(devices)[t.dev := Device(true, None, None)]
              else old(devices)
    {
      if t.dev.user !in users || users[t.dev.user] != Active {
        return false;
      }
      var count := RotateToken(t, newJti);
      if count == 1 {
        return true;
      }
      if t.dev in devices && devices[t.dev].authorized && devices[t.dev].sid == Some(t.sid) {
        if devices[t.dev].jti != None && devices[t.dev].jti != Some(t.jti) {
          devices := devices[t.dev := devices[t.dev].(sid := None, jti := None)];
        }
      }
      return false;
    }

    method LogoutCurrentSession(t: Token)
      modifies this`devices
      ensures Contents() == Logout(old(Contents()), t)
      ensures devices ==
              if t.dev in old(devices) && old(devices)[t.dev].sid == Some(t.sid)
              then old(devices)[t.dev := Device(old(devices)[t.dev].authorized, None, None)] else old(devices)
    {
      if t.dev in devices && devices[t.dev].sid == Some(t.sid) {
        devices := devices[t.dev := devices[t.dev].(sid := None, jti := None)];
      }
    }

    method RevokeTrustedDevice(dev: DevId) returns (found: bool)
      modifies this`devices
      ensures Contents() == Revoke(old(Contents()), dev) && found == (dev in old(devices))
      ensures devices == if found then old(devices)[dev := Device(false, None, None)] else old(devices)
    {
      found := dev in devices;
      if found {
        devices := devices[dev := Device(false, None, None)];
      }
    }

    method UpsertTrustedDevice(dev: DevId)
      modifies this`devices
      ensures Contents() == Enroll(old(Contents()), dev)
      ensures devices == old(devices)[dev := Device(true, None, None)]
    {
      devices := devices[dev := Device(true, None, None)];
    }
  }
}
