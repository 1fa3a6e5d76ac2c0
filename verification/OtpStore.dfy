/** The Redis keys behind one-time codes and one-time proofs, and the atomic scripts that read and consume them. */
module OtpStore {
  import opened Redis

  type Phone = nat      // canonical number
  type Cid = nat        // challenge id, a random UUID
  type Device = nat
  type User = nat
  type Code = nat
  type Hash = nat       // SHA-256 of a presented token; nothing below needs it to be injective

  datatype ChallengeKey = ChallengeKey(phone: Phone, cid: Cid)
  datatype Challenge = Challenge(phone: Phone, device: Device, code: Code)
  datatype RegProof = RegProof(hash: Hash, phone: Phone, device: Device)
  datatype EnrProof = EnrProof(hash: Hash, user: User, phone: Phone, device: Device)

  datatype Keys = Keys(
    active: map<Phone, Cid>,
    challenges: map<ChallengeKey, Challenge>,
    failures: map<Phone, nat>,
    cooldown: set<Phone>,
    reg: map<Phone, RegProof>,
    enr: map<Phone, EnrProof>)

  function Failures(k: Keys, p: Phone): nat {
    if p in k.failures then k.failures[p] else 0
  }

  datatype OtpStatus =
    | Verified
    | TooManyAttempts
    | NoActiveChallenge
    | Superseded
    | ChallengeMissing
    | InvalidChallenge
    | InvalidOtp

  datatype Attempt = Attempt(phone: Phone, device: Device, cid: Cid, code: Code)

  function CountFailure(k: Keys, p: Phone): Keys {
    k.(failures := k.failures[p := Failures(k, p) + 1])
  }

  function ConsumeChallenge(k: Keys, p: Phone, cid: Cid): Keys {
    k.(active := k.active - {p}, challenges := k.challenges - {ChallengeKey(p, cid)}, failures := k.failures - {p})
  }

  /** The challenge an attempt reaches: the active one of its phone, stored, for the same phone and device. */
  predicate Reaches(k: Keys, a: Attempt) {
    && a.phone in k.active && k.active[a.phone] == a.cid
    && ChallengeKey(a.phone, a.cid) in k.challenges
    && k.challenges[ChallengeKey(a.phone, a.cid)].phone == a.phone
    && k.challenges[ChallengeKey(a.phone, a.cid)].device == a.device
  }

  predicate Compared(k: Keys, a: Attempt, maxFailures: nat) {
    Failures(k, a.phone) < maxFailures && Reaches(k, a)
  }

  predicate CodeMatches(k: Keys, a: Attempt)
    requires Reaches(k, a)
  {
    k.challenges[ChallengeKey(a.phone, a.cid)].code == a.code
  }

  function ScriptStatus(k: Keys, a: Attempt, maxFailures: nat): OtpStatus {
    if Failures(k, a.phone) >= maxFailures then TooManyAttempts
    else if a.phone !in k.active then NoActiveChallenge
    else if k.active[a.phone] != a.cid then Superseded
    else if ChallengeKey(a.phone, a.cid) !in k.challenges then ChallengeMissing
    else if !Reaches(k, a) then InvalidChallenge
    else if CodeMatches(k, a) then Verified
    else if Failures(k, a.phone) + 1 >= maxFailures then TooManyAttempts
    else InvalidOtp
  }

  /** The stored challenge is the active one of the phone, made for this phone and device, and holds another code. */
  predicate WrongCode(k: Keys, a: Attempt, maxFailures: nat) {
    && (a.phone in k.failures ==> k.failures[a.phone] < maxFailures) && maxFailures > 0
    && a.phone in k.active && k.active[a.phone] == a.cid
    && ChallengeKey(a.phone, a.cid) in k.challenges
    && k.challenges[ChallengeKey(a.phone, a.cid)].(code := a.code) == Challenge(a.phone, a.device, a.code)
    && k.challenges[ChallengeKey(a.phone, a.cid)].code != a.code
  }

  /** The answer to an attempt, from the keys alone: a wrong code is answered InvalidOtp until it is the last one
      allowed. */
  function StatusOf(k: Keys, a: Attempt, maxFailures: nat): OtpStatus {
    var count := if a.phone in k.failures then k.failures[a.phone] else 0;
    if maxFailures <= count then TooManyAttempts
    else if !(a.phone in k.active) then NoActiveChallenge
    else if !(k.active[a.phone] == a.cid) then Superseded
    else if !(ChallengeKey(a.phone, a.cid) in k.challenges) then ChallengeMissing
    else
      var c := k.challenges[ChallengeKey(a.phone, a.cid)];
      if c == Challenge(a.phone, a.device, a.code) then Verified
      else if c.phone != a.phone || c.device != a.device then InvalidChallenge
      else if count + 1 == maxFailures then TooManyAttempts
      else InvalidOtp
  }

  function ScriptEffect(k: Keys, a: Attempt, maxFailures: nat): Keys {
    if !Compared(k, a, maxFailures) then k
    else if CodeMatches(k, a) then ConsumeChallenge(k, a.phone, a.cid)
    else CountFailure(k, a.phone)
  }

  datatype ConsumeStatus = Consumed | Missing | Invalid

  function RegStatus(k: Keys, p: Phone, d: Device, h: Hash): ConsumeStatus {
    if p !in k.reg then Missing else if k.reg[p] == RegProof(h, p, d) then Consumed else Invalid
  }

  function EnrStatus(k: Keys, u: User, p: Phone, d: Device, h: Hash): ConsumeStatus {
    if p !in k.enr then Missing else if k.enr[p] == EnrProof(h, u, p, d) then Consumed else Invalid
  }

  // ---------------------------------------------------------------- sendOtp

  datatype SendStatus = Sent | Locked | CoolingDown | Unavailable

  /** One send: its commands' outcomes, and the id and code it draws. */
  datatype SendCall = SendCall(
    phone: Phone, device: Device, cid: Cid, code: Code,
    readFailures: Ack, takeCooldown: Ack, rereadCooldown: Ack,
    storeChallenge: Ack, storeActive: Ack, undoChallenge: Ack, undoCooldown: Ack)

  function SendOutcome(k: Keys, s: SendCall, maxFailures: nat): SendStatus {
    if !s.readFailures.Answered? then Unavailable
    else if Failures(k, s.phone) >= maxFailures then Locked
    else if s.phone in k.cooldown || s.takeCooldown.Lost? then
      if s.rereadCooldown.Answered? then CoolingDown else Unavailable  // the lock is there, but may not be readable
    else if s.takeCooldown.Answered? && s.storeChallenge.Answered? && s.storeActive.Answered? then Sent
    else Unavailable
  }

  /** The send gets as far as writing its cooldown lock, whether or not it learns so. */
  predicate TakesCooldown(k: Keys, s: SendCall, maxFailures: nat) {
    s.readFailures.Answered? && Failures(k, s.phone) < maxFailures && s.phone !in k.cooldown && !s.takeCooldown.Failed?
  }

  function WithChallenge(k: Keys, s: SendCall): Keys {
    if s.storeChallenge.Failed? then k
    else k.(challenges := k.challenges[ChallengeKey(s.phone, s.cid) := Challenge(s.phone, s.device, s.code)])
  }

  function WithActive(k: Keys, s: SendCall): Keys {
    if s.storeActive.Failed? then k else k.(active := k.active[s.phone := s.cid])
  }

  function WithoutChallenge(k: Keys, s: SendCall): Keys {
    if s.undoChallenge.Failed? then k else k.(challenges := k.challenges - {ChallengeKey(s.phone, s.cid)})
  }

  function WithoutCooldown(k: Keys, s: SendCall): Keys {
    if s.undoCooldown.Failed? then k else k.(cooldown := k.cooldown - {s.phone})
  }

  function SendEffect(k: Keys, s: SendCall, maxFailures: nat): Keys {
    if !TakesCooldown(k, s, maxFailures) then k
    else
      var locked := k.(cooldown := k.cooldown + {s.phone});
      if s.takeCooldown.Lost? then locked
      else if !s.storeChallenge.Answered? then WithoutCooldown(WithChallenge(locked, s), s)
      else
        var stored := WithActive(WithChallenge(locked, s), s);
        if s.storeActive.Answered? then stored else WithoutCooldown(WithoutChallenge(stored, s), s)
  }

  /** Some attempt with this challenge id would be VERIFIED. */
  ghost predicate Redeemable(k: Keys, p: Phone, cid: Cid, maxFailures: nat) {
    exists d: Device, code: Code :: ScriptStatus(k, Attempt(p, d, cid, code), maxFailures) == Verified
  }

  predicate Reachable(k: Keys, p: Phone, cid: Cid, maxFailures: nat) {
    && Failures(k, p) < maxFailures && p in k.active && k.active[p] == cid
    && ChallengeKey(p, cid) in k.challenges && k.challenges[ChallengeKey(p, cid)].phone == p
  }

  lemma RedeemableIsReachable(k: Keys, p: Phone, cid: Cid, maxFailures: nat)
    ensures Redeemable(k, p, cid, maxFailures) <==> Reachable(k, p, cid, maxFailures)
  {
    if Reachable(k, p, cid, maxFailures) {
      var c := k.challenges[ChallengeKey(p, cid)];
      assert ScriptStatus(k, Attempt(p, c.device, cid, c.code), maxFailures) == Verified;
    }
  }

  /** A new id is redeemable after a send exactly when the send reported success, or the pointer to it was stored
      without an answer and its challenge could not be taken back. */
  lemma RedeemableExactlyWhenSent(k: Keys, s: SendCall, maxFailures: nat)
    requires s.phone in k.active ==> k.active[s.phone] != s.cid
    ensures Redeemable(SendEffect(k, s, maxFailures), s.phone, s.cid, maxFailures) <==>
              || SendOutcome(k, s, maxFailures) == Sent
              || (&& SendOutcome(k, s, maxFailures) == Unavailable
                  && TakesCooldown(k, s, maxFailures) && s.takeCooldown.Answered?
                  && s.storeChallenge.Answered? && s.storeActive.Lost? && s.undoChallenge.Failed?)
  {
    RedeemableIsReachable(SendEffect(k, s, maxFailures), s.phone, s.cid, maxFailures);
  }

  /** A sent code is the only one its challenge accepts, and only from the device it was sent to. */
  lemma OnlyTheSentCodeVerifies(k: Keys, s: SendCall, maxFailures: nat, d: Device, code: Code)
    requires SendOutcome(k, s, maxFailures) == Sent
    ensures ScriptStatus(SendEffect(k, s, maxFailures), Attempt(s.phone, d, s.cid, code), maxFailures) == Verified <==>
              d == s.device && code == s.code
  {
    assert Failures(SendEffect(k, s, maxFailures), s.phone) == Failures(k, s.phone);
  }

  // Taking back a key that was not there before.
  lemma TakenBack(k: Keys, s: SendCall)
    requires s.phone !in k.cooldown && ChallengeKey(s.phone, s.cid) !in k.challenges
    ensures k.cooldown + {s.phone} - {s.phone} == k.cooldown
    ensures k.challenges - {ChallengeKey(s.phone, s.cid)} == k.challenges
    ensures k.challenges[ChallengeKey(s.phone, s.cid) := Challenge(s.phone, s.device, s.code)]
            - {ChallengeKey(s.phone, s.cid)} == k.challenges
  {}

  /** The roll-back is complete if and only if nothing had been written yet, or the deletes that were due went through
      and the command that failed had not been applied: a pointer whose answer was lost is never taken back, nor a
      challenge. */
  predicate RollsBack(k: Keys, s: SendCall, maxFailures: nat) {
    || !TakesCooldown(k, s, maxFailures)
    || (&& s.takeCooldown.Answered? && !s.undoCooldown.Failed?
        && (|| s.storeChallenge.Failed?
            || (s.storeChallenge.Answered? && s.storeActive.Failed? && !s.undoChallenge.Failed?)))
  }

  lemma CooldownStays(k: Keys, s: SendCall, maxFailures: nat)
    requires TakesCooldown(k, s, maxFailures) && (s.takeCooldown.Lost? || s.undoCooldown.Failed?)
    ensures s.phone in SendEffect(k, s, maxFailures).cooldown
  {}

  lemma ChallengeStays(k: Keys, s: SendCall, maxFailures: nat)
    requires TakesCooldown(k, s, maxFailures) && s.takeCooldown.Answered?
    requires s.storeChallenge.Lost?
             || (s.storeChallenge.Answered? && !s.storeActive.Answered? && s.undoChallenge.Failed?)
    ensures ChallengeKey(s.phone, s.cid) in SendEffect(k, s, maxFailures).challenges
  {}

  lemma PointerStays(k: Keys, s: SendCall, maxFailures: nat)
    requires TakesCooldown(k, s, maxFailures) && s.takeCooldown.Answered? && s.storeChallenge.Answered?
             && s.storeActive.Lost?
    ensures s.phone in SendEffect(k, s, maxFailures).active && SendEffect(k, s, maxFailures).active[s.phone] == s.cid
  {}

  lemma RollBackRestores(k: Keys, s: SendCall, maxFailures: nat)
    requires RollsBack(k, s, maxFailures) && ChallengeKey(s.phone, s.cid) !in k.challenges
    ensures SendEffect(k, s, maxFailures) == k
  {
    if TakesCooldown(k, s, maxFailures) {
      TakenBack(k, s);
    }
  }

  /** A send that does not report success leaves the keys as they were exactly when its roll-back is complete. */
  lemma FailedSendRollsBack(k: Keys, s: SendCall, maxFailures: nat)
    requires SendOutcome(k, s, maxFailures) != Sent
    requires ChallengeKey(s.phone, s.cid) !in k.challenges && (s.phone in k.active ==> k.active[s.phone] != s.cid)
    ensures SendEffect(k, s, maxFailures) == k <==> RollsBack(k, s, maxFailures)
  {
    if RollsBack(k, s, maxFailures) {
      RollBackRestores(k, s, maxFailures);
    } else if s.takeCooldown.Lost? || s.undoCooldown.Failed? {
      CooldownStays(k, s, maxFailures);
    } else if s.storeChallenge.Answered? && s.storeActive.Lost? {
      PointerStays(k, s, maxFailures);
    } else {
      ChallengeStays(k, s, maxFailures);
    }
  }

  const EMPTY := Keys(map[], map[], map[], {}, map[], map[])

  // The connection drops after the challenge: the pointer cannot be stored and nothing can be deleted.
  const DROPPED := SendCall(1, 2, 3, 123456, Answered, Answered, Answered, Answered, Failed, Failed, Failed)

  // Only the answer to storing the pointer is lost, and every delete goes through.
  const POINTER_LOST := DROPPED.(storeActive := Lost, undoChallenge := Answered, undoCooldown := Answered)

  /** The documented roll-back fails on both: the first leaves cooldown and challenge behind, the second the pointer. */
  lemma RollBackIsIncomplete(maxFailures: nat)
    requires maxFailures > 0
    ensures SendOutcome(EMPTY, DROPPED, maxFailures) == Unavailable
    ensures SendEffect(EMPTY, DROPPED, maxFailures)
            == EMPTY.(cooldown := {1}, challenges := map[ChallengeKey(1, 3) := Challenge(1, 2, 123456)])
    ensures SendOutcome(EMPTY, POINTER_LOST, maxFailures) == Unavailable
    ensures SendEffect(EMPTY, POINTER_LOST, maxFailures) == EMPTY.(active := map[1 := 3])
  {
    assert EMPTY.cooldown + {1} == {1} && EMPTY.cooldown + {1} - {1} == {};
    var key, c := ChallengeKey(1, 3), Challenge(1, 2, 123456);
    assert EMPTY.challenges[key := c] == map[key := c] && map[key := c] - {key} == map[];
  }

  /** A pointer left behind supersedes the challenge that was active before: no code for it is accepted any more. */
  lemma LostPointerSupersedes(k: Keys, s: SendCall, maxFailures: nat, a: Attempt)
    requires TakesCooldown(k, s, maxFailures) && s.takeCooldown.Answered? && s.storeChallenge.Answered?
             && s.storeActive.Lost?
    requires a.phone == s.phone && a.cid != s.cid
    ensures SendOutcome(k, s, maxFailures) == Unavailable
    ensures ScriptStatus(SendEffect(k, s, maxFailures), a, maxFailures) == Superseded
  {
    PointerStays(k, s, maxFailures);
  }

  /** Redis, changed key by key. */
  class RedisStore {
    var isConnected: bool
    var active: map<Phone, Cid>
    var challenges: map<ChallengeKey, Challenge>
    var failures: map<Phone, nat>
    var cooldown: set<Phone>
    var reg: map<Phone, RegProof>
    var enr: map<Phone, EnrProof>

    ghost function Contents(): Keys
      reads this
    {
      Keys(active, challenges, failures, cooldown, reg, enr)
    }

    constructor ()
      ensures Contents() == Keys(map[], map[], map[], {}, map[], map[]) && !isConnected
    {
      isConnected := false;
      active, challenges, failures, cooldown, reg, enr := map[], map[], map[], {}, map[], map[];
    }

    method VerifyOtpScript(a: Attempt, maxFailures: nat) returns (status: OtpStatus)
      modifies this`active, this`challenges, this`failures
      ensures status == ScriptStatus(old(Contents()), a, maxFailures)
      ensures Contents() == ScriptEffect(old(Contents()), a, maxFailures)
      ensures status == StatusOf(old(Contents()), a, maxFailures)
      ensures reg == old(reg) && enr == old(enr) && cooldown == old(cooldown)
      ensures status == Verified ==>
                && active == old(active) - {a.phone} && failures == old(failures) - {a.phone}
                && challenges == old(challenges) - {ChallengeKey(a.phone, a.cid)}
      ensures WrongCode(old(Contents()), a, maxFailures) ==>
                && active == old(active) && challenges == old(challenges)
                && failures == old(failures)[a.phone := Failures(old(Contents()), a.phone) + 1]
      ensures status != Verified && !WrongCode(old(Contents()), a, maxFailures) ==> Contents() == old(Contents())
    {
      var failureCount: nat := 0;
      if a.phone in failures {
        failureCount := failures[a.phone];
      }
      if failureCount >= maxFailures {
        return TooManyAttempts;
      }
      if a.phone !in active {
        return NoActiveChallenge;
      }
      if active[a.phone] != a.cid {
        return Superseded;
      }
      var key := ChallengeKey(a.phone, a.cid);
      if key !in challenges {
        return ChallengeMissing;
      }
      var challenge := challenges[key];
      if challenge.phone != a.phone || challenge.device != a.device {
        return InvalidChallenge;
      }
      if challenge.code != a.code {
        failures := failures[a.phone := failureCount + 1];
        return if failures[a.phone] >= maxFailures then TooManyAttempts else InvalidOtp;
      }
      challenges := challenges - {key};
      active := active - {a.phone};
      failures := failures - {a.phone};
      return Verified;
    }

    /** The stored proof is the one the issued token consumes; an older one for the phone is gone. */
    method IssueRegistrationAuthorization(p: Phone, d: Device, h: Hash, store: Ack) returns (stored: bool)
      modifies this`reg
      ensures stored <==> isConnected && store.Answered?
      ensures reg == if isConnected && !store.Failed? then old(reg)[p := RegProof(h, p, d)] else old(reg)
      ensures stored ==> RegStatus(Contents(), p, d, h) == Consumed
    {
      if isConnected && !store.Failed? {
        reg := reg[p := RegProof(h, p, d)];
      }
      return isConnected && store.Answered?;
    }

    method IssueDeviceEnrollmentAuthorization(u: User, p: Phone, d: Device, h: Hash, store: Ack) returns (stored: bool)
      modifies this`enr
      ensures stored <==> isConnected && store.Answered?
      ensures enr == if isConnected && !store.Failed? then old(enr)[p := EnrProof(h, u, p, d)] else old(enr)
      ensures stored ==> EnrStatus(Contents(), u, p, d, h) == Consumed
    {
      if isConnected && !store.Failed? {
        enr := enr[p := EnrProof(h, u, p, d)];
      }
      return isConnected && store.Answered?;
    }

    method ConsumeRegistrationAuthorization(p: Phone, d: Device, h: Hash) returns (status: ConsumeStatus)
      modifies this`reg
      ensures status == RegStatus(old(Contents()), p, d, h)
      ensures reg == if status == Consumed then old(reg) - {p} else old(reg)
      ensures status == Missing <==> p !in old(reg)
      ensures status == Consumed <==>
                p in old(reg) && old(reg)[p].hash == h && old(reg)[p].phone == p && old(reg)[p].device == d
      ensures status == Invalid <==>
                p in old(reg) && !(old(reg)[p].hash == h && old(reg)[p].phone == p && old(reg)[p].device == d)
    {
      if p !in reg {
        return Missing;
      }
      var proof := reg[p];
      if proof.hash != h || proof.phone != p || proof.device != d {
        return Invalid;
      }
      reg := reg - {p};
      return Consumed;
    }

    method ConsumeDeviceEnrollmentAuthorization(u: User, p: Phone, d: Device, h: Hash) returns (status: ConsumeStatus)
      modifies this`enr
      ensures status == EnrStatus(old(Contents()), u, p, d, h)
      ensures enr == if status == Consumed then old(enr) - {p} else old(enr)
      ensures status == Missing <==> p !in old(enr)
      ensures status == Consumed <==>
                && p in old(enr) && old(enr)[p].hash == h && old(enr)[p].user == u
                && old(enr)[p].phone == p && old(enr)[p].device == d
      ensures status == Invalid <==>
                p in old(enr) && !(old(enr)[p].hash == h && old(enr)[p].user == u
                                   && old(enr)[p].phone == p && old(enr)[p].device == d)
    {
      if p !in enr {
        return Missing;
      }
      var proof := enr[p];
      if proof.hash != h || proof.user != u || proof.phone != p || proof.device != d {
        return Invalid;
      }
      enr := enr - {p};
      return Consumed;
    }

    /** sendOtp with nothing in between: cooldown, challenge, pointer, and the roll-back of a send that fails
        half-way. */
    method SendOtp(s: SendCall, maxFailures: nat) returns (status: SendStatus)
      modifies this`active, this`challenges, this`cooldown
      ensures status == if isConnected then SendOutcome(old(Contents()), s, maxFailures) else Unavailable
      ensures Contents() == if isConnected then SendEffect(old(Contents()), s, maxFailures) else old(Contents())
      ensures failures == old(failures) && reg == old(reg) && enr == old(enr)
      ensures status == Sent <==>
                && isConnected && s.readFailures.Answered?
                && (if s.phone in failures then failures[s.phone] else 0) < maxFailures
                && s.phone !in old(cooldown)
                && s.takeCooldown.Answered? && s.storeChallenge.Answered? && s.storeActive.Answered?
      ensures status == Sent ==>
                && cooldown == old(cooldown) + {s.phone} && active == old(active)[s.phone := s.cid]
                && challenges ==
                     old(challenges)[ChallengeKey(s.phone, s.cid) := Challenge(s.phone, s.device, s.code)]
      ensures status == Locked <==>
                && isConnected && s.readFailures.Answered?
                && (if s.phone in failures then failures[s.phone] else 0) >= maxFailures
      ensures status == CoolingDown ==> s.phone in cooldown && s.rereadCooldown.Answered?
      ensures status == CoolingDown || status == Locked ==> active == old(active) && challenges == old(challenges)
    {
      if !isConnected {
        return Unavailable;
      }
      if !s.readFailures.Answered? {
        return Unavailable;
      }
      var failureCount := if s.phone in failures then failures[s.phone] else 0;
      if failureCount >= maxFailures {
        return Locked;
      }
      var resendLockAcquired := s.takeCooldown.Answered? && s.phone !in cooldown;
      if !s.takeCooldown.Failed? {
        cooldown := cooldown + {s.phone};
      }
      if !resendLockAcquired {
        assert s.phone in old(cooldown) ==> cooldown == old(cooldown);
        return if s.rereadCooldown.Answered? && s.phone in cooldown then CoolingDown else Unavailable;
      }
      var key := ChallengeKey(s.phone, s.cid);
      if !s.storeChallenge.Failed? {
        challenges := challenges[key := Challenge(s.phone, s.device, s.code)];
      }
      if !s.storeChallenge.Answered? {
        if !s.undoCooldown.Failed? {
          cooldown := cooldown - {s.phone};
        }
        return Unavailable;
      }
      if !s.storeActive.Failed? {
        active := active[s.phone := s.cid];
      }
      if !s.storeActive.Answered? {
        if !s.undoChallenge.Failed? {
          challenges := challenges - {key};
        }
        if !s.undoCooldown.Failed? {
          cooldown := cooldown - {s.phone};
        }
        return Unavailable;
      }
      return Sent;
    }
  }
}
