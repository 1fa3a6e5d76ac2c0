/** One idempotency key: concurrent requests around the Redis marker and the database's unique column. The marker may
    expire, be deleted by a request that lost it long ago, or be out of reach; the handler may fail after its commit. */
module Idempotency {
  import opened Wrappers
  import opened Redis
  import opened Replies

  // The handler's reply is an object, given by its fields; what Redis keeps of it is a JSON object, given by its
  // members.
  type Reply = seq<Field>
  type Body = seq<Member>

  datatype Marker = Processing | Cached(body: Body)

  datatype Worker =
    | Arrived                  // next: get
    | FoundNothing             // next: set NX 'PROCESSING'
    | Handling                 // next: the handler
    | Storing(reply: Reply)    // replied; next: set the cached reply
    | Undoing                  // failed; next: del, then the error

  type ReqId = nat

  datatype State = State(
    marker: Option<Marker>,
    commits: seq<Reply>,       // replies of the transfers committed under this key, in order
    workers: map<ReqId, Worker>,
    replies: seq<Text>,        // bodies of the successful replies delivered to clients
    refused: set<ReqId>)       // requests answered with an error

  // How a handler call ends when the key is still free in the database.
  datatype Handler = Commits(reply: Reply) | CommitsUnseen(reply: Reply) | Throws

  datatype Action =
    | Arrive(id: ReqId)
    | Get(id: ReqId, connected: bool)
    | SetNx(id: ReqId, ack: Ack)
    | Handle(id: ReqId, ending: Handler)
    | Store(id: ReqId, ack: Ack)
    | Undo(id: ReqId, ack: Ack)
    | Crash(id: ReqId)
    | Expire

  function Init(): State {
    State(None, [], map[], [], {})
  }

  function Drop(s: State, i: ReqId): State {
    s.(workers := s.workers - {i})
  }

  function Refuse(s: State, i: ReqId): State {
    Drop(s, i).(refused := s.refused + {i})
  }

  function To(s: State, i: ReqId, w: Worker): State {
    s.(workers := s.workers[i := w])
  }

  predicate At(s: State, i: ReqId, w: Worker) {
    i in s.workers && s.workers[i] == w
  }

  /** The body a client gets for the handler's reply, or for a cached one. */
  function Fresh(r: Reply): Text {
    Wire(Obj(r))
  }

  function Replayed(b: Body): Text {
    Wire(Parse(JObj(b)))
  }

  /** What JSON.stringify leaves of a reply to store; None when it throws. */
  function Stored(r: Reply): Option<Body> {
    match Stringify(Obj(r))
    case Text(JObj(b)) => Some(b)
    case _ => None
  }

  /** Replying from the cache and replying afresh give the same body. */
  lemma ReplayEqualsFresh(r: Reply)
    ensures Stored(r).Some? ==> Replayed(Stored(r).value) == Fresh(r)
  {
    ReplayedReplyIsEqual(Obj(r));
  }

  function Next(s: State, a: Action): State {
    match a
    case Arrive(i) => if i in s.workers then s else To(s, i, Arrived)
    case Get(i, connected) =>
      if !At(s, i, Arrived) then s
      else if !connected || s.marker == None then To(s, i, FoundNothing)
      else (match s.marker.value
            case Processing => Refuse(s, i)
            case Cached(b) => Drop(s, i).(replies := s.replies + [Replayed(b)]))
    case SetNx(i, ack) =>
      if !At(s, i, FoundNothing) then s
      else if ack.Failed? || s.marker.Some? then Refuse(s, i)
      else if ack.Lost? then Refuse(s, i).(marker := Some(Processing))
      else To(s, i, Handling).(marker := Some(Processing))
    case Handle(i, ending) =>
      if !At(s, i, Handling) then s
      else if s.commits != [] then To(s, i, Undoing)  // the unique column refuses a second row
      else (match ending
            case Commits(r) => To(s, i, Storing(r)).(commits := s.commits + [r], replies := s.replies + [Fresh(r)])
            case CommitsUnseen(r) => To(s, i, Undoing).(commits := s.commits + [r])
            case Throws => To(s, i, Undoing))
    case Store(i, ack) =>
      if !(i in s.workers && s.workers[i].Storing?) then s
      else (match Stored(s.workers[i].reply)
            case Some(b) => if ack.Failed? then Drop(s, i) else Drop(s, i).(marker := Some(Cached(b)))
            case None => Drop(s, i))
    case Undo(i, ack) =>
      if !At(s, i, Undoing) then s
      else Refuse(if ack.Failed? then s else s.(marker := None), i)
    case Crash(i) => Drop(s, i)
    case Expire => s.(marker := None)
  }

  function Run(s: State, actions: seq<Action>): State {
    if actions == [] then s else Next(Run(s, actions[..|actions| - 1]), actions[|actions| - 1])
  }

  // ---------------------------------------------------------------- safety

  ghost predicate Inv(s: State) {
    && |s.commits| <= 1
    && (s.marker.Some? && s.marker.value.Cached? ==>
          |s.commits| == 1 && Stored(s.commits[0]) == Some(s.marker.value.body))
    && (forall i :: i in s.workers && s.workers[i].Storing? ==> s.commits == [s.workers[i].reply])
    && (s.replies != [] ==> s.commits != [])
    && (forall k :: 0 <= k < |s.replies| ==> s.commits != [] && s.replies[k] == Fresh(s.commits[0]))
  }

  lemma NextKeepsInv(s: State, a: Action)
    requires Inv(s)
    ensures Inv(Next(s, a))
  {
    var s' := Next(s, a);
    if s.commits != [] {
      ReplayEqualsFresh(s.commits[0]);
      assert s'.commits == s.commits;
      assert s'.replies == s.replies || s'.replies == s.replies + [Fresh(s.commits[0])];
    }
  }

  /** At most one transfer commits per key; whatever Redis does, a cached reply is that commit's reply as JSON, and all
      successful replies, fresh or replayed, have equal bodies. */
  lemma {:induction false} RepliesAgree(actions: seq<Action>)
    ensures Inv(Run(Init(), actions))
    ensures var s := Run(Init(), actions);
            forall j, k :: 0 <= j < |s.replies| && 0 <= k < |s.replies| ==> s.replies[j] == s.replies[k]
  {
    if actions != [] {
      RepliesAgree(actions[..|actions| - 1]);
      NextKeepsInv(Run(Init(), actions[..|actions| - 1]), actions[|actions| - 1]);
    }
  }

  /** What a request finds decides at once: a marker that says PROCESSING refuses it, a cached reply answers it, and
      neither lets it near the handler; only without a marker, or without Redis, does it go on to take the lock. */
  lemma FindingDecides(s: State, i: ReqId, connected: bool)
    requires At(s, i, Arrived)
    ensures var t := Next(s, Get(i, connected));
            && t.marker == s.marker && t.commits == s.commits
            && if connected && s.marker == Some(Processing) then
                 i !in t.workers && i in t.refused && t.replies == s.replies
               else if connected && s.marker.Some? then
                 i !in t.workers && t.refused == s.refused && t.replies == s.replies + [Replayed(s.marker.value.body)]
               else
                 At(t, i, FoundNothing) && t.refused == s.refused && t.replies == s.replies
  {}

  // ---------------------------------------------------------------- when a cached reply stays

  /** A request inside the handler, or about to delete the marker. */
  ghost predicate Straggler(s: State) {
    exists i :: At(s, i, Handling) || At(s, i, Undoing)
  }

  predicate NoExpiry(actions: seq<Action>) {
    forall k :: 0 <= k < |actions| ==> actions[k] != Expire
  }

  ghost predicate CacheStays(s: State, b: Body) {
    forall actions: seq<Action> :: NoExpiry(actions) ==> Run(s, actions).marker == Some(Cached(b))
  }

  lemma {:induction false} SafeCacheStays(s: State, b: Body, actions: seq<Action>)
    requires Inv(s) && s.marker == Some(Cached(b)) && !Straggler(s) && NoExpiry(actions)
    ensures var t := Run(s, actions); Inv(t) && t.marker == Some(Cached(b)) && !Straggler(t)
  {
    if actions != [] {
      var prefix, a := actions[..|actions| - 1], actions[|actions| - 1];
      SafeCacheStays(s, b, prefix);
      NextKeepsInv(Run(s, prefix), a);
      var t := Run(s, prefix);
      assert a != Expire;
      forall i ensures !At(Next(t, a), i, Handling) && !At(Next(t, a), i, Undoing) {
        assert !At(t, i, Handling) && !At(t, i, Undoing);
      }
    }
  }

  lemma StragglerLosesCache(s: State, b: Body, i: ReqId) returns (actions: seq<Action>)
    requires Inv(s) && s.marker == Some(Cached(b)) && (At(s, i, Handling) || At(s, i, Undoing))
    ensures NoExpiry(actions) && Run(s, actions).marker == None
  {
    if At(s, i, Undoing) {
      actions := [Undo(i, Answered)];
      assert actions[..0] == [];
    } else {
      actions := [Handle(i, Throws), Undo(i, Answered)];
      assert actions[..1] == [Handle(i, Throws)] && actions[..1][..0] == [];
      assert Run(s, actions[..1]) == Next(s, Handle(i, Throws));
    }
  }

  /** Until it expires a cached reply stays in place in every run exactly when no other request is still inside the
      handler or about to delete the marker. */
  lemma CacheStaysExactlyWithoutStragglers(s: State, b: Body)
    requires Inv(s) && s.marker == Some(Cached(b))
    ensures CacheStays(s, b) <==> !Straggler(s)
  {
    if Straggler(s) {
      var i :| At(s, i, Handling) || At(s, i, Undoing);
      var actions := StragglerLosesCache(s, b, i);
    } else {
      forall actions: seq<Action> | NoExpiry(actions) ensures Run(s, actions).marker == Some(Cached(b)) {
        SafeCacheStays(s, b, actions);
      }
    }
  }

  /** Then every request that reaches Redis is answered with the body of the one transfer that committed. */
  lemma ReplaysWithoutStragglers(s: State, b: Body, actions: seq<Action>, i: ReqId)
    requires Inv(s) && s.marker == Some(Cached(b)) && !Straggler(s) && NoExpiry(actions)
    requires At(Run(s, actions), i, Arrived)
    ensures var t := Run(s, actions);
            && Next(t, Get(i, true)).replies == t.replies + [Replayed(b)] && i !in Next(t, Get(i, true)).workers
            && t.commits != [] && Replayed(b) == Fresh(t.commits[0])
  {
    SafeCacheStays(s, b, actions);
    ReplayEqualsFresh(Run(s, actions).commits[0]);
  }

  // ---------------------------------------------------------------- when a repeated key is answered

  ghost predicate HasCached(s: State) {
    s.marker.Some? && s.marker.value.Cached?
  }

  /** The request `i`, which has just arrived, reaches Redis and gets the body of the transfer that committed. */
  ghost predicate Replays(t: State, i: ReqId) {
    t.commits != [] && Next(t, Get(i, true)).replies == t.replies + [Fresh(t.commits[0])]
  }

  /** The documented promise: until the cached reply expires, every request with the key is answered so. */
  ghost predicate AlwaysReplays(s: State) {
    forall actions, i :: NoExpiry(actions) && At(Run(s, actions), i, Arrived) ==> Replays(Run(s, actions), i)
  }

  lemma {:induction false} FreshId(ids: set<ReqId>) returns (i: ReqId)
    ensures forall j :: j in ids ==> j < i
    decreases ids
  {
    if ids == {} {
      i := 0;
    } else {
      var j :| j in ids;
      var k := FreshId(ids - {j});
      i := if k <= j then j + 1 else k;
      assert forall x :: x in ids ==> x == j || x in ids - {j};
    }
  }

  // A new request arriving after `actions`.
  lemma Arrival(s: State, actions: seq<Action>) returns (longer: seq<Action>, i: ReqId)
    requires NoExpiry(actions)
    ensures NoExpiry(longer) && At(Run(s, longer), i, Arrived)
    ensures Run(s, longer) == Next(Run(s, actions), Arrive(i))
    ensures Run(s, longer).(workers := Run(s, actions).workers) == Run(s, actions)
  {
    i := FreshId(Run(s, actions).workers.Keys);
    longer := actions + [Arrive(i)];
    assert longer[..|actions|] == actions;
  }

  lemma UncachedIsNotReplayed(s: State, actions: seq<Action>)
    requires NoExpiry(actions) && !HasCached(Run(s, actions))
    ensures !AlwaysReplays(s)
  {
    var longer, i := Arrival(s, actions);
    assert !Replays(Run(s, longer), i);
  }

  /** Every repeat that reaches Redis is answered with the committed reply, in every run without expiry, if and only
      if that reply is cached and no other request is inside the handler or about to delete the marker. */
  lemma RepeatsAreAnsweredExactly(s: State)
    requires Inv(s)
    ensures AlwaysReplays(s) <==> HasCached(s) && !Straggler(s)
  {
    if !HasCached(s) {
      assert Run(s, []) == s;
      UncachedIsNotReplayed(s, []);
    } else if Straggler(s) {
      var i :| At(s, i, Handling) || At(s, i, Undoing);
      var actions := StragglerLosesCache(s, s.marker.value.body, i);
      UncachedIsNotReplayed(s, actions);
    } else {
      forall actions, i | NoExpiry(actions) && At(Run(s, actions), i, Arrived) ensures Replays(Run(s, actions), i) {
        ReplaysWithoutStragglers(s, s.marker.value.body, actions, i);
      }
    }
  }

  /** Committed, but neither cached nor held by a request that could still cache it. */
  ghost predicate ReplyIsLost(s: State) {
    && s.commits != [] && !HasCached(s)
    && (forall i :: i in s.workers && s.workers[i].Storing? ==> Stored(s.workers[i].reply) == None)
  }

  ghost predicate NeverReplays(s: State) {
    forall actions, i :: At(Run(s, actions), i, Arrived) ==> !Replays(Run(s, actions), i)
  }

  lemma LostStaysLost(s: State, a: Action)
    requires ReplyIsLost(s)
    ensures ReplyIsLost(Next(s, a))
  {
    var s' := Next(s, a);
    forall i | i in s'.workers && s'.workers[i].Storing? ensures Stored(s'.workers[i].reply) == None {
      assert i in s.workers && s.workers[i] == s'.workers[i];
    }
  }

  lemma {:induction false} LostForGood(s: State, actions: seq<Action>)
    requires ReplyIsLost(s)
    ensures ReplyIsLost(Run(s, actions))
  {
    if actions != [] {
      LostForGood(s, actions[..|actions| - 1]);
      LostStaysLost(Run(s, actions[..|actions| - 1]), actions[|actions| - 1]);
    }
  }

  lemma CachedCanReplay(s: State, actions: seq<Action>)
    requires Inv(s) && NoExpiry(actions) && Inv(Run(s, actions)) && HasCached(Run(s, actions))
    ensures !NeverReplays(s)
  {
    var longer, i := Arrival(s, actions);
    ReplayEqualsFresh(Run(s, actions).commits[0]);
    assert Replays(Run(s, longer), i);
  }

  /** After a commit no request is ever answered from the cache again, whatever happens, if and only if the reply is
      neither cached nor still to be stored by a request that can. */
  lemma NeverAnsweredExactlyWhenLost(s: State)
    requires Inv(s) && s.commits != []
    ensures NeverReplays(s) <==> ReplyIsLost(s)
  {
    if ReplyIsLost(s) {
      forall actions, i | At(Run(s, actions), i, Arrived) ensures !Replays(Run(s, actions), i) {
        LostForGood(s, actions);
      }
    } else if HasCached(s) {
      assert Run(s, []) == s;
      CachedCanReplay(s, []);
    } else {
      var i :| i in s.workers && s.workers[i].Storing? && Stored(s.workers[i].reply).Some?;
      var actions := [Store(i, Answered)];
      assert actions[..0] == [] && Run(s, actions) == Next(s, Store(i, Answered));
      NextKeepsInv(s, Store(i, Answered));
      CachedCanReplay(s, actions);
    }
  }

  // Request 1 commits and fails before it can reply: no other request is ever involved.
  function CommitsAndFails(r: Reply): seq<Action> {
    [Arrive(1), Get(1, true), SetNx(1, Answered), Handle(1, CommitsUnseen(r)), Undo(1, Answered)]
  }

  // Request 1 replies, and Redis does not take the reply.
  function CommitsUncached(r: Reply): seq<Action> {
    [Arrive(1), Get(1, true), SetNx(1, Answered), Handle(1, Commits(r)), Store(1, Failed)]
  }

  lemma RequestOneHandles()
    ensures Next(Next(Next(Init(), Arrive(1)), Get(1, true)), SetNx(1, Answered)) ==
            State(Some(Processing), [], map[1 := Handling], [], {})
  {
    assert Init().workers[1 := Arrived][1 := FoundNothing][1 := Handling] == map[1 := Handling];
  }

  lemma CommitsAndFailsRuns(r: Reply)
    ensures Run(Init(), CommitsAndFails(r)) == State(None, [r], map[], [], {1})
  {
    RequestOneHandles();
    RunFive(Init(), CommitsAndFails(r));
    assert map[1 := Handling][1 := Undoing] - {1} == map[];
    assert [] + [r] == [r];
  }

  lemma CommitsUncachedRuns(r: Reply)
    ensures Run(Init(), CommitsUncached(r)) == State(Some(Processing), [r], map[], [Fresh(r)], {})
  {
    RequestOneHandles();
    RunFive(Init(), CommitsUncached(r));
    assert map[1 := Handling][1 := Storing(r)] - {1} == map[];
    assert [] + [r] == [r] && [] + [Fresh(r)] == [Fresh(r)];
  }

  /** The promise fails without any straggler: after a commit whose handler failed, and after one whose reply could
      not be stored, nobody is in flight, nothing has expired, and no repeat of the key is ever answered with the
      reply. */
  lemma LostRepliesAreNeverReplayed(r: Reply)
    ensures NoExpiry(CommitsAndFails(r)) && NoExpiry(CommitsUncached(r))
    ensures var s := Run(Init(), CommitsAndFails(r)); s == State(None, [r], map[], [], {1}) && NeverReplays(s)
    ensures var s := Run(Init(), CommitsUncached(r));
            s == State(Some(Processing), [r], map[], [Fresh(r)], {}) && NeverReplays(s)
  {
    CommitsAndFailsRuns(r);
    CommitsUncachedRuns(r);
    RepliesAgree(CommitsAndFails(r));
    RepliesAgree(CommitsUncached(r));
    NeverAnsweredExactlyWhenLost(State(None, [r], map[], [], {1}));
    NeverAnsweredExactlyWhenLost(State(Some(Processing), [r], map[], [Fresh(r)], {}));
  }

  // ---------------------------------------------------------------- a stale delete

  // Request 1 is slow and its marker expires; request 2 commits and caches.
  const SLOW := [Arrive(1), Get(1, true), SetNx(1, Answered), Expire]

  function Second(r: Reply): seq<Action> {
    [Arrive(2), Get(2, true), SetNx(2, Answered), Handle(2, Commits(r)), Store(2, Answered)]
  }

  // Request 1 fails and deletes the reply of request 2; request 3 finds nothing and is refused by the database.
  const DELETES := [Handle(1, Throws), Undo(1, Answered)]

  function Third(r: Reply): seq<Action> {
    [Arrive(3), Get(3, true), SetNx(3, Answered), Handle(3, Commits(r)), Undo(3, Answered)]
  }

  const AFTER_SLOW := State(None, [], map[1 := Handling], [], {})

  function AfterSecond(r: Reply, b: Body): State {
    State(Some(Cached(b)), [r], map[1 := Handling], [Fresh(r)], {})
  }

  function AfterDelete(r: Reply): State {
    State(None, [r], map[], [Fresh(r)], {1})
  }

  lemma Unroll(s: State, a: seq<Action>, k: nat)
    requires k < |a|
    ensures Run(s, a[..k + 1]) == Next(Run(s, a[..k]), a[k])
  {
    assert a[..k + 1][..k] == a[..k];
  }

  lemma SlowRuns()
    ensures Run(Init(), SLOW) == AFTER_SLOW
  {
    Unroll(Init(), SLOW, 0);
    Unroll(Init(), SLOW, 1);
    Unroll(Init(), SLOW, 2);
    Unroll(Init(), SLOW, 3);
    assert SLOW[..0] == [] && SLOW[..4] == SLOW;
    assert Run(Init(), SLOW[..3]).workers == map[1 := Handling];
  }

  lemma RunFive(s: State, a: seq<Action>)
    requires |a| == 5
    ensures Run(s, a) == Next(Next(Next(Next(Next(s, a[0]), a[1]), a[2]), a[3]), a[4])
  {
    Unroll(s, a, 0);
    Unroll(s, a, 1);
    Unroll(s, a, 2);
    Unroll(s, a, 3);
    Unroll(s, a, 4);
    assert a[..0] == [] && a[..5] == a;
    assert Run(s, a[..2]) == Next(Next(s, a[0]), a[1]);
    assert Run(s, a[..4]) == Next(Next(Run(s, a[..2]), a[2]), a[3]);
  }

  // Request 1 in the handler, request 2 at `two`, nothing committed yet.
  function WithOne(two: Worker): State {
    State(Some(Processing), [], map[1 := Handling, 2 := two], [], {})
  }

  lemma SecondLocks()
    ensures Next(Next(Next(AFTER_SLOW, Arrive(2)), Get(2, true)), SetNx(2, Answered)) == WithOne(Handling)
  {
    assert AFTER_SLOW.workers[2 := Arrived][2 := FoundNothing][2 := Handling] == map[1 := Handling, 2 := Handling];
  }

  lemma SecondCommits(r: Reply, b: Body)
    requires Stored(r) == Some(b)
    ensures Next(Next(WithOne(Handling), Handle(2, Commits(r))), Store(2, Answered)) == AfterSecond(r, b)
  {
    assert map[1 := Handling, 2 := Handling][2 := Storing(r)] == map[1 := Handling, 2 := Storing(r)];
    assert map[1 := Handling, 2 := Storing(r)] - {2} == map[1 := Handling];
    assert [] + [r] == [r];
  }

  lemma SecondRuns(r: Reply, b: Body)
    requires Stored(r) == Some(b)
    ensures Run(AFTER_SLOW, Second(r)) == AfterSecond(r, b)
  {
    RunFive(AFTER_SLOW, Second(r));
    SecondLocks();
    SecondCommits(r, b);
  }

  lemma DeleteRuns(r: Reply, b: Body)
    ensures Run(AfterSecond(r, b), DELETES) == AfterDelete(r)
  {
    Unroll(AfterSecond(r, b), DELETES, 0);
    Unroll(AfterSecond(r, b), DELETES, 1);
    assert DELETES[..0] == [] && DELETES[..2] == DELETES;
    assert Run(AfterSecond(r, b), DELETES[..1]).workers == map[1 := Undoing];
    assert Run(AfterSecond(r, b), DELETES).workers == map[];
  }

  lemma ThirdIsRefused(r: Reply)
    ensures 3 in Run(AfterDelete(r), Third(r)).refused && Run(AfterDelete(r), Third(r)).replies == [Fresh(r)]
  {
    RunFive(AfterDelete(r), Third(r));
  }

  lemma {:induction false} RunSplits(s: State, a: seq<Action>, b: seq<Action>)
    ensures Run(s, a + b) == Run(Run(s, a), b)
  {
    if b == [] {
      assert a + b == a;
    } else {
      RunSplits(s, a, b[..|b| - 1]);
      assert (a + b)[..|a + b| - 1] == a + b[..|b| - 1];
    }
  }

  /** The documented promise that a repeated key returns the cached reply until it expires does not hold, for any
      reply that can be cached: here it is cached, nothing expires afterwards, and a later request with the key is
      still refused. */
  lemma StaleDeleteLosesReply(r: Reply)
    requires Stored(r).Some?
    ensures Run(Init(), SLOW + Second(r)).marker == Some(Cached(Stored(r).value))
    ensures NoExpiry(DELETES + Third(r))
    ensures var t := Run(Run(Init(), SLOW + Second(r)), DELETES + Third(r)); 3 in t.refused && t.replies == [Fresh(r)]
  {
    var b := Stored(r).value;
    RunSplits(Init(), SLOW, Second(r));
    RunSplits(AfterSecond(r, b), DELETES, Third(r));
    SlowRuns();
    SecondRuns(r, b);
    DeleteRuns(r, b);
    ThirdIsRefused(r);
  }

  // 10 taka sent from 100: 1000 minor units and the fee of 500.
  const SENT := TransferFields("TRX1", "SEND_MONEY", "COMPLETED", "1000", "500", "2026-01-01T00:00:00.000Z", "8500")

  /** It fails for the reply of an ordinary transfer. */
  lemma StaleDeleteLosesTransfer()
    ensures Stored(SENT).Some?
    ensures Run(Init(), SLOW + Second(SENT)).marker == Some(Cached(Stored(SENT).value))
    ensures 3 in Run(Run(Init(), SLOW + Second(SENT)), DELETES + Third(SENT)).refused
  {
    TransferRepliesReplay("TRX1", "SEND_MONEY", "COMPLETED", "1000", "500", "2026-01-01T00:00:00.000Z", "8500");
    StaleDeleteLosesReply(SENT);
  }

  // ---------------------------------------------------------------- the interceptor, in place

  /** How the Redis commands and the handler of one request end; without a connection no command is sent. */
  datatype Call = Call(lock: Ack, ending: Handler, store: Ack, undo: Ack)

  function Effective(connected: bool, ack: Ack): Ack {
    if connected then ack else Failed
  }

  /** All steps of request `i`; those it does not get to change nothing. */
  function RequestActions(i: ReqId, connected: bool, c: Call): seq<Action> {
    [Arrive(i), Get(i, connected), SetNx(i, Effective(connected, c.lock)), Handle(i, c.ending), Store(i, c.store),
     Undo(i, c.undo)]
  }

  // A reply that does not stringify is not stored: the marker stays as it is.
  function AfterStore(marker: Option<Marker>, r: Reply, ack: Ack): Option<Marker> {
    if ack.Failed? || Stored(r) == None then marker else Some(Cached(Stored(r).value))
  }

  // Where the request stands: at `w` or done, having been given `reply`.
  predicate Stands(
      s: State, i: ReqId, w: Option<Worker>, marker: Option<Marker>, commits: seq<Reply>, replies: seq<Text>)
  {
    && s.marker == marker && s.commits == commits && s.replies == replies
    && (if w == None then i !in s.workers else At(s, i, w.value))
  }

  lemma RequestRuns(s: State, i: ReqId, connected: bool, c: Call)
    ensures Run(s, RequestActions(i, connected, c)) ==
            Next(Next(Next(Next(Next(Next(s, Arrive(i)), Get(i, connected)), SetNx(i, Effective(connected, c.lock))),
                                Handle(i, c.ending)), Store(i, c.store)), Undo(i, c.undo))
  {
    var a := RequestActions(i, connected, c);
    RunFive(s, a[..5]);
    assert a[..5] == [a[0], a[1], a[2], a[3], a[4]];
    Unroll(s, a, 5);
    assert a[..6] == a;
  }

  lemma RequestLocks(s: State, i: ReqId, connected: bool, c: Call)
    requires i !in s.workers
    ensures var lock := Effective(connected, c.lock);
            var t := Next(Next(Next(s, Arrive(i)), Get(i, connected)), SetNx(i, lock));
            if connected && s.marker.Some? && s.marker.value.Cached?
            then Stands(t, i, None, s.marker, s.commits, s.replies + [Replayed(s.marker.value.body)])
            else if s.marker.Some? || lock.Failed? then Stands(t, i, None, s.marker, s.commits, s.replies)
            else Stands(t, i, if lock.Lost? then None else Some(Handling), Some(Processing), s.commits, s.replies)
  {}

  lemma RequestHandled(s: State, i: ReqId, c: Call)
    requires At(s, i, Handling)
    ensures var t := Next(Next(Next(s, Handle(i, c.ending)), Store(i, c.store)), Undo(i, c.undo));
            if s.commits == [] && c.ending.Commits?
            then Stands(t, i, None, AfterStore(s.marker, c.ending.reply, c.store),
                        s.commits + [c.ending.reply], s.replies + [Fresh(c.ending.reply)])
            else Stands(t, i, None, if c.undo.Failed? then s.marker else None,
                        if s.commits == [] && c.ending.CommitsUnseen? then s.commits + [c.ending.reply] else s.commits,
                        s.replies)
  {}

  lemma EndedStays(s: State, i: ReqId, c: Call)
    requires i !in s.workers
    ensures Next(Next(Next(s, Handle(i, c.ending)), Store(i, c.store)), Undo(i, c.undo)) == s
  {}

  /** All steps of one request with nothing in between: replay, conflict, or handler and then cache or clean-up. */
  lemma UndisturbedRequest(s: State, i: ReqId, connected: bool, c: Call)
    requires i !in s.workers
    ensures var t, lock := Run(s, RequestActions(i, connected, c)), Effective(connected, c.lock);
            if connected && s.marker.Some? && s.marker.value.Cached?
            then Stands(t, i, None, s.marker, s.commits, s.replies + [Replayed(s.marker.value.body)])
            else if s.marker.Some? || lock.Failed? then Stands(t, i, None, s.marker, s.commits, s.replies)
            else if lock.Lost? then Stands(t, i, None, Some(Processing), s.commits, s.replies)
            else if s.commits == [] && c.ending.Commits?
            then Stands(t, i, None, AfterStore(Some(Processing), c.ending.reply, c.store),
                        s.commits + [c.ending.reply], s.replies + [Fresh(c.ending.reply)])
            else Stands(t, i, None, if c.undo.Failed? then Some(Processing) else None,
                        if s.commits == [] && c.ending.CommitsUnseen? then s.commits + [c.ending.reply] else s.commits,
                        s.replies)
  {
    RequestRuns(s, i, connected, c);
    RequestLocks(s, i, connected, c);
    var locked := Next(Next(Next(s, Arrive(i)), Get(i, connected)), SetNx(i, Effective(connected, c.lock)));
    if i in locked.workers { RequestHandled(locked, i, c); } else { EndedStays(locked, i, c); }
  }

  class IdempotencyInterceptor {
    var isConnected: bool
    var marker: Option<Marker>
    var commits: seq<Reply>

    constructor ()
      ensures marker == None && commits == [] && !isConnected
    {
      isConnected, marker, commits := false, None, [];
    }

    // The tables with no request under way.
    ghost function Quiet(): State
      reads this
    {
      State(marker, commits, map[], [], {})
    }

    /** One request with nothing in between; None is an error answer. It changes marker and database, and answers,
        exactly as the request's own steps do. */
    method Intercept(c: Call) returns (reply: Option<Text>)
      modifies this`marker, this`commits
      ensures var t := Run(old(Quiet()), RequestActions(0, isConnected, c));
              && marker == t.marker && commits == t.commits && 0 !in t.workers
              && t.replies == if reply.Some? then [reply.value] else []
      ensures isConnected && old(marker).Some? && old(marker).value.Cached? ==>
                reply == Some(Replayed(old(marker).value.body)) && commits == old(commits)
      ensures !isConnected || old(marker) == Some(Processing) ==> reply == None && commits == old(commits)
      ensures reply.Some? && !(isConnected && old(marker).Some?) ==>
                old(commits) == [] && |commits| == 1 && reply.value == Fresh(commits[0])
    {
      UndisturbedRequest(Quiet(), 0, isConnected, c);
      var cacheState := if isConnected then marker else None;
      if cacheState == Some(Processing) {
        return None;
      }
      if cacheState.Some? {
        return Some(Replayed(cacheState.value.body));
      }
      if !isConnected || c.lock.Failed? {
        return None;
      }
      marker := Some(Processing);
      if c.lock.Lost? {
        return None;
      }
      if commits == [] && !c.ending.Throws? {
        commits := [c.ending.reply];
        if c.ending.Commits? {
          var stored := Stored(c.ending.reply);
          if !c.store.Failed? && stored.Some? {
            marker := Some(Cached(stored.value));
          }
          return Some(Fresh(c.ending.reply));
        }
      }
      if !c.undo.Failed? {
        marker := None;
      }
      return None;
    }
  }
}
