/** The ledger over every interleaved run: balance chains, conservation, fee revenue, balanced postings. */
module Books {
  import opened Wrappers
  import opened Bank
  import opened Interleaving

  function Signed(e: Entry): int {
    if e.dir == Credit then e.amount else -e.amount
  }

  // ---------------------------------------------------------------- the chain of one wallet

  /** The entries of `w` in `ledger` lead its balance from `opening` to `closing`: each balanceAfter is the
      balance before it plus the signed amount. */
  ghost predicate Chain(ledger: seq<Entry>, w: WalletId, opening: int, closing: int) {
    if ledger == [] then opening == closing
    else
      var e, rest := ledger[|ledger| - 1], ledger[..|ledger| - 1];
      if e.wallet == w then e.balanceAfter == closing && Chain(rest, w, opening, closing - Signed(e))
      else Chain(rest, w, opening, closing)
  }

  lemma PostingExtendsChain(ledger: seq<Entry>, w: WalletId, opening: int, ws: map<WalletId, Wallet>, e: Entry)
    requires w in ws && e.wallet in ws
    requires Chain(ledger, w, opening, ws[w].balance)
    requires e.balanceAfter == Move(ws, e.wallet, Signed(e))[e.wallet].balance
    ensures Chain(ledger + [e], w, opening, Move(ws, e.wallet, Signed(e))[w].balance)
  {
    assert (ledger + [e])[..|ledger|] == ledger;
  }

  /** Between two consecutive entries of a wallet the balance moves by the later one's amount. */
  lemma {:induction false} ConsecutiveEntries(
      ledger: seq<Entry>, w: WalletId, opening: int, closing: int, i: nat, j: nat)
    requires Chain(ledger, w, opening, closing)
    requires i < j < |ledger| && ledger[i].wallet == w && ledger[j].wallet == w
    requires forall k :: i < k < j ==> ledger[k].wallet != w
    ensures ledger[j].balanceAfter == ledger[i].balanceAfter + Signed(ledger[j])
  {
    var e, rest := ledger[|ledger| - 1], ledger[..|ledger| - 1];
    var before := if e.wallet == w then closing - Signed(e) else closing;
    if j < |ledger| - 1 {
      ConsecutiveEntries(rest, w, opening, before, i, j);
    } else {
      LastEntry(rest, w, opening, before, i);
    }
  }

  /** The last entry of a wallet states its closing balance. */
  lemma {:induction false} LastEntry(ledger: seq<Entry>, w: WalletId, opening: int, closing: int, i: nat)
    requires Chain(ledger, w, opening, closing)
    requires i < |ledger| && ledger[i].wallet == w && forall k :: i < k < |ledger| ==> ledger[k].wallet != w
    ensures ledger[i].balanceAfter == closing
  {
    if i < |ledger| - 1 {
      LastEntry(ledger[..|ledger| - 1], w, opening, closing, i);
    }
  }

  /** The first entry of a wallet starts from its opening balance. */
  lemma {:induction false} FirstEntry(ledger: seq<Entry>, w: WalletId, opening: int, closing: int, i: nat)
    requires Chain(ledger, w, opening, closing)
    requires i < |ledger| && ledger[i].wallet == w && forall k :: 0 <= k < i ==> ledger[k].wallet != w
    ensures ledger[i].balanceAfter == opening + Signed(ledger[i])
  {
    var e, rest := ledger[|ledger| - 1], ledger[..|ledger| - 1];
    if i < |ledger| - 1 {
      FirstEntry(rest, w, opening, if e.wallet == w then closing - Signed(e) else closing, i);
    } else {
      NoEntries(rest, w, opening, closing - Signed(e));
    }
  }

  lemma {:induction false} NoEntries(ledger: seq<Entry>, w: WalletId, opening: int, closing: int)
    requires Chain(ledger, w, opening, closing) && forall k :: 0 <= k < |ledger| ==> ledger[k].wallet != w
    ensures opening == closing
  {
    if ledger != [] {
      NoEntries(ledger[..|ledger| - 1], w, opening, closing);
    }
  }

  // ---------------------------------------------------------------- the total of all balances

  ghost function SumOver(ws: map<WalletId, Wallet>, ks: set<WalletId>): int
    requires ks <= ws.Keys
  {
    if ks == {} then 0 else
      var k :| k in ks;
      ws[k].balance + SumOver(ws, ks - {k})
  }

  ghost function Total(ws: map<WalletId, Wallet>): int {
    SumOver(ws, ws.Keys)
  }

  lemma {:induction false} SumTakesOut(ws: map<WalletId, Wallet>, ks: set<WalletId>, k: WalletId)
    requires ks <= ws.Keys && k in ks
    ensures SumOver(ws, ks) == ws[k].balance + SumOver(ws, ks - {k})
    decreases ks
  {
    var j :| j in ks && SumOver(ws, ks) == ws[j].balance + SumOver(ws, ks - {j});
    if j != k {
      SumTakesOut(ws, ks - {j}, k);
      SumTakesOut(ws, ks - {k}, j);
      assert ks - {j} - {k} == ks - {k} - {j};
    }
  }

  lemma {:induction false} SumAgrees(v: map<WalletId, Wallet>, w: map<WalletId, Wallet>, ks: set<WalletId>)
    requires ks <= v.Keys && ks <= w.Keys && forall k :: k in ks ==> v[k].balance == w[k].balance
    ensures SumOver(v, ks) == SumOver(w, ks)
    decreases ks
  {
    if ks != {} {
      var k :| k in ks;
      SumTakesOut(v, ks, k);
      SumTakesOut(w, ks, k);
      SumAgrees(v, w, ks - {k});
    }
  }

  lemma MoveChangesTotal(ws: map<WalletId, Wallet>, w: WalletId, delta: int)
    requires w in ws
    ensures Total(Move(ws, w, delta)) == Total(ws) + delta
  {
    var moved := Move(ws, w, delta);
    assert moved.Keys == ws.Keys;
    SumTakesOut(ws, ws.Keys, w);
    SumTakesOut(moved, ws.Keys, w);
    SumAgrees(ws, moved, ws.Keys - {w});
  }

  // ---------------------------------------------------------------- fees and postings

  function Fees(rows: seq<TxRow>): int {
    if rows == [] then 0 else Fees(rows[..|rows| - 1]) + rows[|rows| - 1].fee
  }

  function EntriesOf(ledger: seq<Entry>, key: Key): seq<Entry> {
    if ledger == [] then []
    else
      var e, rest := ledger[|ledger| - 1], EntriesOf(ledger[..|ledger| - 1], key);
      if e.key == key then rest + [e] else rest
  }

  lemma EntriesOfAppend(ledger: seq<Entry>, e: Entry, key: Key)
    ensures EntriesOf(ledger + [e], key) ==
            if e.key == key then EntriesOf(ledger, key) + [e] else EntriesOf(ledger, key)
  {
    assert (ledger + [e])[..|ledger|] == ledger;
  }

  lemma {:induction false} EntriesOfNone(ledger: seq<Entry>, key: Key)
    requires forall i :: 0 <= i < |ledger| ==> ledger[i].key != key
    ensures EntriesOf(ledger, key) == []
  {
    if ledger != [] {
      EntriesOfNone(ledger[..|ledger| - 1], key);
    }
  }

  // An entry without its running balance.
  datatype Posting = Posting(wallet: WalletId, dir: Direction, amount: int)

  function PostingOf(e: Entry): Posting {
    Posting(e.wallet, e.dir, e.amount)
  }

  function Postings(es: seq<Entry>): seq<Posting> {
    seq(|es|, i requires 0 <= i < |es| => PostingOf(es[i]))
  }

  function SignedSum(es: seq<Entry>): int {
    if es == [] then 0 else SignedSum(es[..|es| - 1]) + Signed(es[|es| - 1])
  }

  /** The entries of one transaction: two or three, on distinct wallets, debits equal to credits. */
  ghost predicate BalancedEntries(es: seq<Entry>, sys: WalletId, row: TxRow) {
    && Postings(es) == [Posting(row.sender, Debit, row.amount + row.fee), Posting(row.receiver, Credit, row.amount)]
                       + (if row.fee == 0 then [] else [Posting(sys, Credit, row.fee)])
    && row.sender != row.receiver && row.sender != sys && row.receiver != sys
    && SignedSum(es) == 0
  }

  // ---------------------------------------------------------------- the books since the opening

  function Fresh(opening: Db, db: Db): seq<Entry>
    requires |opening.ledger| <= |db.ledger|
  {
    db.ledger[|opening.ledger|..]
  }

  function FreshRows(opening: Db, db: Db): seq<TxRow>
    requires |opening.transactions| <= |db.transactions|
  {
    db.transactions[|opening.transactions|..]
  }

  /** Rows are only added. */
  ghost predicate Extends(opening: Db, db: Db) {
    && opening.ledger <= db.ledger && opening.transactions <= db.transactions
    && db.wallets.Keys == opening.wallets.Keys
  }

  ghost predicate Chained(opening: Db, db: Db) {
    Extends(opening, db) &&
    forall w :: w in db.wallets ==> Chain(Fresh(opening, db), w, opening.wallets[w].balance, db.wallets[w].balance)
  }

  ghost predicate Conserved(opening: Db, db: Db) {
    Total(db.wallets) == Total(opening.wallets)
  }

  ghost predicate Collected(opening: Db, db: Db, sys: WalletId) {
    && Extends(opening, db) && sys in db.wallets
    && db.wallets[sys].balance == opening.wallets[sys].balance + Fees(FreshRows(opening, db))
  }

  ghost predicate RowBalances(opening: Db, db: Db, sys: WalletId, row: TxRow)
    requires Extends(opening, db)
  {
    BalancedEntries(EntriesOf(Fresh(opening, db), row.key), sys, row)
  }

  ghost predicate PostingsBalance(opening: Db, db: Db, sys: WalletId) {
    && Extends(opening, db)
    && (forall i :: 0 <= i < |Fresh(opening, db)| ==> HasKey(db, Fresh(opening, db)[i].key))
    && (forall i :: 0 <= i < |FreshRows(opening, db)| ==> RowBalances(opening, db, sys, FreshRows(opening, db)[i]))
  }

  ghost predicate BooksOk(opening: Db, db: Db, sys: WalletId) {
    Chained(opening, db) && Conserved(opening, db) && Collected(opening, db, sys) && PostingsBalance(opening, db, sys)
  }

  lemma OpeningBooks(opening: Db, sys: WalletId)
    requires sys in opening.wallets
    ensures BooksOk(opening, opening, sys)
  {}

  lemma OthersLeaveBalances(db: Db, sys: WalletId, op: Op)
    requires !op.Transfer? && Apply(db, sys, op).Ok?
    ensures var d := Apply(db, sys, op).value;
            && d.wallets.Keys == db.wallets.Keys && d.ledger == db.ledger && d.transactions == db.transactions
            && (forall w :: w in db.wallets ==> d.wallets[w].balance == db.wallets[w].balance)
  {}

  lemma SameBooks(opening: Db, db: Db, d: Db, sys: WalletId)
    requires BooksOk(opening, db, sys)
    requires d.wallets.Keys == db.wallets.Keys && d.ledger == db.ledger && d.transactions == db.transactions
    requires forall w :: w in db.wallets ==> d.wallets[w].balance == db.wallets[w].balance
    ensures BooksOk(opening, d, sys)
  {
    SumAgrees(d.wallets, db.wallets, db.wallets.Keys);
    assert forall k :: HasKey(db, k) ==> HasKey(d, k);
    assert forall i :: 0 <= i < |FreshRows(opening, db)| ==> RowBalances(opening, db, sys, FreshRows(opening, db)[i]);
  }

  /** Operations other than transfers leave balances, transactions and ledger alone. */
  lemma OthersLeaveBooks(opening: Db, db: Db, sys: WalletId, op: Op)
    requires BooksOk(opening, db, sys) && !op.Transfer? && Apply(db, sys, op).Ok?
    ensures BooksOk(opening, Apply(db, sys, op).value, sys)
  {
    OthersLeaveBalances(db, sys, op);
    SameBooks(opening, db, Apply(db, sys, op).value, sys);
  }

  lemma TransferExtendsChain(f: seq<Entry>, db: Db, sys: WalletId, req: Request, w: WalletId, opening: int)
    requires Participants(db, sys, req) && w in db.wallets && Chain(f, w, opening, db.wallets[w].balance)
    ensures Chain(f + Entries(db, sys, req), w, opening, AfterFee(db, sys, req)[w].balance)
  {
    var g := f + [DebitEntry(db, req)];
    var h := g + [CreditEntry(db, req)];
    PostingExtendsChain(f, w, opening, db.wallets, DebitEntry(db, req));
    PostingExtendsChain(g, w, opening, AfterDebit(db, req), CreditEntry(db, req));
    if req.fee != 0 {
      PostingExtendsChain(h, w, opening, AfterCredit(db, req), FeeEntry(db, sys, req));
      assert f + Entries(db, sys, req) == h + [FeeEntry(db, sys, req)];
    } else {
      assert f + Entries(db, sys, req) == h;
    }
  }

  lemma TransferExtendsChains(opening: Db, db: Db, sys: WalletId, req: Request)
    requires Chained(opening, db) && Participants(db, sys, req)
    ensures Chained(opening, Posted(db, sys, req))
  {
    var d := Posted(db, sys, req);
    assert Fresh(opening, d) == Fresh(opening, db) + Entries(db, sys, req);
    assert d.wallets.Keys == db.wallets.Keys;
    forall w | w in db.wallets
      ensures Chain(Fresh(opening, d), w, opening.wallets[w].balance, d.wallets[w].balance)
    {
      TransferExtendsChain(Fresh(opening, db), db, sys, req, w, opening.wallets[w].balance);
    }
  }

  lemma TransferConserves(db: Db, sys: WalletId, req: Request)
    requires Participants(db, sys, req)
    ensures Total(AfterFee(db, sys, req)) == Total(db.wallets)
  {
    MoveChangesTotal(db.wallets, req.sender, -req.Total());
    MoveChangesTotal(AfterDebit(db, req), req.receiver, req.amount);
    if req.fee != 0 { MoveChangesTotal(AfterCredit(db, req), sys, req.fee); }
  }

  lemma TransferCollects(opening: Db, db: Db, sys: WalletId, req: Request)
    requires Collected(opening, db, sys) && Participants(db, sys, req) && Apart(req, sys)
    ensures Collected(opening, Posted(db, sys, req), sys)
  {
    var d := Posted(db, sys, req);
    assert FreshRows(opening, d) == FreshRows(opening, db) + [req.Row()];
    assert FreshRows(opening, d)[..|FreshRows(opening, db)|] == FreshRows(opening, db);
  }

  lemma NewEntriesBalance(db: Db, sys: WalletId, req: Request)
    requires Participants(db, sys, req) && Apart(req, sys) && req.sender != req.receiver
    ensures BalancedEntries(Entries(db, sys, req), sys, req.Row())
  {
    var es := Entries(db, sys, req);
    assert es[..1] == [es[0]] && es[..1][..0] == [];
    assert es[..2] == [es[0], es[1]] && es[..2][..1] == es[..1];
    assert SignedSum(es[..1]) == Signed(es[0]);
    assert SignedSum(es[..2]) == Signed(es[0]) + Signed(es[1]);
    if req.fee == 0 { assert es == es[..2]; } else { assert es[..|es| - 1] == es[..2]; }
  }

  lemma EntriesOfPosted(f: seq<Entry>, db: Db, sys: WalletId, req: Request, key: Key)
    requires Participants(db, sys, req)
    ensures EntriesOf(f + Entries(db, sys, req), key) ==
            if key == req.key then EntriesOf(f, key) + Entries(db, sys, req) else EntriesOf(f, key)
  {
    var g := f + [DebitEntry(db, req)];
    var h := g + [CreditEntry(db, req)];
    EntriesOfAppend(f, DebitEntry(db, req), key);
    EntriesOfAppend(g, CreditEntry(db, req), key);
    if req.fee == 0 {
      assert f + Entries(db, sys, req) == h;
    } else {
      EntriesOfAppend(h, FeeEntry(db, sys, req), key);
      assert f + Entries(db, sys, req) == h + [FeeEntry(db, sys, req)];
    }
  }

  lemma NewRowBalances(opening: Db, db: Db, sys: WalletId, req: Request)
    requires PostingsBalance(opening, db, sys) && Participants(db, sys, req) && Apart(req, sys)
             && req.sender != req.receiver
    requires !HasKey(db, req.key) && Extends(opening, Posted(db, sys, req))
    requires Fresh(opening, Posted(db, sys, req)) == Fresh(opening, db) + Entries(db, sys, req)
    ensures RowBalances(opening, Posted(db, sys, req), sys, req.Row())
  {
    EntriesOfNone(Fresh(opening, db), req.key);
    NewEntriesBalance(db, sys, req);
    EntriesOfPosted(Fresh(opening, db), db, sys, req, req.key);
    assert [] + Entries(db, sys, req) == Entries(db, sys, req);
  }

  lemma OldRowBalances(opening: Db, db: Db, sys: WalletId, req: Request, row: TxRow)
    requires Extends(opening, db) && Participants(db, sys, req) && RowBalances(opening, db, sys, row)
             && row.key != req.key
    requires Extends(opening, Posted(db, sys, req))
    requires Fresh(opening, Posted(db, sys, req)) == Fresh(opening, db) + Entries(db, sys, req)
    ensures RowBalances(opening, Posted(db, sys, req), sys, row)
  {
    EntriesOfPosted(Fresh(opening, db), db, sys, req, row.key);
  }

  lemma TransferPosts(opening: Db, db: Db, sys: WalletId, req: Request)
    requires PostingsBalance(opening, db, sys) && Participants(db, sys, req) && Apart(req, sys)
             && req.sender != req.receiver
    requires !HasKey(db, req.key)
    ensures PostingsBalance(opening, Posted(db, sys, req), sys)
  {
    var d := Posted(db, sys, req);
    var f, rows := Fresh(opening, db), FreshRows(opening, db);
    assert Fresh(opening, d) == f + Entries(db, sys, req);
    assert FreshRows(opening, d) == rows + [req.Row()];
    forall k ensures HasKey(d, k) <==> HasKey(db, k) || k == req.key { HasKeyAfter(db, sys, req, k); }
    NewRowBalances(opening, db, sys, req);
    forall i | 0 <= i < |rows| ensures RowBalances(opening, d, sys, rows[i]) {
      assert db.transactions[|opening.transactions| + i] == rows[i];
      OldRowBalances(opening, db, sys, req, rows[i]);
    }
  }

  lemma ApplyKeepsBooks(opening: Db, db: Db, sys: WalletId, op: Op)
    requires BooksOk(opening, db, sys) && Good(db, sys) && Admissible(db, op) && Apply(db, sys, op).Ok?
    ensures BooksOk(opening, Apply(db, sys, op).value, sys)
  {
    match op
    case Transfer(req) =>
      assert Apart(req, sys);
      TransferExtendsChains(opening, db, sys, req);
      TransferConserves(db, sys, req);
      TransferCollects(opening, db, sys, req);
      TransferPosts(opening, db, sys, req);
    case _ => OthersLeaveBooks(opening, db, sys, op);
  }

  /** Over every interleaving: each wallet's new ledger entries chain from its opening balance to its present one,
      the total of all balances is constant, SYSTEM holds its opening balance plus every fee, and each committed
      transaction has two or three entries on distinct wallets whose debits equal its credits. */
  lemma {:induction false} BooksBalanceInEveryRun(opening: Db, sys: WalletId, actions: seq<Action>)
    requires Good(opening, sys)
    ensures BooksOk(opening, Reached(opening, sys, actions).db, sys)
  {
    if actions == [] {
      OpeningBooks(opening, sys);
    } else {
      var prefix, a := actions[..|actions| - 1], actions[|actions| - 1];
      BooksBalanceInEveryRun(opening, sys, prefix);
      RunKeepsInv(opening, sys, prefix);
      EachCommitIsAtomic(opening, sys, prefix, a);
      assert prefix + [a] == actions;
      var s, s' := Reached(opening, sys, prefix), Reached(opening, sys, actions);
      if s'.log != s.log {
        ApplyKeepsBooks(opening, s.db, sys, s'.log[|s.log|].op);
      }
    }
  }

  // ---------------------------------------------------------------- replies

  /** A transfer's reply states the balance its own debit entry records for the sender. */
  ghost predicate ReplyIsPosted(opening: Db, db: Db, c: Committed) {
    c.op.Transfer? ==>
      && Extends(opening, db)
      && var es := EntriesOf(Fresh(opening, db), c.op.req.key);
      && es != [] && es[0].wallet == c.op.req.sender && es[0].dir == Debit
      && c.newBalance == Some(es[0].balanceAfter)
  }

  lemma NewEntriesComeFirst(opening: Db, db: Db, sys: WalletId, req: Request)
    requires PostingsBalance(opening, db, sys) && Participants(db, sys, req) && !HasKey(db, req.key)
    ensures EntriesOf(Fresh(opening, db) + Entries(db, sys, req), req.key) == Entries(db, sys, req)
  {
    EntriesOfNone(Fresh(opening, db), req.key);
    EntriesOfPosted(Fresh(opening, db), db, sys, req, req.key);
    assert [] + Entries(db, sys, req) == Entries(db, sys, req);
  }

  lemma NewReplyIsPosted(opening: Db, db: Db, sys: WalletId, c: Committed)
    requires PostingsBalance(opening, db, sys) && c.op.Transfer? && c.op.req.sender != sys
    requires Participants(db, sys, c.op.req) && !HasKey(db, c.op.req.key)
    requires c.newBalance == Some(ReportedBalance(db, Some(sys), c.op.req))
    ensures ReplyIsPosted(opening, Posted(db, sys, c.op.req), c)
  {
    var req, d := c.op.req, Posted(db, sys, c.op.req);
    NewEntriesComeFirst(opening, db, sys, req);
    assert d.wallets.Keys == db.wallets.Keys;
    assert Fresh(opening, d) == Fresh(opening, db) + Entries(db, sys, req);
    assert Entries(db, sys, req)[0] == DebitEntry(db, req);
  }

  lemma OldReplyStaysPosted(opening: Db, db: Db, sys: WalletId, op: Op, c: Committed)
    requires Apply(db, sys, op).Ok? && ReplyIsPosted(opening, db, c)
    requires c.op.Transfer? ==> HasKey(db, c.op.req.key)
    ensures ReplyIsPosted(opening, Apply(db, sys, op).value, c)
  {
    if c.op.Transfer? && op.Transfer? {
      assert Fresh(opening, Posted(db, sys, op.req)) == Fresh(opening, db) + Entries(db, sys, op.req);
      EntriesOfPosted(Fresh(opening, db), db, sys, op.req, c.op.req.key);
    } else if c.op.Transfer? {
      OthersLeaveBalances(db, sys, op);
    }
  }

  ghost predicate RepliesPosted(opening: Db, s: State) {
    forall k :: 0 <= k < |s.log| ==> ReplyIsPosted(opening, s.db, s.log[k])
  }

  // The operation just committed is the last of the log.
  ghost predicate CommittedLast(s: State, s': State, sys: WalletId, c: Committed) {
    && s'.log == s.log + [c] && Admissible(s.db, c.op) && Apply(s.db, sys, c.op) == Ok(s'.db)
    && (c.op.Transfer? ==> c.newBalance == Some(ReportedBalance(s.db, Some(sys), c.op.req)))
  }

  lemma CommitPostsReply(opening: Db, s: State, s': State, sys: WalletId, c: Committed)
    requires SchemaOk(s.db, sys) && PostingsBalance(opening, s.db, sys) && c.op.Transfer?
             && CommittedLast(s, s', sys, c)
    ensures ReplyIsPosted(opening, s'.db, c)
  {
    assert Apart(c.op.req, sys);
    NewReplyIsPosted(opening, s.db, sys, c);
  }

  lemma CommitKeepsReplies(opening: Db, s: State, s': State, sys: WalletId, c: Committed)
    requires SchemaOk(s.db, sys) && PostingsBalance(opening, s.db, sys) && KeysLogged(s)
    requires RepliesPosted(opening, s) && CommittedLast(s, s', sys, c)
    ensures RepliesPosted(opening, s')
  {
    if c.op.Transfer? { CommitPostsReply(opening, s, s', sys, c); }
    forall k | 0 <= k < |s.log| ensures ReplyIsPosted(opening, s'.db, s.log[k]) {
      OldReplyStaysPosted(opening, s.db, sys, c.op, s.log[k]);
    }
  }

  /** Over every interleaving, whatever ran between its statements, the reply of each committed transfer is the
      balanceAfter of that transfer's own debit entry. */
  lemma {:induction false} EveryReplyIsPosted(opening: Db, sys: WalletId, actions: seq<Action>)
    requires Good(opening, sys)
    ensures RepliesPosted(opening, Reached(opening, sys, actions))
  {
    if actions != [] {
      var prefix, a := actions[..|actions| - 1], actions[|actions| - 1];
      var s, s' := Reached(opening, sys, prefix), Reached(opening, sys, prefix + [a]);
      EveryReplyIsPosted(opening, sys, prefix);
      EachCommitIsAtomic(opening, sys, prefix, a);
      assert prefix + [a] == actions;
      if s'.log != s.log {
        BooksBalanceInEveryRun(opening, sys, prefix);
        RunKeepsInv(opening, sys, prefix);
        OneCommitPerKey(opening, sys, prefix);
        CommitKeepsReplies(opening, s, s', sys, s'.log[|s.log|]);
      }
    }
  }
}
