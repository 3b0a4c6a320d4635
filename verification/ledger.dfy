/** All wallets together: a book of accounts in which an absent owner has the
    initial fund, with the history of everything recorded in it. */
module Ledger {
  import opened Common
  import opened Sums
  import opened Wallets
  import WalletStore

  datatype Entry = Entry(owner: string, op: Op)

  datatype Book = Book(wallets: map<string, State>, history: seq<Entry>)

  datatype Posting = Posting(book: Book, error: Option<Error>)

  function WalletOf(b: Book, owner: string): State
  {
    if owner in b.wallets then b.wallets[owner] else FRESH
  }

  /** One wallet operation, atomic on its own wallet. */
  function Post(b: Book, e: Entry): Posting
  {
    var s := WalletOf(b, e.owner);
    match Apply(s, e.op)
    case Rejected(error) => Posting(b, Some(error))
    case Done(next) =>
      Posting(Book(b.wallets[e.owner := next], if Recorded(s, e.op) then b.history + [e] else b.history), None)
  }

  /** Several in a row; the first refusal raises and skips the rest. */
  function PostAll(b: Book, entries: seq<Entry>): Posting
    decreases |entries|
  {
    if entries == [] then Posting(b, None) else
      var first := Post(b, entries[0]);
      if first.error.Some? then first else PostAll(first.book, entries[1..])
  }

  // ---- the history explains the book ----

  function OpsOf(history: seq<Entry>, owner: string): seq<Op>
  {
    if history == [] then []
    else (if history[0].owner == owner then [history[0].op] else []) + OpsOf(history[1..], owner)
  }

  lemma {:induction false} OpsOfAppend(history: seq<Entry>, e: Entry, owner: string)
    ensures OpsOf(history + [e], owner)
         == if e.owner == owner then OpsOf(history, owner) + [e.op] else OpsOf(history, owner)
  {
    if history == [] {
      assert [e][1..] == [];
    } else {
      assert (history + [e])[1..] == history[1..] + [e];
      OpsOfAppend(history[1..], e, owner);
    }
  }

  /** Every wallet of `b` is its own history replayed from the empty book, and is
      well formed. */
  ghost predicate Audited(b: Book)
  {
    forall owner ::
      && Run(FRESH, OpsOf(b.history, owner)) == WalletOf(b, owner)
      && History(FRESH, OpsOf(b.history, owner)) == OpsOf(b.history, owner)
      && WellFormed(WalletOf(b, owner))
  }

  const EMPTY := Book(map[], [])

  lemma EmptyIsAudited()
    ensures Audited(EMPTY)
  {
  }

  lemma PostKeepsAudited(b: Book, e: Entry)
    requires Audited(b)
    ensures Audited(Post(b, e).book)
  {
    var after := Post(b, e).book;
    var s := WalletOf(b, e.owner);
    StepKeepsWellFormed(s, e.op);
    forall owner
      ensures Run(FRESH, OpsOf(after.history, owner)) == WalletOf(after, owner)
      ensures History(FRESH, OpsOf(after.history, owner)) == OpsOf(after.history, owner)
      ensures WellFormed(WalletOf(after, owner))
    {
      assert Run(FRESH, OpsOf(b.history, owner)) == WalletOf(b, owner);
      OpsOfAppend(b.history, e, owner);
      RunAppend(FRESH, OpsOf(b.history, owner), e.op);
    }
  }

  lemma {:induction false} PostAllKeepsAudited(b: Book, entries: seq<Entry>)
    requires Audited(b)
    ensures Audited(PostAll(b, entries).book)
    decreases |entries|
  {
    if entries != [] {
      PostKeepsAudited(b, entries[0]);
      if Post(b, entries[0]).error.None? { PostAllKeepsAudited(Post(b, entries[0]).book, entries[1..]); }
    }
  }

  function Opens(b: Book, owner: string, id: string): nat { Opened(OpsOf(b.history, owner), id) }
  function Closings(b: Book, owner: string, id: string): nat { Closed(OpsOf(b.history, owner), id) }
  predicate IsOpen(b: Book, owner: string, id: string) { id in WalletOf(b, owner).holds }

  /** In an audited book, a hold is closed as often as it was opened, except for
      the one time it may still be open. */
  lemma OpensMatchClosings(b: Book, owner: string, id: string)
    requires Audited(b)
    ensures Opens(b, owner, id) == Closings(b, owner, id) + (if IsOpen(b, owner, id) then 1 else 0)
  {
    HoldsOpenAndClose(FRESH, OpsOf(b.history, owner), id);
  }

  lemma {:induction false} OpenedAppend(ops: seq<Op>, op: Op, id: string)
    ensures Opened(ops + [op], id) == Opened(ops, id) + (if op.Hold? && op.id == id then 1 else 0)
  {
    if ops == [] {
      assert [op][1..] == [];
    } else {
      assert (ops + [op])[1..] == ops[1..] + [op];
      OpenedAppend(ops[1..], op, id);
    }
  }

  /** A posting opens a hold exactly when it is a hold that was not open and is now. */
  lemma PostOpens(b: Book, e: Entry, owner: string, id: string)
    ensures Opens(Post(b, e).book, owner, id) == Opens(b, owner, id)
      + (if e == Entry(owner, e.op) && e.op.Hold? && e.op.id == id && Recorded(WalletOf(b, owner), e.op)
         then 1 else 0)
  {
    OpsOfAppend(b.history, e, owner);
    OpenedAppend(OpsOf(b.history, owner), e.op, id);
  }

  // ---- conservation ----

  ghost function Balances(b: Book, owners: set<string>): map<string, real>
  {
    map o | o in owners :: WalletOf(b, o).balance
  }

  /** All credit in the wallets of `owners`. */
  ghost function Supply(b: Book, owners: set<string>): real
  {
    Total(Balances(b, owners))
  }

  function NetOf(op: Op): real
  {
    match op
    case Credit(amount) => amount
    case Release(_, debit) => -debit
    case _ => 0.0
  }

  function Net(entries: seq<Entry>): real
  {
    if entries == [] then 0.0 else NetOf(entries[0].op) + Net(entries[1..])
  }

  lemma PostMovesSupply(b: Book, e: Entry, owners: set<string>)
    requires e.owner in owners
    ensures Supply(Post(b, e).book, owners)
         == Supply(b, owners) + (if Post(b, e).error.None? then NetOf(e.op) else 0.0)
  {
    var after := Post(b, e).book;
    TotalUpdate(Balances(b, owners), e.owner, WalletOf(after, e.owner).balance);
    assert Balances(after, owners) == Balances(b, owners)[e.owner := WalletOf(after, e.owner).balance];
  }

  /** Sequences without a refusal move the supply by their net amount, whoever
      the owners are and however they coincide. */
  lemma {:induction false} PostAllMovesSupply(b: Book, entries: seq<Entry>, owners: set<string>)
    requires forall e :: e in entries ==> e.owner in owners
    requires PostAll(b, entries).error.None?
    ensures Supply(PostAll(b, entries).book, owners) == Supply(b, owners) + Net(entries)
    decreases |entries|
  {
    if entries != [] {
      PostMovesSupply(b, entries[0], owners);
      PostAllMovesSupply(Post(b, entries[0]).book, entries[1..], owners);
    }
  }

  predicate IsCredit(op: Op) { op.Credit? && op.amount >= 0.0 }

  /** Credits are never refused and touch nothing but balances. */
  lemma {:induction false} CreditsAccepted(b: Book, entries: seq<Entry>)
    requires forall e :: e in entries ==> IsCredit(e.op)
    ensures PostAll(b, entries).error.None?
    ensures forall o :: WalletOf(PostAll(b, entries).book, o).holds == WalletOf(b, o).holds
    ensures forall o, id :: Opens(PostAll(b, entries).book, o, id) == Opens(b, o, id)
    decreases |entries|
  {
    if entries != [] {
      var mid := Post(b, entries[0]).book;
      assert IsCredit(entries[0].op);
      forall o, id ensures Opens(mid, o, id) == Opens(b, o, id) { PostOpens(b, entries[0], o, id); }
      CreditsAccepted(mid, entries[1..]);
    }
  }

  lemma {:induction false} PostAllSplit(b: Book, first: seq<Entry>, second: seq<Entry>)
    ensures PostAll(b, first + second)
         == (var p := PostAll(b, first); if p.error.Some? then p else PostAll(p.book, second))
    decreases |first|
  {
    if first == [] {
      assert first + second == second;
    } else {
      assert (first + second)[1..] == first[1..] + second;
      if Post(b, first[0]).error.None? { PostAllSplit(Post(b, first[0]).book, first[1..], second); }
    }
  }

  // ---- moving an amount from one wallet to another ----

  lemma PostTwo(b: Book, x: Entry, y: Entry)
    ensures PostAll(b, [x, y])
         == (var p := Post(b, x); if p.error.Some? then p else Post(p.book, y))
  {
    assert [x, y][1..] == [y] && [y][1..] == [];
    assert forall c :: PostAll(c, [y]) == Post(c, y);
  }

  lemma PostThree(b: Book, x: Entry, y: Entry, z: Entry)
    ensures PostAll(b, [x, y, z])
         == (var p := Post(b, x); if p.error.Some? then p else PostAll(p.book, [y, z]))
  {
    assert [x, y, z][1..] == [y, z];
  }

  lemma NetOfThree(x: Entry, y: Entry, z: Entry)
    ensures Net([x, y, z]) == NetOf(x.op) + NetOf(y.op) + NetOf(z.op)
  {
    assert [x, y, z][1..] == [y, z] && [y, z][1..] == [z] && [z][1..] == [];
    assert Net([z]) == NetOf(z.op);
  }

  /** The program's way to debit a wallet: hold the amount and settle it at once.
      If the hold is granted, newly or because the same one is still open, the
      settlement cannot fail. */
  lemma HoldThenRelease(b: Book, owner: string, id: string, amount: real)
    requires Post(b, Entry(owner, Hold(id, amount))).error.None?
    ensures var p := Post(b, Entry(owner, Hold(id, amount)));
      var q := Post(p.book, Entry(owner, Release(id, amount)));
      && q.error.None?
      && WalletOf(q.book, owner).balance == WalletOf(b, owner).balance - amount
      && WalletOf(q.book, owner).holds == WalletOf(b, owner).holds - {id}
      && forall o :: o != owner ==> WalletOf(q.book, o) == WalletOf(b, o)
  {
    var holds := WalletOf(b, owner).holds;
    if id !in holds { assert holds[id := amount] - {id} == holds - {id}; }
  }

  function Transfer(from: string, id: string, amount: real, to: string): seq<Entry>
  {
    [Entry(from, Hold(id, amount)), Entry(from, Release(id, amount)), Entry(to, Credit(amount))]
  }

  function Moved(o: string, from: string, to: string, amount: real): real
  {
    (if o == to then amount else 0.0) - (if o == from then amount else 0.0)
  }

  /** A transfer is all or nothing: refused, it changes nothing; granted, it moves
      exactly the amount (possibly within one wallet) and leaves no hold of its
      own behind. */
  lemma TransferIsAtomic(b: Book, from: string, id: string, amount: real, to: string)
    requires amount >= 0.0
    ensures var p := PostAll(b, Transfer(from, id, amount, to));
      if p.error.Some? then p.book == b
      else forall o ::
        && WalletOf(p.book, o).balance == WalletOf(b, o).balance + Moved(o, from, to, amount)
        && WalletOf(p.book, o).holds
           == if o == from then WalletOf(b, o).holds - {id} else WalletOf(b, o).holds
  {
    var es := Transfer(from, id, amount, to);
    PostThree(b, es[0], es[1], es[2]);
    var p := Post(b, es[0]);
    PostTwo(p.book, es[1], es[2]);
    if p.error.None? { HoldThenRelease(b, from, id, amount); }
  }

  lemma TransferConserves(b: Book, from: string, id: string, amount: real, to: string, owners: set<string>)
    requires amount >= 0.0 && {from, to} <= owners
    ensures Supply(PostAll(b, Transfer(from, id, amount, to)).book, owners) == Supply(b, owners)
  {
    var es := Transfer(from, id, amount, to);
    TransferIsAtomic(b, from, id, amount, to);
    NetOfThree(es[0], es[1], es[2]);
    if PostAll(b, es).error.None? { PostAllMovesSupply(b, es, owners); }
  }

  // ---- the shared store ----

  class Bank {
    var wallets: map<string, State>
    var history: seq<Entry>

    constructor ()
      ensures View() == EMPTY
    {
      wallets, history := map[], [];
    }

    function View(): Book
      reads this
    {
      Book(wallets, history)
    }

    twostate predicate Posted(owner: string, op: Op, new error: Option<Error>)
      reads this
    {
      var p := Post(old(View()), Entry(owner, op));
      View() == p.book && error == p.error
    }

    /** Load the wallet, apply the operation to it, write it back. */
    method Transact(owner: string, op: Op) returns (error: Option<Error>)
      modifies this
      ensures Posted(owner, op, error)
    {
      var before := WalletOf(View(), owner);
      var state := new WalletState.Load(before);
      var verdict := WalletStore.Compute(state, op);
      match verdict {
        case Refused(e) => return Some(e);
        case Accepted =>
          if Recorded(before, op) { history := history + [Entry(owner, op)]; }
          wallets := wallets[owner := state.View()];
          return None;
      }
    }

    method Hold(owner: string, id: string, amount: real) returns (error: Option<Error>)
      modifies this
      ensures Posted(owner, Op.Hold(id, amount), error)
    {
      error := Transact(owner, Op.Hold(id, amount));
    }

    method Refund(owner: string, id: string) returns (error: Option<Error>)
      modifies this
      ensures Posted(owner, Op.Refund(id), error)
    {
      error := Transact(owner, Op.Refund(id));
    }

    method SettleAgainstHold(owner: string, id: string, debit: real) returns (error: Option<Error>)
      modifies this
      ensures Posted(owner, Release(id, debit), error)
    {
      error := Transact(owner, Release(id, debit));
    }

    method Topup(owner: string, amount: real) returns (error: Option<Error>)
      modifies this
      ensures Posted(owner, Credit(amount), error)
    {
      error := Transact(owner, Credit(amount));
    }
  }
}
