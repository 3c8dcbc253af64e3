/**
 The product lifecycle and the wallet ledger over any sequence of commands:
 the status graph the handlers encode, and the invariants every command keeps.
 */
module Lifecycle {
  import opened Config
  import opened Records
  import opened Handlers

  /** One inbound command, with the caller's identity and its arguments. */
  datatype Command =
    | BalanceCmd(user: UserId)
    | SubmitCmd(user: UserId, args: seq<string>)
    | PayCmd(user: UserId, args: seq<string>)
    | ApproveCmd(user: UserId, args: seq<string>)
    | DenyCmd(user: UserId, args: seq<string>)

  /** Dispatch as the handler registration of main.py:221-225 does. */
  function Step(db: Db, cmd: Command, parse: string -> Option<real>): Outcome
  {
    match cmd
    case BalanceCmd(u) => Balance(db, u)
    case SubmitCmd(u, args) => SubmitProduct(db, u, args, parse)
    case PayCmd(u, args) => PayListing(db, u, args)
    case ApproveCmd(u, args) => ApproveProduct(db, u, args)
    case DenyCmd(u, args) => DenyProduct(db, u, args)
  }

  /** The database after the commands, handled one after another. */
  function Run(db: Db, cmds: seq<Command>, parse: string -> Option<real>): Db
    decreases |cmds|
  {
    if cmds == [] then db else Run(Step(db, cmds[0], parse).db, cmds[1..], parse)
  }

  /** One status change some handler can make: paying moves any status to
      pending_approval; an admin moves pending_approval to approved or denied. */
  predicate Edge(a: Status, b: Status)
  {
    b == PendingApproval || (a == PendingApproval && (b == Approved || b == Denied))
  }

  /** Closed form of the reflexive-transitive closure of Edge: nothing ever
      returns to pending_payment, and every other status can be reached. */
  predicate Reachable(a: Status, b: Status)
  {
    a == b || b != PendingPayment
  }

  /** Reachable is exactly the closure of Edge: it contains every edge, it is
      transitive, and each of its pairs is joined by a path of at most two edges. */
  lemma ReachableIsClosure(a: Status, b: Status, c: Status)
    ensures Edge(a, b) ==> Reachable(a, b)
    ensures Reachable(a, b) && Reachable(b, c) ==> Reachable(a, c)
    ensures Reachable(a, b) ==>
      a == b || Edge(a, b) || (Edge(a, PendingApproval) && Edge(PendingApproval, b))
    ensures Reachable(a, b) && a != b ==> b != PendingPayment
  {
  }

  /** The fields fixed at submission: owner, name, price and listing fee. */
  predicate SameListing(p: Product, q: Product)
  {
    p.userId == q.userId && p.name == q.name && p.price == q.price && p.listingFee == q.listingFee
  }

  /** What one command may do to the products: append new pending_payment
      records, and move the status of an existing one along an Edge. */
  predicate StepRespectsGraph(before: seq<Product>, after: seq<Product>)
  {
    && |before| <= |after|
    && (forall i :: 0 <= i < |before| ==>
          SameListing(before[i], after[i]) &&
          (before[i].status == after[i].status || Edge(before[i].status, after[i].status)))
    && (forall i :: |before| <= i < |after| ==> after[i].status == PendingPayment)
  }

  lemma StepFollowsGraph(db: Db, cmd: Command, parse: string -> Option<real>)
    ensures StepRespectsGraph(db.products, Step(db, cmd, parse).db.products)
  {
  }

  /** Over any run, every product keeps its listing and its status only moves
      along the closure of the graph. */
  lemma {:induction false} RunFollowsGraph(db: Db, cmds: seq<Command>, parse: string -> Option<real>)
    ensures |db.products| <= |Run(db, cmds, parse).products|
    ensures forall i :: 0 <= i < |db.products| ==>
      SameListing(db.products[i], Run(db, cmds, parse).products[i]) &&
      Reachable(db.products[i].status, Run(db, cmds, parse).products[i].status)
    decreases |cmds|
  {
    if cmds != [] {
      var next := Step(db, cmds[0], parse).db;
      StepFollowsGraph(db, cmds[0], parse);
      RunFollowsGraph(next, cmds[1..], parse);
      forall i | 0 <= i < |db.products|
        ensures SameListing(db.products[i], Run(db, cmds, parse).products[i])
        ensures Reachable(db.products[i].status, Run(db, cmds, parse).products[i].status)
      {
        ReachableIsClosure(db.products[i].status, next.products[i].status, Run(db, cmds, parse).products[i].status);
      }
    }
  }

  /** Only a successful payment writes a wallet, and the guard keeps it >= 0. */
  lemma StepKeepsWalletsNonNegative(db: Db, cmd: Command, parse: string -> Option<real>)
    requires WalletsNonNegative(db.wallets)
    ensures WalletsNonNegative(Step(db, cmd, parse).db.wallets)
  {
  }

  lemma {:induction false} RunKeepsWalletsNonNegative(db: Db, cmds: seq<Command>, parse: string -> Option<real>)
    requires WalletsNonNegative(db.wallets)
    ensures WalletsNonNegative(Run(db, cmds, parse).wallets)
    decreases |cmds|
  {
    if cmds != [] {
      StepKeepsWalletsNonNegative(db, cmds[0], parse);
      RunKeepsWalletsNonNegative(Step(db, cmds[0], parse).db, cmds[1..], parse);
    }
  }

  /** Only `pay_listing` touches a wallet, and only the caller's. */
  lemma StepWalletFrame(db: Db, cmd: Command, parse: string -> Option<real>, other: UserId)
    requires !cmd.PayCmd? || other != cmd.user
    ensures other in Step(db, cmd, parse).db.wallets <==> other in db.wallets
    ensures BalanceOf(Step(db, cmd, parse).db.wallets, other) == BalanceOf(db.wallets, other)
  {
  }

  /** A wallet no command of the run pays from is never changed by the run. */
  lemma {:induction false} RunWalletFrame(db: Db, cmds: seq<Command>, parse: string -> Option<real>, other: UserId)
    requires forall k :: 0 <= k < |cmds| && cmds[k].PayCmd? ==> cmds[k].user != other
    ensures BalanceOf(Run(db, cmds, parse).wallets, other) == BalanceOf(db.wallets, other)
    decreases |cmds|
  {
    if cmds != [] {
      StepWalletFrame(db, cmds[0], parse, other);
      RunWalletFrame(Step(db, cmds[0], parse).db, cmds[1..], parse, other);
    }
  }

  predicate Vetted(s: Status)
  {
    s == Approved || s == Denied
  }

  /** Without an administrator among the callers, no product becomes approved
      or denied: every vetted product was already vetted, with that status. */
  lemma {:induction false} OnlyAdminsVet(db: Db, cmds: seq<Command>, parse: string -> Option<real>)
    requires forall k :: 0 <= k < |cmds| ==> !IsAdmin(cmds[k].user)
    ensures forall i :: 0 <= i < |Run(db, cmds, parse).products| && Vetted(Run(db, cmds, parse).products[i].status) ==>
      i < |db.products| && db.products[i].status == Run(db, cmds, parse).products[i].status
    decreases |cmds|
  {
    if cmds != [] {
      var next := Step(db, cmds[0], parse).db;
      StepFollowsGraph(db, cmds[0], parse);
      OnlyAdminsVet(next, cmds[1..], parse);
    }
  }

  /** `pay_listing` ignores the status: paying again for an approved product
      charges the fee once more and sends it back to pending_approval. */
  lemma RepayReopensApproved(db: Db, user: UserId, name: string)
    requires PayIndex(db, user, [name]).Some?
    requires db.products[PayIndex(db, user, [name]).value].status == Approved
    requires db.products[PayIndex(db, user, [name]).value].listingFee <= BalanceOf(db.wallets, user)
    ensures
      var i := PayIndex(db, user, [name]).value;
      var r := PayListing(db, user, [name]);
      && r.reply == PaymentSuccessful
      && r.db.products[i].status == PendingApproval
      && BalanceOf(r.db.wallets, user) == BalanceOf(db.wallets, user) - db.products[i].listingFee
  {
  }

  /** There is no check on the sign of the price: a product submitted at a
      negative price has a negative fee, and paying it credits the wallet,
      even a user who has no wallet yet. */
  lemma NegativePriceCreditsWallet(user: UserId, name: string, price: string, parse: string -> Option<real>)
    requires parse(price).Some? && parse(price).value < 0.0
    ensures
      var submitted := SubmitProduct(Db(map[], []), user, [name, price], parse).db;
      var paid := PayListing(submitted, user, [name]);
      && paid.reply == PaymentSuccessful
      && BalanceOf(paid.db.wallets, user) > 0.0
  {
  }

  /** In the model's store order, where a new record goes after every existing
      one, submitting more products never changes which product a later
      `pay_listing` charges for: the earliest one keeps winning. */
  lemma SubmitKeepsPayTarget(db: Db, user: UserId, args: seq<string>, seller: UserId, sargs: seq<string>, parse: string -> Option<real>)
    requires PayIndex(db, user, args).Some?
    ensures PayIndex(SubmitProduct(db, seller, sargs, parse).db, user, args) == PayIndex(db, user, args)
  {
    var r := SubmitProduct(db, seller, sargs, parse);
    if r.reply.Submitted? {
      FirstMatchAppend(db.products, r.db.products[|db.products|], OwnedNamed(user, args[0]));
    }
  }

  /** The worked example: balance 100, submit "Shoes" at 50 (fee 10), pay
      (balance 90, pending_approval), an admin approves (approved, one post to
      the group). */
  lemma ShoesScenario(seller: UserId, parse: string -> Option<real>)
    requires parse("50") == Some(50.0)
    ensures
      var s0 := Db(map[seller := 100.0], []);
      var s1 := SubmitProduct(s0, seller, ["Shoes", "50"], parse);
      var s2 := PayListing(s1.db, seller, ["Shoes"]);
      var s3 := ApproveProduct(s2.db, OwnerId, ["Shoes"]);
      && s1.reply == Submitted("Shoes", 10.0)
      && s2.reply == PaymentSuccessful
      && s2.db.wallets[seller] == 90.0
      && s2.db.products[0].status == PendingApproval
      && s3.db.products[0].status == Approved
      && s3.sent == [Notification(GroupChat, VerifiedProduct("Shoes", 50.0))]
  {
  }

  /** Balance 5, submit "Bag" at 100 (fee 20): the payment is refused and
      nothing changes. */
  lemma BagScenario(seller: UserId, parse: string -> Option<real>)
    requires parse("100") == Some(100.0)
    ensures
      var s0 := Db(map[seller := 5.0], []);
      var s1 := SubmitProduct(s0, seller, ["Bag", "100"], parse);
      var s2 := PayListing(s1.db, seller, ["Bag"]);
      && s2.reply == InsufficientFunds(20.0, 5.0)
      && s2.db == s1.db
      && s2.db.wallets[seller] == 5.0
      && s2.db.products[0].status == PendingPayment
  {
  }
}
