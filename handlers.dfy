/**
 What each command handler of main.py does to the two collections, as a
 function from the database before the command to an Outcome: the database
 after it, the reply shown to the caller and the notifications sent.
 The class in Bot performs the same steps in place and is proved against
 these functions.
 */
module Handlers {
  import opened Config
  import opened Records

  /** The caller-visible replies, one per `reply_text` of the handlers. */
  datatype Reply =
    | BalanceIs(balance: real)
    | SubmitUsage
    | PriceNotNumber
    | Submitted(name: string, fee: real)
    | PayUsage
    | ProductNotFound
    | InsufficientFunds(fee: real, balance: real)
    | PaymentSuccessful
    | NotAuthorized
    | ApproveUsage
    | NoPendingProduct
    | ApprovedAndPosted(name: string)
    | DenyUsage
    | DeniedReply(name: string)

  datatype Outcome = Outcome(db: Db, reply: Reply, sent: seq<Notification>)

  /** `balance` (main.py:41-47): a read; a user without a wallet sees 0. */
  function Balance(db: Db, user: UserId): (r: Outcome)
    ensures r.db == db && r.sent == []
    ensures user !in db.wallets ==> r.reply == BalanceIs(0.0)
    ensures user in db.wallets ==> r.reply == BalanceIs(db.wallets[user])
  {
    Outcome(db, BalanceIs(BalanceOf(db.wallets, user)), [])
  }

  /** `submit_product <name> <price>` (main.py:50-81). `parse` stands for
      Python's `float`, which either yields a number or raises ValueError. */
  function SubmitProduct(db: Db, user: UserId, args: seq<string>, parse: string -> Option<real>): (r: Outcome)
    ensures r.db.wallets == db.wallets && r.sent == []
    ensures r.reply.Submitted? <==> |args| >= 2 && parse(args[1]).Some?
    ensures |args| < 2 ==> r == Outcome(db, SubmitUsage, [])
    ensures |args| >= 2 && parse(args[1]).None? ==> r == Outcome(db, PriceNotNumber, [])
    ensures r.reply.Submitted? ==>
      var price := parse(args[1]).value;
      && r.db.products == db.products + [Product(user, args[0], price, ListingFee(price), PendingPayment)]
      && r.reply == Submitted(args[0], ListingFee(price))
  {
    if |args| < 2 then Outcome(db, SubmitUsage, [])
    else match parse(args[1])
      case None => Outcome(db, PriceNotNumber, [])
      case Some(price) =>
        var fee := ListingFee(price);
        var p := Product(user, args[0], price, fee, PendingPayment);
        Outcome(db.(products := db.products + [p]), Submitted(args[0], fee), [])
  }

  /** The index `pay_listing` acts on: the caller's first product with that name. */
  function PayIndex(db: Db, user: UserId, args: seq<string>): Option<nat>
  {
    if |args| == 0 then None else FirstMatch(db.products, OwnedNamed(user, args[0]))
  }

  /** `pay_listing <name>` (main.py:84-136). The lookup does not look at the
      status, so paying again for a product in any status charges the fee
      again and puts it back to pending_approval. */
  function PayListing(db: Db, user: UserId, args: seq<string>): (r: Outcome)
    ensures r.reply == PaymentSuccessful <==>
      PayIndex(db, user, args).Some? &&
      db.products[PayIndex(db, user, args).value].listingFee <= BalanceOf(db.wallets, user)
    ensures r.reply != PaymentSuccessful ==> r.db == db && r.sent == []
    ensures |args| == 0 ==> r.reply == PayUsage
    ensures |args| > 0 && PayIndex(db, user, args).None? ==> r.reply == ProductNotFound
    ensures PayIndex(db, user, args).Some? &&
            BalanceOf(db.wallets, user) < db.products[PayIndex(db, user, args).value].listingFee ==>
      r.reply == InsufficientFunds(db.products[PayIndex(db, user, args).value].listingFee, BalanceOf(db.wallets, user))
    ensures r.reply == PaymentSuccessful ==>
      var i := PayIndex(db, user, args).value;
      var p := db.products[i];
      var balance := BalanceOf(db.wallets, user);
      && r.db.wallets == db.wallets[user := balance - p.listingFee]
      && BalanceOf(r.db.wallets, user) >= 0.0
      && r.db.products == db.products[i := p.(status := PendingApproval)]
      && r.sent == [Notification(Chat(OwnerId), NewPendingProduct(args[0], p.price, user)),
                    Notification(Chat(AssistantId), NewPendingProduct(args[0], p.price, user))]
  {
    if |args| == 0 then Outcome(db, PayUsage, [])
    else match FirstMatch(db.products, OwnedNamed(user, args[0]))
      case None => Outcome(db, ProductNotFound, [])
      case Some(i) =>
        var p := db.products[i];
        var balance := BalanceOf(db.wallets, user);
        if balance < p.listingFee then Outcome(db, InsufficientFunds(p.listingFee, balance), [])
        else
          var wallets := db.wallets[user := balance - p.listingFee];
          var products := db.products[i := p.(status := PendingApproval)];
          var notice := NewPendingProduct(args[0], p.price, user);
          Outcome(Db(wallets, products), PaymentSuccessful,
                  [Notification(Chat(OwnerId), notice), Notification(Chat(AssistantId), notice)])
  }

  /** The index an admin action acts on: the first pending_approval product
      with that name, whoever owns it. */
  function ReviewIndex(db: Db, args: seq<string>): Option<nat>
  {
    if |args| == 0 then None else FirstMatch(db.products, NamedWithStatus(args[0], PendingApproval))
  }

  /** `approve_product <name>` (main.py:139-174). */
  function ApproveProduct(db: Db, admin: UserId, args: seq<string>): (r: Outcome)
    ensures r.db.wallets == db.wallets
    ensures !IsAdmin(admin) ==> r == Outcome(db, NotAuthorized, [])
    ensures IsAdmin(admin) && |args| == 0 ==> r == Outcome(db, ApproveUsage, [])
    ensures IsAdmin(admin) && |args| > 0 && ReviewIndex(db, args).None? ==> r == Outcome(db, NoPendingProduct, [])
    ensures r.reply.ApprovedAndPosted? <==> IsAdmin(admin) && ReviewIndex(db, args).Some?
    ensures !r.reply.ApprovedAndPosted? ==> r.db == db && r.sent == []
    ensures r.reply.ApprovedAndPosted? ==>
      var i := ReviewIndex(db, args).value;
      var p := db.products[i];
      && p.status == PendingApproval
      && r.db.products == db.products[i := p.(status := Approved)]
      && r.sent == [Notification(GroupChat, VerifiedProduct(args[0], p.price))]
  {
    if !IsAdmin(admin) then Outcome(db, NotAuthorized, [])
    else if |args| == 0 then Outcome(db, ApproveUsage, [])
    else match FirstMatch(db.products, NamedWithStatus(args[0], PendingApproval))
      case None => Outcome(db, NoPendingProduct, [])
      case Some(i) =>
        var p := db.products[i];
        Outcome(db.(products := db.products[i := p.(status := Approved)]),
                ApprovedAndPosted(args[0]),
                [Notification(GroupChat, VerifiedProduct(args[0], p.price))])
  }

  /** `deny_product <name>` (main.py:177-210): the seller is told. */
  function DenyProduct(db: Db, admin: UserId, args: seq<string>): (r: Outcome)
    ensures r.db.wallets == db.wallets
    ensures !IsAdmin(admin) ==> r == Outcome(db, NotAuthorized, [])
    ensures IsAdmin(admin) && |args| == 0 ==> r == Outcome(db, DenyUsage, [])
    ensures IsAdmin(admin) && |args| > 0 && ReviewIndex(db, args).None? ==> r == Outcome(db, NoPendingProduct, [])
    ensures r.reply.DeniedReply? <==> IsAdmin(admin) && ReviewIndex(db, args).Some?
    ensures !r.reply.DeniedReply? ==> r.db == db && r.sent == []
    ensures r.reply.DeniedReply? ==>
      var i := ReviewIndex(db, args).value;
      var p := db.products[i];
      && p.status == PendingApproval
      && r.db.products == db.products[i := p.(status := Denied)]
      && r.sent == [Notification(Chat(p.userId), ProductDenied(args[0]))]
  {
    if !IsAdmin(admin) then Outcome(db, NotAuthorized, [])
    else if |args| == 0 then Outcome(db, DenyUsage, [])
    else match FirstMatch(db.products, NamedWithStatus(args[0], PendingApproval))
      case None => Outcome(db, NoPendingProduct, [])
      case Some(i) =>
        var p := db.products[i];
        Outcome(db.(products := db.products[i := p.(status := Denied)]),
                DeniedReply(args[0]),
                [Notification(Chat(p.userId), ProductDenied(args[0]))])
  }
}
