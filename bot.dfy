/**
 The bot's handlers as methods over the live store: a class holding the
 `wallets` collection as a map and the `products` collection as a sequence,
 each handler reading and then writing them step by step as main.py does.
 Every method is proved to agree with its function in Handlers.
 */
module Bot {
  import opened Config
  import opened Records
  import opened Handlers

  class Marketplace {
    var wallets: map<UserId, real>
    var products: seq<Product>

    /** The store as a value. */
    function Snapshot(): Db
      reads this
    {
      Db(wallets, products)
    }

    /** The ledger invariant: no wallet holds a negative balance. */
    predicate Valid()
      reads this
    {
      WalletsNonNegative(wallets)
    }

    constructor (wallets: map<UserId, real>, products: seq<Product>)
      ensures this.wallets == wallets && this.products == products
    {
      this.wallets := wallets;
      this.products := products;
    }

    /** `balance` (main.py:41-47). */
    method Balance(user: UserId) returns (reply: Reply)
      ensures user !in wallets ==> reply == BalanceIs(0.0)
      ensures user in wallets ==> reply == BalanceIs(wallets[user])
      ensures Outcome(Snapshot(), reply, []) == Handlers.Balance(Snapshot(), user)
    {
      var balance := BalanceOf(wallets, user);
      reply := BalanceIs(balance);
    }

    /** `submit_product` (main.py:50-81). */
    method SubmitProduct(user: UserId, args: seq<string>, parse: string -> Option<real>)
      returns (reply: Reply, sent: seq<Notification>)
      modifies this
      ensures Outcome(Snapshot(), reply, sent) == Handlers.SubmitProduct(old(Snapshot()), user, args, parse)
      ensures wallets == old(wallets) && sent == []
      ensures reply.Submitted? ==> |products| == |old(products)| + 1 && products[..|old(products)|] == old(products)
      ensures !reply.Submitted? ==> products == old(products)
      ensures old(Valid()) ==> Valid()
    {
      sent := [];
      if |args| < 2 {
        reply := SubmitUsage;
        return;
      }
      var name := args[0];
      var price := parse(args[1]);
      if price.None? {
        reply := PriceNotNumber;
        return;
      }
      var fee := ListingFee(price.value);
      products := products + [Product(user, name, price.value, fee, PendingPayment)];
      reply := Submitted(name, fee);
    }

    /** `pay_listing` (main.py:84-136): look up, check funds, debit, advance,
        then tell both administrators. */
    method PayListing(user: UserId, args: seq<string>) returns (reply: Reply, sent: seq<Notification>)
      modifies this
      ensures Outcome(Snapshot(), reply, sent) == Handlers.PayListing(old(Snapshot()), user, args)
      ensures reply != PaymentSuccessful ==> wallets == old(wallets) && products == old(products) && sent == []
      ensures reply == PaymentSuccessful ==>
        && BalanceOf(wallets, user) >= 0.0
        && (forall u :: u != user ==> BalanceOf(wallets, u) == BalanceOf(old(wallets), u))
        && |products| == |old(products)|
        && (forall j :: 0 <= j < |products| && j != PayIndex(old(Snapshot()), user, args).value ==>
              products[j] == old(products)[j])
        && |sent| == 2 && sent[0].target == Chat(OwnerId) && sent[1].target == Chat(AssistantId)
      ensures old(Valid()) ==> Valid()
    {
      sent := [];
      if |args| == 0 {
        reply := PayUsage;
        return;
      }
      var name := args[0];
      var found := FirstMatch(products, OwnedNamed(user, name));
      if found.None? {
        reply := ProductNotFound;
        return;
      }
      var i := found.value;
      var product := products[i];
      var balance := BalanceOf(wallets, user);
      if balance < product.listingFee {
        reply := InsufficientFunds(product.listingFee, balance);
        return;
      }
      wallets := wallets[user := balance - product.listingFee];
      products := products[i := product.(status := PendingApproval)];
      reply := PaymentSuccessful;
      var notice := NewPendingProduct(name, product.price, user);
      sent := sent + [Notification(Chat(OwnerId), notice)];
      sent := sent + [Notification(Chat(AssistantId), notice)];
    }

    /** `approve_product` (main.py:139-174). */
    method ApproveProduct(admin: UserId, args: seq<string>) returns (reply: Reply, sent: seq<Notification>)
      modifies this
      ensures Outcome(Snapshot(), reply, sent) == Handlers.ApproveProduct(old(Snapshot()), admin, args)
      ensures wallets == old(wallets)
      ensures !reply.ApprovedAndPosted? ==> products == old(products) && sent == []
      ensures reply.ApprovedAndPosted? ==>
        && IsAdmin(admin)
        && |products| == |old(products)|
        && (forall j :: 0 <= j < |products| && j != ReviewIndex(old(Snapshot()), args).value ==>
              products[j] == old(products)[j])
        && |sent| == 1 && sent[0].target == GroupChat
      ensures old(Valid()) ==> Valid()
    {
      sent := [];
      if admin != OwnerId && admin != AssistantId {
        reply := NotAuthorized;
        return;
      }
      if |args| == 0 {
        reply := ApproveUsage;
        return;
      }
      var name := args[0];
      var found := FirstMatch(products, NamedWithStatus(name, PendingApproval));
      if found.None? {
        reply := NoPendingProduct;
        return;
      }
      var i := found.value;
      var product := products[i];
      products := products[i := product.(status := Approved)];
      sent := sent + [Notification(GroupChat, VerifiedProduct(name, product.price))];
      reply := ApprovedAndPosted(name);
    }

    /** `deny_product` (main.py:177-210). */
    method DenyProduct(admin: UserId, args: seq<string>) returns (reply: Reply, sent: seq<Notification>)
      modifies this
      ensures Outcome(Snapshot(), reply, sent) == Handlers.DenyProduct(old(Snapshot()), admin, args)
      ensures wallets == old(wallets)
      ensures !reply.DeniedReply? ==> products == old(products) && sent == []
      ensures reply.DeniedReply? ==>
        && IsAdmin(admin)
        && |products| == |old(products)|
        && (forall j :: 0 <= j < |products| && j != ReviewIndex(old(Snapshot()), args).value ==>
              products[j] == old(products)[j])
        && |sent| == 1 && sent[0].target == Chat(old(products)[ReviewIndex(old(Snapshot()), args).value].userId)
      ensures old(Valid()) ==> Valid()
    {
      sent := [];
      if admin != OwnerId && admin != AssistantId {
        reply := NotAuthorized;
        return;
      }
      if |args| == 0 {
        reply := DenyUsage;
        return;
      }
      var name := args[0];
      var found := FirstMatch(products, NamedWithStatus(name, PendingApproval));
      if found.None? {
        reply := NoPendingProduct;
        return;
      }
      var i := found.value;
      var product := products[i];
      var seller := product.userId;
      products := products[i := product.(status := Denied)];
      reply := DeniedReply(name);
      sent := sent + [Notification(Chat(seller), ProductDenied(name))];
    }
  }
}
