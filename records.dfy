/**
 The two Firestore collections the handlers read and write, as values:
 `wallets` (user id -> balance) and `products` (an ordered sequence of
 listing records), plus the notification records the bot sends.
 */
module Records {
  import opened Config

  datatype Option<T> = None | Some(value: T)

  /** The `status` field of a product record. */
  datatype Status = PendingPayment | PendingApproval | Approved | Denied

  /** A document of the `products` collection (main.py:67-73). */
  datatype Product = Product(
    userId: UserId,
    name: string,
    price: real,
    listingFee: real,
    status: Status)

  /** Both collections. A user with no entry in `wallets` has no wallet document. */
  datatype Db = Db(wallets: map<UserId, real>, products: seq<Product>)

  /** A wallet read: a missing document reads as balance 0 (main.py:46, 107). */
  function BalanceOf(wallets: map<UserId, real>, user: UserId): real
  {
    if user in wallets then wallets[user] else 0.0
  }

  /** The ledger invariant: every wallet that exists holds a non-negative balance. */
  predicate WalletsNonNegative(wallets: map<UserId, real>)
  {
    forall u :: u in wallets ==> wallets[u] >= 0.0
  }

  /** The two `where(...)` filters the handlers put on `products`. */
  datatype Query =
    | OwnedNamed(owner: UserId, name: string)         // pay_listing, main.py:93-95
    | NamedWithStatus(name: string, status: Status)   // approve/deny, main.py:153-155, 191-193

  predicate Matches(q: Query, p: Product)
  {
    match q
    case OwnedNamed(owner, name) => p.userId == owner && p.name == name
    case NamedWithStatus(name, status) => p.name == name && p.status == status
  }

  /** `query.get()` followed by `[0]`: the position of the earliest product
      that matches, or None when the result is empty. */
  function FirstMatch(ps: seq<Product>, q: Query): (r: Option<nat>)
    ensures r.Some? ==> r.value < |ps| && Matches(q, ps[r.value])
    ensures r.Some? ==> forall j :: 0 <= j < r.value ==> !Matches(q, ps[j])
    ensures r.None? <==> forall j :: 0 <= j < |ps| ==> !Matches(q, ps[j])
  {
    if ps == [] then None
    else if Matches(q, ps[0]) then Some(0)
    else match FirstMatch(ps[1..], q)
      case None => None
      case Some(i) => Some(i + 1)
  }

  /** Whatever else the sequence holds, the first match depends only on the
      elements up to and including it: appending never changes an existing hit. */
  lemma {:induction false} FirstMatchAppend(ps: seq<Product>, p: Product, q: Query)
    requires FirstMatch(ps, q).Some?
    ensures FirstMatch(ps + [p], q) == FirstMatch(ps, q)
  {
    if !Matches(q, ps[0]) {
      assert (ps + [p])[1..] == ps[1..] + [p];
      FirstMatchAppend(ps[1..], p, q);
    }
  }

  /** Where a notification goes: a private chat or the public group. */
  datatype Target = Chat(id: UserId) | GroupChat

  /** What a notification announces. */
  datatype Event =
    | NewPendingProduct(name: string, price: real, seller: UserId)  // main.py:122-136
    | VerifiedProduct(name: string, price: real)                    // main.py:166-172
    | ProductDenied(name: string)                                   // main.py:207-210

  datatype Notification = Notification(target: Target, event: Event)
}
