/**
 The bot's fixed configuration: the two administrator identities and the
 listing-fee policy (main.py:15-20, 65).
 */
module Config {

  /** A chat user's numeric identity. The source keys stores by `str(id)`,
      which is injective, so keying by the number itself is equivalent. */
  type UserId = int

  const OwnerId: UserId := 8058663737
  const AssistantId: UserId := 6677661793

  /** Percentage of the price charged to list a product. */
  const ListingFeePercent: int := 20

  /** The admin gate of `approve_product` and `deny_product`. */
  predicate IsAdmin(id: UserId)
  {
    id == OwnerId || id == AssistantId
  }

  /** `price * LISTING_FEE_PERCENT / 100`, in exact arithmetic: one fifth of
      the price. There is no check on the sign of the price, so a negative
      price yields a negative fee. */
  function ListingFee(price: real): (fee: real)
    ensures 5.0 * fee == price
    ensures 0.0 <= price ==> 0.0 <= fee <= price
    ensures price < 0.0 ==> price < fee < 0.0
    ensures price == 0.0 <==> fee == 0.0
  {
    price * ListingFeePercent as real / 100.0
  }
}
