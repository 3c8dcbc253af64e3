# Wallet bot: listing-fee ledger and product lifecycle

A model of the core of a chat bot marketplace (`main.py`). Sellers hold a
wallet balance. They submit a product with a price. They pay a listing fee of
20% of that price from their wallet. One of two fixed administrators then
approves or denies the product. The model has two collections: `wallets`, a
map from user id to balance, and `products`, an ordered sequence of listing
records.

Layout:

- `config.dfy` (module `Config`) holds the administrator ids and the fee
  percentage, the admin check and the fee function.
- `records.dfy` (module `Records`) holds the product record, the status
  enumeration, the database value and the notification records. It also
  holds `FirstMatch`, which is the query-then-take-`[0]` lookup that
  `pay_listing`, `approve_product` and `deny_product` use.
- `handlers.dfy` (module `Handlers`) has one function per command handler.
  Each maps the database before the command to an `Outcome`: the database
  after it, the reply to the caller and the notifications sent.
- `lifecycle.dfy` (module `Lifecycle`) covers command sequences: the status
  graph and invariants over any run of commands.
- `bot.dfy` (module `Bot`) has the class `Marketplace`, whose methods update
  the two collections in place step by step. Each method is proved equal to
  its `Handlers` function.

## Model

| member | source | states |
|---|---|---|
| Config.ListingFee | main.py:65 | the fee is one fifth of the price (20 percent); between 0 and the price for a non-negative price, negative for a negative price, zero exactly when the price is zero |
| Records.FirstMatch | main.py:93-101 | the result is the index of the earliest matching product, with no earlier match; None exactly when nothing matches |
| Records.FirstMatchAppend | main.py:101 | appending a record never changes an existing first match |
| Handlers.Balance | main.py:41-47 | replies with the stored balance, or 0 when the user has no wallet; changes nothing and sends nothing |
| Handlers.SubmitProduct | main.py:50-81 | with fewer than two arguments or an unparsable price, nothing changes; otherwise exactly one `pending_payment` record with fee = ListingFee(price) is appended; wallets never change and nothing is sent |
| Handlers.PayListing | main.py:84-136 | succeeds exactly when the caller owns a product of that name and the first one's fee is at most the caller's balance (0 when no wallet); on failure nothing changes and nothing is sent, and the reply is the usage text without arguments, ProductNotFound without an owned match, or InsufficientFunds carrying that fee and balance; on success only the caller's wallet changes, to old balance minus fee (which is at least 0), only that product changes, to `pending_approval`, and one notice goes to each of the two admins |
| Handlers.ApproveProduct | main.py:139-174 | a non-admin gets NotAuthorized and nothing changes; an admin without arguments gets the usage text, and one whose name has no `pending_approval` product gets NoPendingProduct, with nothing changed; succeeds exactly for an admin when some product of that name is `pending_approval`; only the first such product changes, to `approved`; one post goes to the group; wallets never change |
| Handlers.DenyProduct | main.py:177-210 | same gate, lookup and error replies (NotAuthorized, usage, NoPendingProduct, each changing nothing) as approval; only the first pending product of that name changes, to `denied`; one notice goes to that product's seller; wallets never change |
| Lifecycle.ReachableIsClosure | main.py:117-202 | `Reachable` is the reflexive-transitive closure of the status edges the handlers write: it holds every edge, is transitive, and each pair is a path of at most two edges; nothing returns to `pending_payment` |
| Lifecycle.StepFollowsGraph | main.py:50-210 | one command only appends `pending_payment` records and moves an existing status along an edge, never changing owner, name, price or fee |
| Lifecycle.RunFollowsGraph | main.py:50-210 | over any command sequence, existing records keep owner, name, price and fee, and each status only moves to a reachable status |
| Lifecycle.StepKeepsWalletsNonNegative | main.py:107-115 | if every wallet is non-negative before a command, every wallet is non-negative after it |
| Lifecycle.RunKeepsWalletsNonNegative | main.py:107-115 | non-negative wallets stay non-negative over any command sequence |
| Lifecycle.StepWalletFrame | main.py:105-115 | a command leaves a user's wallet, and whether it exists, unchanged unless it is that user's own `pay_listing` |
| Lifecycle.RunWalletFrame | main.py:105-115 | a user who pays nothing in a command sequence ends it with the same balance |
| Lifecycle.OnlyAdminsVet | main.py:139-202 | with no admin among the callers, no product becomes `approved` or `denied` |
| Lifecycle.RepayReopensApproved | main.py:93-117 | paying again for an approved product charges the fee again and sets it back to `pending_approval` |
| Lifecycle.NegativePriceCreditsWallet | main.py:59-115 | a product submitted at a negative price can be paid by a user with no wallet, and the payment leaves a positive balance |
| Lifecycle.SubmitKeepsPayTarget | main.py:75-101 | in the model's store order, where a new record goes after every existing one, submitting another product never changes which product a payment charges for |
| Lifecycle.ShoesScenario | main.py:50-174 | balance 100, submit at 50 gives fee 10; paying leaves 90 and `pending_approval`; approval gives `approved` and exactly one group post |
| Lifecycle.BagScenario | main.py:50-113 | balance 5, submit at 100 gives fee 20; paying is refused with InsufficientFunds and nothing changes |
| Bot.Marketplace.Balance | main.py:41-47 | replies with the stored balance, or 0 when the user has no wallet, as Handlers.Balance does; changes nothing |
| Bot.Marketplace.SubmitProduct | main.py:50-81 | the new store, reply and notices are those of Handlers.SubmitProduct; wallets unchanged; on success exactly one record appended and the old records kept; the ledger invariant is kept |
| Bot.Marketplace.PayListing | main.py:84-136 | agrees with Handlers.PayListing; on failure nothing changes; on success the caller's balance is at least 0, every other balance and every other product is unchanged, and the two notices go to OWNER_ID then ASSISTANT_ID; the ledger invariant is kept |
| Bot.Marketplace.ApproveProduct | main.py:139-174 | agrees with Handlers.ApproveProduct; only an admin succeeds; wallets unchanged; every other product unchanged; one post to the group |
| Bot.Marketplace.DenyProduct | main.py:177-210 | agrees with Handlers.DenyProduct; only an admin succeeds; wallets unchanged; every other product unchanged; one notice to the denied product's seller |

## Behaviour worth noting

- The code does not check that the price is positive (main.py:59-65). A
  negative price gives a negative fee, and paying that fee credits the wallet
  (`NegativePriceCreditsWallet`).
- The lookup of `pay_listing` does not filter on status (main.py:93-95). A
  product in any status can be paid again (`RepayReopensApproved`).
- Duplicate names are allowed. Every lookup takes the first match
  (main.py:101, 161, 199).
- The wallet write and the status write are two separate store calls with
  no transaction or compare-and-swap (main.py:115-117).

## Left out

- The `start` handler: it only replies with fixed welcome text.
- The chat transport: `Updater`, handler registration, `main()` and the
  wording of replies. Replies are the `Reply` enumeration.
- Firebase credentials, client setup, logging and the `BOT_TOKEN` and
  `GROUP_CHAT_ID` environment lookups. The group chat is the opaque target
  `GroupChat`. A missing `GROUP_CHAT_ID` is not modelled.
- Python's `float` parsing is the parameter `parse`, which either yields a
  number or fails. Money is exact `real`, so float rounding, `nan` and `inf`
  are not modelled.
- Store order: the model treats `products` as a sequence in query order, and
  new records go at the end. Firestore's own order of auto-id documents is
  not modelled. Document ids are positions in the sequence.
- SubmitKeepsPayTarget: holds for the model's append order only. In the
  program, `add` gives a new document a random id and the query has no
  `order_by`, so a later submission with the same owner and name can come
  first and be the one charged.
- Concurrency and atomicity: commands run one at a time.
- Failures of store calls and of `send_message`: a notice that raises after
  the state change, leaving later notices unsent, is not modelled. Every
  notice of a successful command is in its `sent` list.
- The stray text on lines 1-2 of `main.py` would stop the module from
  importing. It has no behaviour to model.
