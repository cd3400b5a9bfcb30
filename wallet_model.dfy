/**
 * The Wallet schema. The schema names the money field `amount` while the ledger reads and
 * increments `balance`; both are modelled as the one integer field `balance`.
 */
module WalletModel {
  import opened Common

  datatype Wallet = Wallet(user: UserId, balance: int, date: int)

  /** The document `Wallet.create` stores: `amount` defaults to 0 and `date` to now. */
  function NewWallet(user: UserId, amount: Option<int>, now: int): (w: Wallet)
    ensures w.user == user && w.date == now
    ensures amount.None? ==> w.balance == 0
    ensures amount.Some? ==> w.balance == amount.value
  {
    Wallet(user, if amount.Some? then amount.value else 0, now)
  }

  /** The wallet collection, keyed by the unique `user` path. */
  type Wallets = map<UserId, Wallet>

  ghost predicate KeyedByUser(docs: Wallets)
  {
    forall u :: u in docs ==> docs[u].user == u
  }

  /** The unique index on `user`: no two wallet documents share an owner. */
  lemma {:induction false} AtMostOnePerUser(docs: Wallets, a: UserId, b: UserId)
    requires KeyedByUser(docs)
    requires a in docs && b in docs && docs[a].user == docs[b].user
    ensures a == b
  {
  }

  function BalanceOf(docs: Wallets, u: UserId): int
  {
    if u in docs then docs[u].balance else 0
  }
}
