/** WalletService: create, read, upsert and delete the one wallet a user may have. */
module WalletService {
  import opened Common
  import opened WalletModel

  /** `updateWallet`'s upsert: set the user's amount, creating the wallet when there is none. */
  function Upsert(docs: Wallets, u: UserId, amount: int, now: int): (r: Wallets)
    ensures r.Keys == docs.Keys + {u}
    ensures r[u].user == u && r[u].balance == amount
    ensures u in docs ==> r[u].date == docs[u].date
    ensures u !in docs ==> r[u].date == now
    ensures forall v :: v in docs && v != u ==> r[v] == docs[v]
  {
    docs[u := if u in docs then docs[u].(user := u, balance := amount) else NewWallet(u, Some(amount), now)]
  }

  /** Upserting the same amount again changes nothing, whenever it happens. */
  lemma {:induction false} UpsertIdempotent(docs: Wallets, u: UserId, amount: int, now: int, later: int)
    ensures Upsert(Upsert(docs, u, amount, now), u, amount, later) == Upsert(docs, u, amount, now)
  {
    var once := Upsert(docs, u, amount, now);
    var twice := Upsert(once, u, amount, later);
    assert twice[u] == once[u];
    assert forall v :: v in twice ==> twice[v] == once[v];
  }

  /** Upserting keeps the collection keyed by owner. */
  lemma {:induction false} UpsertKeepsKeys(docs: Wallets, u: UserId, amount: int, now: int)
    requires KeyedByUser(docs)
    ensures KeyedByUser(Upsert(docs, u, amount, now))
  {
  }

  /** The wallet collection. Every operation selects by `user`. */
  class WalletCollection {
    var docs: Wallets

    ghost predicate Valid()
      reads this
    {
      KeyedByUser(docs)
    }

    constructor ()
      ensures Valid() && docs == map[]
    {
      docs := map[];
    }

    /** `Wallet.create({user, amount})`: refused by the unique index when the user has one. */
    method CreateWallet(u: UserId, amount: int, now: int) returns (r: Result<Wallet>)
      requires Valid()
      modifies this
      ensures Valid()
      ensures u in old(docs) ==> r == Err(DuplicateKey("user")) && docs == old(docs)
      ensures u !in old(docs) ==> r == Ok(NewWallet(u, Some(amount), now)) && docs == old(docs)[u := r.value]
    {
      if u in docs {
        r := Err(DuplicateKey("user"));
      } else {
        var w := NewWallet(u, Some(amount), now);
        docs := docs[u := w];
        r := Ok(w);
      }
    }

    /** `Wallet.findOne({user})`: the user's wallet, or nothing. */
    method GetWallet(u: UserId) returns (r: Option<Wallet>)
      requires Valid()
      ensures r.Some? <==> u in docs
      ensures r.Some? ==> r.value == docs[u] && r.value.user == u
    {
      if u in docs {
        r := Some(docs[u]);
      } else {
        r := None;
      }
    }

    /** `findOneAndUpdate({user}, {amount}, {new: true, upsert: true})`. */
    method UpdateWallet(u: UserId, amount: int, now: int) returns (w: Wallet)
      requires Valid()
      modifies this
      ensures Valid()
      ensures docs == Upsert(old(docs), u, amount, now) && w == docs[u]
    {
      docs := Upsert(docs, u, amount, now);
      w := docs[u];
    }

    /** `findOneAndDelete({user})`: removes and returns the wallet, or throws "Wallet not found". */
    method DeleteWallet(u: UserId) returns (r: Result<Wallet>)
      requires Valid()
      modifies this
      ensures Valid()
      ensures u !in old(docs) ==> r == Err(WalletNotFound) && docs == old(docs)
      ensures u in old(docs) ==> r == Ok(old(docs)[u]) && docs == old(docs) - {u}
    {
      if u in docs {
        r := Ok(docs[u]);
        docs := docs - {u};
      } else {
        r := Err(WalletNotFound);
      }
    }
  }
}
