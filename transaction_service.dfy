/**
 * TransactionService: the expense ledger. Every transaction is an expense debited from its
 * owner's wallet. `create`, `updateOne` and `deleteOne` each run in one database transaction
 * that commits or aborts, so each is modelled as one all-or-nothing transition of a `Ledger`.
 */
module TransactionService {
  import opened Common
  import opened Js
  import opened TransactionModel
  import opened WalletModel
  import WalletService

  type Transactions = map<TxId, Transaction>

  // ---------------------------------------------------------------------------
  // The state the ledger keeps consistent: balances and the sum of the expenses.
  // ---------------------------------------------------------------------------

  /** `$inc: {balance: delta}` on the wallet selected by `{user: u}`, without upsert:
      nothing happens when the user has no wallet. */
  function Inc(docs: Wallets, u: UserId, delta: int): (r: Wallets)
    ensures r.Keys == docs.Keys
    ensures u in docs ==> r[u] == docs[u].(balance := docs[u].balance + delta)
    ensures forall v :: v in docs && v != u ==> r[v] == docs[v]
  {
    if u in docs then docs[u := docs[u].(balance := docs[u].balance + delta)] else docs
  }

  /** What transaction `k` adds to the spending of user `u`. */
  function Contribution(txs: Transactions, k: TxId, u: UserId): int
  {
    if k in txs && txs[k].user == u then txs[k].amount else 0
  }

  /** The sum of the amounts of `u`'s transactions whose id is below `n`. */
  function SpentBy(txs: Transactions, u: UserId, n: nat): int
  {
    if n == 0 then 0 else SpentBy(txs, u, n - 1) + Contribution(txs, n - 1, u)
  }

  /** A user's wallet balance plus everything the user has spent: what the ledger conserves. */
  function Worth(docs: Wallets, txs: Transactions, n: nat, u: UserId): int
  {
    BalanceOf(docs, u) + SpentBy(txs, u, n)
  }

  ghost predicate IdsBelow(txs: Transactions, n: nat)
  {
    forall k :: k in txs ==> k < n
  }

  ghost predicate NonNegative(docs: Wallets)
  {
    forall u :: u in docs ==> docs[u].balance >= 0
  }

  predicate Owns(txs: Transactions, id: TxId, u: UserId)
  {
    id in txs && txs[id].user == u
  }

  /** Changing the transaction map at one id changes each user's sum by that id's difference. */
  lemma {:induction false} SpentPointChange(a: Transactions, b: Transactions, u: UserId, n: nat, k: TxId)
    requires forall j :: j != k ==> Contribution(a, j, u) == Contribution(b, j, u)
    ensures SpentBy(b, u, n) == SpentBy(a, u, n) + (if k < n then Contribution(b, k, u) - Contribution(a, k, u) else 0)
  {
    if n > 0 {
      SpentPointChange(a, b, u, n - 1, k);
    }
  }

  /** Recording an expense (debit the owner's wallet, insert under a fresh id) conserves every
      user's worth. */
  lemma {:induction false} RecordConserves(docs: Wallets, txs: Transactions, n: nat, t: Transaction)
    requires IdsBelow(txs, n)
    requires t.user in docs
    ensures forall v :: Worth(Inc(docs, t.user, -t.amount), txs[n := t], n + 1, v) == Worth(docs, txs, n, v)
  {
    forall v
      ensures Worth(Inc(docs, t.user, -t.amount), txs[n := t], n + 1, v) == Worth(docs, txs, n, v)
    {
      SpentPointChange(txs, txs[n := t], v, n + 1, n);
      assert n !in txs;
    }
  }

  /** Editing an expense (move the owner's balance by the difference, replace the record with
      one of the same owner) conserves every user's worth. */
  lemma {:induction false} EditConserves(docs: Wallets, txs: Transactions, n: nat, k: TxId, t: Transaction)
    requires IdsBelow(txs, n)
    requires k in txs && t.user == txs[k].user && t.user in docs
    ensures forall v :: Worth(Inc(docs, t.user, -(t.amount - txs[k].amount)), txs[k := t], n, v) == Worth(docs, txs, n, v)
  {
    forall v
      ensures Worth(Inc(docs, t.user, -(t.amount - txs[k].amount)), txs[k := t], n, v) == Worth(docs, txs, n, v)
    {
      SpentPointChange(txs, txs[k := t], v, n, k);
    }
  }

  /** An edit that keeps the amount leaves every user's worth as it was. */
  lemma {:induction false} MetadataEditConserves(docs: Wallets, txs: Transactions, n: nat, k: TxId, t: Transaction)
    requires IdsBelow(txs, n)
    requires k in txs && t.user == txs[k].user && t.amount == txs[k].amount
    ensures forall v :: Worth(docs, txs[k := t], n, v) == Worth(docs, txs, n, v)
  {
    forall v
      ensures Worth(docs, txs[k := t], n, v) == Worth(docs, txs, n, v)
    {
      SpentPointChange(txs, txs[k := t], v, n, k);
    }
  }

  /** Removing an expense and refunding its stored amount conserves every user's worth, except
      that an owner without a wallet loses the refund. */
  lemma {:induction false} RemoveConserves(docs: Wallets, txs: Transactions, n: nat, k: TxId)
    requires IdsBelow(txs, n)
    requires k in txs
    ensures forall v :: (v != txs[k].user || v in docs) ==>
      Worth(Inc(docs, txs[k].user, txs[k].amount), txs - {k}, n, v) == Worth(docs, txs, n, v)
    ensures txs[k].user !in docs ==>
      Worth(Inc(docs, txs[k].user, txs[k].amount), txs - {k}, n, txs[k].user) == Worth(docs, txs, n, txs[k].user) - txs[k].amount
  {
    forall v
      ensures SpentBy(txs - {k}, v, n) == SpentBy(txs, v, n) - Contribution(txs, k, v)
    {
      SpentPointChange(txs, txs - {k}, v, n, k);
    }
  }

  /** Removing an expense right after recording it restores the wallets and the transactions. */
  lemma {:induction false} RemoveUndoesRecord(docs: Wallets, txs: Transactions, n: nat, t: Transaction)
    requires n !in txs
    ensures Inc(Inc(docs, t.user, -t.amount), t.user, t.amount) == docs
    ensures txs[n := t] - {n} == txs
  {
  }

  /** For the balance, editing an amount from A to B is removing A and then recording B. */
  lemma {:induction false} EditIsRemoveThenRecord(docs: Wallets, u: UserId, a: int, b: int)
    ensures Inc(docs, u, -(b - a)) == Inc(Inc(docs, u, a), u, -b)
  {
  }

  /** A refund of a negative stored amount can leave a balance negative: `deleteOne` does not
      preserve non-negative balances on its own. */
  lemma {:induction false} NegativeRefundWitness()
    ensures var docs := map[0 := Wallet(0, 0, 0)];
      NonNegative(docs) && !NonNegative(Inc(docs, 0, -5))
  {
    var docs := map[0 := Wallet(0, 0, 0)];
    assert Inc(docs, 0, -5)[0].balance == -5;
  }

  // ---------------------------------------------------------------------------
  // Inputs of the ledger operations.
  // ---------------------------------------------------------------------------

  const AllowedUpdates: set<string> := {"amount", "category", "description", "date"}

  /** The keys of a patch outside the allow-list. */
  function InvalidFields(data: Fields): (r: set<string>)
    ensures r <= data.Keys
    ensures r == {} <==> data.Keys <= AllowedUpdates
  {
    set k | k in data && k !in AllowedUpdates
  }

  /** `Number(data.amount)`; an absent amount is NaN. */
  function SpendAmount(data: Fields): Option<int>
  {
    if "amount" in data then NumberOf(data["amount"]) else None
  }

  /** The condition of `create`'s guarded write `{user, balance: {$gte: amount}}`. */
  predicate CanSpend(docs: Wallets, u: UserId, data: Fields)
  {
    u in docs && SpendAmount(data).Some? && docs[u].balance >= SpendAmount(data).value
  }

  /** The guarded write never drives the balance it debits below zero, so it keeps every
      balance non-negative. */
  lemma {:induction false} GuardedDebit(docs: Wallets, u: UserId, data: Fields)
    requires CanSpend(docs, u, data)
    ensures var after := Inc(docs, u, -SpendAmount(data).value);
            && u in after && after[u].balance == docs[u].balance - SpendAmount(data).value >= 0
            && (NonNegative(docs) ==> NonNegative(after))
  {
  }

  /** `data.amount !== undefined && data.amount !== oldTransaction.amount`. */
  predicate AmountChanges(data: Fields, t: Transaction)
  {
    "amount" in data && data["amount"] != Num(t.amount)
  }

  /** The wallet step of `updateOne`: a wallet exists, and the balance after subtracting the
      difference is not negative (a NaN balance compares as not negative). */
  predicate EditCovered(docs: Wallets, u: UserId, data: Fields, t: Transaction)
  {
    u in docs && (SpendAmount(data).Some? ==> docs[u].balance - (SpendAmount(data).value - t.amount) >= 0)
  }

  // ---------------------------------------------------------------------------
  // getAll: the query and the pagination options.
  // ---------------------------------------------------------------------------

  datatype SortOrder = Asc | Desc

  /** The filters the controller hands to `getAll`. */
  datatype Filters = Filters(
    category: Option<Category>,
    page: Option<int>,
    limit: Option<int>,
    sortBy: Option<string>,
    sortOrder: Option<SortOrder>)

  /** The options passed to the pagination plugin; the sort is one key and a direction. */
  datatype PageOptions = PageOptions(page: int, limit: int, sortKey: string, sortDirection: int)

  /** `x || fallback` for a number that may be undefined: undefined and 0 are falsy. */
  function OrElse(x: Option<int>, fallback: int): int
  {
    if x.Some? && x.value != 0 then x.value else fallback
  }

  /** `filters?.sortBy` is truthy: present and not the empty string. */
  predicate HasSortKey(f: Option<Filters>)
  {
    f.Some? && f.value.sortBy.Some? && f.value.sortBy.value != ""
  }

  /** getAll's options: page and limit default to 1 and 10 (also when 0), the sort defaults to
      newest first by `date`, and a given sort key is ascending only for "asc". */
  function Options(f: Option<Filters>): (o: PageOptions)
    ensures o.page != 0 && o.limit != 0
    ensures f.Some? && f.value.page.Some? && f.value.page.value != 0 ==> o.page == f.value.page.value
    ensures f.None? || f.value.page.None? || f.value.page == Some(0) ==> o.page == 1
    ensures f.Some? && f.value.limit.Some? && f.value.limit.value != 0 ==> o.limit == f.value.limit.value
    ensures f.None? || f.value.limit.None? || f.value.limit == Some(0) ==> o.limit == 10
    ensures !HasSortKey(f) ==> o.sortKey == "date" && o.sortDirection == -1
    ensures HasSortKey(f) ==> o.sortKey == f.value.sortBy.value
    ensures HasSortKey(f) ==> (o.sortDirection == 1 <==> f.value.sortOrder == Some(Asc))
    ensures o.sortDirection == 1 || o.sortDirection == -1
  {
    var page := if f.Some? then OrElse(f.value.page, 1) else 1;
    var limit := if f.Some? then OrElse(f.value.limit, 10) else 10;
    if HasSortKey(f) then
      PageOptions(page, limit, f.value.sortBy.value, if f.value.sortOrder == Some(Asc) then 1 else -1)
    else
      PageOptions(page, limit, "date", -1)
  }

  /** getAll's query `{user, category?}`. */
  predicate QueryMatches(u: UserId, f: Option<Filters>, t: Transaction)
  {
    t.user == u && (f.Some? && f.value.category.Some? ==> t.category == f.value.category.value)
  }

  /** The query never reaches another user's transactions: without a category filter it is
      every transaction of the caller, and with one exactly the caller's in that category.
      The cases restate `QueryMatches`; they are the whole of what `getAll` guarantees here,
      because the pagination plugin that runs the query is not modelled. */
  lemma {:induction false} QueryIsOwnerScoped(u: UserId, f: Option<Filters>, t: Transaction)
    ensures (f.None? || f.value.category.None?) ==> (QueryMatches(u, f, t) <==> t.user == u)
    ensures f.Some? && f.value.category.Some? ==>
              (QueryMatches(u, f, t) <==> t.user == u && t.category == f.value.category.value)
  {
  }

  // ---------------------------------------------------------------------------
  // Daily and monthly summaries.
  // ---------------------------------------------------------------------------

  /** The fold `reduce((sum, t) => sum + (Number(t.amount) || 0), 0)`. Stored amounts are
      always numbers here, so the `|| 0` fallback never applies. */
  function TotalSpent(ts: seq<Transaction>): int
  {
    if ts == [] then 0 else TotalSpent(ts[..|ts| - 1]) + ts[|ts| - 1].amount
  }

  lemma {:induction false} TotalSpentAppend(a: seq<Transaction>, b: seq<Transaction>)
    ensures TotalSpent(a + b) == TotalSpent(a) + TotalSpent(b)
  {
    if b == [] {
      assert a + b == a;
    } else {
      assert (a + b)[..|a + b| - 1] == a + b[..|b| - 1];
      TotalSpentAppend(a, b[..|b| - 1]);
    }
  }

  /** The total does not depend on the order the query returns the transactions in. */
  lemma {:induction false} TotalSpentPermutation(a: seq<Transaction>, b: seq<Transaction>)
    requires multiset(a) == multiset(b)
    ensures TotalSpent(a) == TotalSpent(b)
  {
    if a == [] {
      assert |b| == |multiset(b)| == 0;
    } else {
      var x := a[|a| - 1];
      var a' := a[..|a| - 1];
      assert a == a' + [x];
      assert x in multiset(a);
      var i :| 0 <= i < |b| && b[i] == x;
      var b' := b[..i] + b[i + 1..];
      assert b == b[..i] + [x] + b[i + 1..];
      assert multiset(b) == multiset(b[..i]) + multiset([x]) + multiset(b[i + 1..]);
      assert multiset(a) == multiset(a') + multiset([x]);
      assert multiset(b') == multiset(b[..i]) + multiset(b[i + 1..]);
      assert multiset(a') == multiset(a) - multiset([x]);
      assert multiset(b') == multiset(b) - multiset([x]);
      TotalSpentPermutation(a', b');
      TotalSpentAppend(a', [x]);
      TotalSpentAppend(b[..i] + [x], b[i + 1..]);
      TotalSpentAppend(b[..i], [x]);
      TotalSpentAppend(b[..i], b[i + 1..]);
    }
  }

  predicate InWindow(t: Transaction, u: UserId, lo: int, hi: int)
  {
    t.user == u && lo <= t.date <= hi
  }

  /** `find({user, date: {$gte: lo, $lte: hi}})` over the ids below `n`, in id order. */
  function Selected(txs: Transactions, u: UserId, lo: int, hi: int, n: nat): (r: seq<Transaction>)
    ensures |r| <= n
    ensures forall i :: 0 <= i < |r| ==> InWindow(r[i], u, lo, hi)
  {
    if n == 0 then []
    else Selected(txs, u, lo, hi, n - 1) + (if n - 1 in txs && InWindow(txs[n - 1], u, lo, hi) then [txs[n - 1]] else [])
  }

  /** The selection holds exactly the caller's transactions dated inside the window. */
  lemma {:induction false} SelectedExactly(txs: Transactions, u: UserId, lo: int, hi: int, n: nat, t: Transaction)
    ensures t in Selected(txs, u, lo, hi, n) <==> exists k :: 0 <= k < n && k in txs && txs[k] == t && InWindow(t, u, lo, hi)
  {
    if n > 0 {
      SelectedExactly(txs, u, lo, hi, n - 1, t);
    }
  }

  /** When the window holds all of the caller's transactions, the total spent is exactly what
      the ledger has debited for them. */
  lemma {:induction false} SelectedCoversSpent(txs: Transactions, u: UserId, lo: int, hi: int, n: nat)
    requires forall k :: k in txs && k < n && txs[k].user == u ==> lo <= txs[k].date <= hi
    ensures TotalSpent(Selected(txs, u, lo, hi, n)) == SpentBy(txs, u, n)
  {
    if n > 0 {
      SelectedCoversSpent(txs, u, lo, hi, n - 1);
      var rest := Selected(txs, u, lo, hi, n - 1);
      var last := if n - 1 in txs && InWindow(txs[n - 1], u, lo, hi) then [txs[n - 1]] else [];
      TotalSpentAppend(rest, last);
      assert TotalSpent(last) == Contribution(txs, n - 1, u);
    }
  }

  /** The month asked for when it is 1..12, otherwise the current one. */
  function ResolveMonth(month: Option<int>, currentMonth: int): (m: int)
    requires 1 <= currentMonth <= 12
    ensures 1 <= m <= 12
    ensures month.Some? && 1 <= month.value <= 12 ==> m == month.value
    ensures !(month.Some? && 1 <= month.value <= 12) ==> m == currentMonth
  {
    if month.Some? && month.value != 0 && month.value >= 1 && month.value <= 12 then month.value else currentMonth
  }

  /** `year || now.year()`. */
  function ResolveYear(year: Option<int>, currentYear: int): (y: int)
    ensures year.Some? && year.value != 0 ==> y == year.value
    ensures year.None? || year.value == 0 ==> y == currentYear
  {
    OrElse(year, currentYear)
  }

  /** `format("MMMM")`. */
  function MonthName(m: int): string
    requires 1 <= m <= 12
  {
    ["January", "February", "March", "April", "May", "June", "July",
     "August", "September", "October", "November", "December"][m - 1]
  }

  datatype DailyReport = DailyReport(totalSpent: int, date: string, count: nat, transactions: seq<Transaction>)

  datatype MonthlyReport = MonthlyReport(totalSpent: int, month: string, year: int, count: nat, transactions: seq<Transaction>)

  // ---------------------------------------------------------------------------
  // The ledger.
  // ---------------------------------------------------------------------------

  class Ledger {
    const wallets: WalletService.WalletCollection
    /** How mongoose reads a date string. */
    const parseDate: string -> Option<int>
    var txs: Transactions
    /** The next fresh transaction id. */
    var nextId: TxId

    ghost predicate Valid()
      reads this, wallets
    {
      wallets.Valid() && IdsBelow(txs, nextId)
    }

    constructor (wallets: WalletService.WalletCollection, parseDate: string -> Option<int>)
      requires wallets.Valid()
      ensures Valid()
      ensures this.wallets == wallets && this.parseDate == parseDate
      ensures txs == map[] && nextId == 0
    {
      this.wallets := wallets;
      this.parseDate := parseDate;
      txs := map[];
      nextId := 0;
    }

    /** `create`: debit the wallet under the condition `balance >= amount`, then insert the
        transaction; any failure aborts both steps. */
    method Create(u: UserId, data: Fields, now: int) returns (r: Result<(TxId, Transaction)>)
      requires Valid()
      modifies this, wallets
      ensures Valid()
      ensures r.Err? ==> wallets.docs == old(wallets.docs) && txs == old(txs) && nextId == old(nextId)
      ensures !CanSpend(old(wallets.docs), u, data) ==> r == Err(InsufficientFundsOrWalletNotFound)
      ensures CanSpend(old(wallets.docs), u, data) ==> (r.Ok? <==> Cast(Some(u), data, now, parseDate).Ok?)
      ensures CanSpend(old(wallets.docs), u, data) && r.Err? ==> r == Err(Cast(Some(u), data, now, parseDate).error)
      ensures r.Ok? ==>
        && r.value.0 !in old(txs)
        && r.value.0 == old(nextId) && nextId == old(nextId) + 1
        && Ok(r.value.1) == Cast(Some(u), data, now, parseDate)
        && r.value.1.user == u
        && Some(r.value.1.amount) == SpendAmount(data)
        && txs == old(txs)[r.value.0 := r.value.1]
        && wallets.docs == Inc(old(wallets.docs), u, -r.value.1.amount)
        && wallets.docs[u].balance >= 0
      ensures r.Ok? && NonNegative(old(wallets.docs)) ==> NonNegative(wallets.docs)
      ensures r.Ok? ==> forall v :: Worth(wallets.docs, txs, nextId, v) == Worth(old(wallets.docs), old(txs), old(nextId), v)
    {
      if !CanSpend(wallets.docs, u, data) {
        return Err(InsufficientFundsOrWalletNotFound);
      }
      var cast := Cast(Some(u), data, now, parseDate);
      if cast.Err? {
        return Err(cast.error);
      }
      var t := cast.value;
      RecordConserves(wallets.docs, txs, nextId, t);
      wallets.docs := Inc(wallets.docs, u, -t.amount);
      txs := txs[nextId := t];
      r := Ok((nextId, t));
      nextId := nextId + 1;
    }

    /** `deleteOne`: find the caller's transaction, refund its stored amount to the wallet (if
        there is a wallet) and remove it; returns the removed record. */
    method DeleteOne(u: UserId, id: TxId) returns (r: Result<Transaction>)
      requires Valid()
      modifies this, wallets
      ensures Valid()
      ensures !Owns(old(txs), id, u) ==>
        r == Err(TransactionNotFound) && wallets.docs == old(wallets.docs) && txs == old(txs) && nextId == old(nextId)
      ensures Owns(old(txs), id, u) ==>
        && r == Ok(old(txs)[id])
        && txs == old(txs) - {id}
        && nextId == old(nextId)
        && wallets.docs == Inc(old(wallets.docs), u, old(txs)[id].amount)
      ensures r.Ok? ==> forall v :: (v != u || u in old(wallets.docs)) ==>
        Worth(wallets.docs, txs, nextId, v) == Worth(old(wallets.docs), old(txs), old(nextId), v)
      ensures r.Ok? && NonNegative(old(wallets.docs)) && r.value.amount >= 0 ==> NonNegative(wallets.docs)
    {
      if !Owns(txs, id, u) {
        return Err(TransactionNotFound);
      }
      var t := txs[id];
      RemoveConserves(wallets.docs, txs, nextId, id);
      wallets.docs := Inc(wallets.docs, u, t.amount);
      txs := txs - {id};
      r := Ok(t);
    }

    /** `updateOne`: reject keys outside the allow-list before touching storage; find the
        caller's transaction; when the amount changes, move the balance by `-(new - old)` and
        abort if the wallet is missing or the balance would go negative; then apply the patch. */
    method UpdateOne(u: UserId, id: TxId, data: Fields) returns (r: Result<Transaction>)
      requires Valid()
      modifies this, wallets
      ensures Valid()
      ensures r.Err? ==> wallets.docs == old(wallets.docs) && txs == old(txs) && nextId == old(nextId)
      ensures InvalidFields(data) != {} ==> r == Err(InvalidUpdate(InvalidFields(data)))
      ensures InvalidFields(data) == {} && !Owns(old(txs), id, u) ==> r == Err(TransactionNotFound)
      ensures (InvalidFields(data) == {} && Owns(old(txs), id, u) && AmountChanges(data, old(txs)[id])
               && !EditCovered(old(wallets.docs), u, data, old(txs)[id])) ==> r == Err(InsufficientFundsToUpdate)
      ensures r.Ok? ==>
        && InvalidFields(data) == {} && Owns(old(txs), id, u)
        && Ok(r.value) == ApplyPatch(old(txs)[id], data, parseDate)
        && txs == old(txs)[id := r.value]
        && nextId == old(nextId)
      ensures r.Ok? && AmountChanges(data, old(txs)[id]) ==>
        && wallets.docs == Inc(old(wallets.docs), u, -(r.value.amount - old(txs)[id].amount))
        && u in wallets.docs && wallets.docs[u].balance >= 0
      ensures (InvalidFields(data) == {} && Owns(old(txs), id, u)
               && (AmountChanges(data, old(txs)[id]) ==> EditCovered(old(wallets.docs), u, data, old(txs)[id])))
              ==> (r.Ok? <==> ApplyPatch(old(txs)[id], data, parseDate).Ok?)
      ensures (InvalidFields(data) == {} && Owns(old(txs), id, u)
               && (AmountChanges(data, old(txs)[id]) ==> EditCovered(old(wallets.docs), u, data, old(txs)[id]))
               && ApplyPatch(old(txs)[id], data, parseDate).Err?)
              ==> r == Err(ApplyPatch(old(txs)[id], data, parseDate).error)
      ensures r.Ok? && NonNegative(old(wallets.docs)) ==> NonNegative(wallets.docs)
      ensures r.Ok? && !AmountChanges(data, old(txs)[id]) ==>
        wallets.docs == old(wallets.docs) && r.value.amount == old(txs)[id].amount
      ensures r.Ok? ==> forall v :: Worth(wallets.docs, txs, nextId, v) == Worth(old(wallets.docs), old(txs), old(nextId), v)
    {
      var invalid := InvalidFields(data);
      if invalid != {} {
        return Err(InvalidUpdate(invalid));
      }
      if !Owns(txs, id, u) {
        return Err(TransactionNotFound);
      }
      var current := txs[id];
      var changes := AmountChanges(data, current);
      if changes && !EditCovered(wallets.docs, u, data, current) {
        return Err(InsufficientFundsToUpdate);
      }
      var patched := ApplyPatch(current, data, parseDate);
      if patched.Err? {
        return Err(patched.error);
      }
      var t := patched.value;
      if changes {
        EditConserves(wallets.docs, txs, nextId, id, t);
        wallets.docs := Inc(wallets.docs, u, -(t.amount - current.amount));
      } else {
        MetadataEditConserves(wallets.docs, txs, nextId, id, t);
      }
      txs := txs[id := t];
      r := Ok(t);
    }

    /** `getDailyTransactions` for the day `[startOfDay, endOfDay]` (the time-zone arithmetic
        that finds the day is not modelled, `day` is its formatted label). */
    method GetDailyTransactions(u: UserId, startOfDay: int, endOfDay: int, day: string) returns (r: DailyReport)
      ensures r.transactions == Selected(txs, u, startOfDay, endOfDay, nextId)
      ensures forall t :: t in r.transactions <==> exists k :: k in txs && k < nextId && txs[k] == t && InWindow(t, u, startOfDay, endOfDay)
      ensures r.totalSpent == TotalSpent(r.transactions) && r.count == |r.transactions| && r.date == day
      ensures (forall k :: k in txs && k < nextId && txs[k].user == u ==> startOfDay <= txs[k].date <= endOfDay)
              ==> r.totalSpent == SpentBy(txs, u, nextId)
    {
      var selected := Selected(txs, u, startOfDay, endOfDay, nextId);
      forall t
        ensures t in selected <==> exists k :: k in txs && k < nextId && txs[k] == t && InWindow(t, u, startOfDay, endOfDay)
      {
        SelectedExactly(txs, u, startOfDay, endOfDay, nextId, t);
      }
      if forall k :: k in txs && k < nextId && txs[k].user == u ==> startOfDay <= txs[k].date <= endOfDay {
        SelectedCoversSpent(txs, u, startOfDay, endOfDay, nextId);
      }
      r := DailyReport(TotalSpent(selected), day, |selected|, selected);
    }

    /** `getMonthlyTransactions`: an absent, zero or out-of-range month falls back to the
        current month, an absent or zero year to the current year; `monthBounds` gives the
        first and last instant of a month (the time-zone arithmetic is not modelled). */
    method GetMonthlyTransactions(u: UserId, month: Option<int>, year: Option<int>, currentMonth: int, currentYear: int,
                                  monthBounds: (int, int) -> (int, int)) returns (r: MonthlyReport)
      requires 1 <= currentMonth <= 12
      ensures var m := ResolveMonth(month, currentMonth);
              var y := ResolveYear(year, currentYear);
              && r.transactions == Selected(txs, u, monthBounds(y, m).0, monthBounds(y, m).1, nextId)
              && r.month == MonthName(m) && r.year == y
      ensures r.totalSpent == TotalSpent(r.transactions) && r.count == |r.transactions|
      ensures forall t :: t in r.transactions ==> t.user == u
    {
      var m := ResolveMonth(month, currentMonth);
      var y := ResolveYear(year, currentYear);
      var bounds := monthBounds(y, m);
      var selected := Selected(txs, u, bounds.0, bounds.1, nextId);
      forall t | t in selected
        ensures t.user == u
      {
        SelectedExactly(txs, u, bounds.0, bounds.1, nextId, t);
      }
      r := MonthlyReport(TotalSpent(selected), MonthName(m), y, |selected|, selected);
    }

    /** `getOne`: only a transaction the caller owns is found. */
    method GetOne(u: UserId, id: TxId) returns (r: Result<Transaction>)
      ensures r.Ok? <==> Owns(txs, id, u)
      ensures r.Ok? ==> r.value == txs[id]
      ensures r.Err? ==> r.error == TransactionNotFound
    {
      if Owns(txs, id, u) {
        r := Ok(txs[id]);
      } else {
        r := Err(TransactionNotFound);
      }
    }
  }
}
