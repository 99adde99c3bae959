/** Credit balances (internal/domain/billing/domain.go, AddCredits and
    DeductCredits), with the list of all accepted changes. */
module Credits {
  import opened Options
  import opened Orders

  /** Where an addition comes from: the payment of an order, or a caller of the
      billing API. */
  datatype Source = FromOrder(order: OrderId) | Manual

  datatype Entry =
    | Added(user: UserId, amount: int, source: Source)
    | Deducted(user: UserId, amount: int)

  /** `balances` has one entry per subscription. */
  datatype Ledger = Ledger(balances: map<UserId, int>, entries: seq<Entry>)

  function SubscribeSpec(l: Ledger, user: UserId): Ledger {
    if user in l.balances then l else l.(balances := l.balances[user := 0])
  }

  function AddSpec(l: Ledger, user: UserId, amount: int, source: Source, ok: bool): (Ledger, Outcome) {
    if amount <= 0 then (l, Rejected(InvalidAmount))
    else if user !in l.balances then (l, Rejected(NoSubscription))
    else if !ok then (l, Rejected(StoreError))
    else (Ledger(l.balances[user := l.balances[user] + amount],
                 l.entries + [Added(user, amount, source)]), Done)
  }

  function DeductSpec(l: Ledger, user: UserId, amount: int, ok: bool): (Ledger, Outcome) {
    if amount <= 0 then (l, Rejected(InvalidAmount))
    else if user !in l.balances then (l, Rejected(NoSubscription))
    else if l.balances[user] < amount then (l, Rejected(InsufficientCredits))
    else if !ok then (l, Rejected(StoreError))
    else (Ledger(l.balances[user := l.balances[user] - amount],
                 l.entries + [Deducted(user, amount)]), Done)
  }

  class BillingDomain {
    var balances: map<UserId, int>
    ghost var entries: seq<Entry>

    ghost function View(): Ledger
      reads this
    {
      Ledger(balances, entries)
    }

    constructor ()
      ensures balances == map[] && entries == []
    {
      balances, entries := map[], [];
    }

    method CreateSubscription(user: UserId)
      modifies this
      ensures View() == SubscribeSpec(old(View()), user)
    {
      if user !in balances {
        balances := balances[user := 0];
      }
    }

    method AddCredits(user: UserId, amount: int, ghost source: Source, ok: bool) returns (r: Outcome)
      modifies this
      ensures (View(), r) == AddSpec(old(View()), user, amount, source, ok)
      ensures r == Done <==> amount > 0 && user in old(balances) && ok
      ensures balances == if r == Done then old(balances)[user := old(balances)[user] + amount] else old(balances)
      ensures r == Rejected(NoSubscription) <==> amount > 0 && user !in old(balances)
    {
      if amount <= 0 {
        return Rejected(InvalidAmount);
      }
      if user !in balances {
        return Rejected(NoSubscription);
      }
      if !ok {
        return Rejected(StoreError);
      }
      balances := balances[user := balances[user] + amount];
      entries := entries + [Added(user, amount, source)];
      r := Done;
    }

    method DeductCredits(user: UserId, amount: int, ok: bool) returns (r: Outcome)
      modifies this
      ensures (View(), r) == DeductSpec(old(View()), user, amount, ok)
      ensures r == Done <==> amount > 0 && user in old(balances) && old(balances)[user] >= amount && ok
      ensures balances == if r == Done then old(balances)[user := old(balances)[user] - amount] else old(balances)
      ensures r == Rejected(InsufficientCredits) <==>
        amount > 0 && user in old(balances) && old(balances)[user] < amount
    {
      if amount <= 0 {
        return Rejected(InvalidAmount);
      }
      if user !in balances {
        return Rejected(NoSubscription);
      }
      if balances[user] < amount {
        return Rejected(InsufficientCredits);
      }
      if !ok {
        return Rejected(StoreError);
      }
      balances := balances[user := balances[user] - amount];
      entries := entries + [Deducted(user, amount)];
      r := Done;
    }
  }

  // ---------- conservation ----------

  function Delta(e: Entry, user: UserId): int {
    match e
    case Added(u, amount, _) => if u == user then amount else 0
    case Deducted(u, amount) => if u == user then -amount else 0
  }

  /** All additions minus all deductions of `user`. */
  function Net(entries: seq<Entry>, user: UserId): int {
    if entries == [] then 0 else Net(entries[..|entries| - 1], user) + Delta(entries[|entries| - 1], user)
  }

  lemma NetAppend(entries: seq<Entry>, e: Entry, user: UserId)
    ensures Net(entries + [e], user) == Net(entries, user) + Delta(e, user)
  {
    assert (entries + [e])[..|entries|] == entries;
  }

  /** Every balance is the net of its entries and never negative; users without a
      subscription have no entries. */
  ghost predicate Conserved(l: Ledger) {
    forall u: UserId ::
      (u in l.balances ==> l.balances[u] == Net(l.entries, u) && l.balances[u] >= 0)
      && (u !in l.balances ==> Net(l.entries, u) == 0)
  }

  lemma AddConserves(l: Ledger, user: UserId, amount: int, source: Source, ok: bool)
    requires Conserved(l)
    ensures Conserved(AddSpec(l, user, amount, source, ok).0)
  {
    forall u: UserId {
      NetAppend(l.entries, Added(user, amount, source), u);
    }
  }

  lemma DeductConserves(l: Ledger, user: UserId, amount: int, ok: bool)
    requires Conserved(l)
    ensures Conserved(DeductSpec(l, user, amount, ok).0)
  {
    forall u: UserId {
      NetAppend(l.entries, Deducted(user, amount), u);
    }
  }
}
