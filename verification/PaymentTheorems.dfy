/** What the invariant of orders, payments and credits means over whole runs. */
module PaymentTheorems {
  import opened Options
  import opened Orders
  import opened Credits
  import opened Payments
  import opened PaymentRuns

  lemma EmptyInv()
    ensures Inv(EMPTY)
  {
  }

  // ---------- one order with a card payment ----------

  const ORDERED := EMPTY.(book := OrderBook(map[0 := Order(0, Topup, OrderStatus.Pending, 100, 100, "")], map[]))

  const CARD := Payment(0, 0, 100, "stripe", PaymentStatus.Pending, "pi", "", "", 0)

  const PREPARED := ORDERED.(
    book := OrderBook(map[0 := Order(0, Topup, OrderStatus.Pending, 100, 100, "pi")], map[]),
    payments := map[0 := CARD])

  /** A run that places an order for a top-up and creates its payment. */
  lemma Prepare(mode: Mode, es: seq<Event>) returns (all: seq<Event>)
    requires Legal(PREPARED, mode, es)
    ensures Legal(EMPTY, mode, all) && Run(EMPTY, mode, all) == Run(PREPARED, mode, es)
  {
    var order := TopupOrder(0, 0, 100, true, true);
    var intent := CreateIntent(0, 0, "pi", 0, true, true, true);
    assert Next(EMPTY, mode, order) == ORDERED;
    assert Next(ORDERED, mode, intent) == PREPARED;
    Prepend(ORDERED, mode, intent, es);
    Prepend(EMPTY, mode, order, [intent] + es);
    all := [order] + ([intent] + es);
  }

  // ---------- credits ----------

  /** However often success webhooks are redelivered and however many payments an
      order has, at most one credit entry stems from an order, and only if it is a
      settled top-up, in its amount and to its user. Every balance is what has
      been added minus what has been deducted, and is never negative. */
  lemma CreditsAtMostOnce(mode: Mode, es: seq<Event>)
    requires Legal(EMPTY, mode, es)
    ensures var c := Run(EMPTY, mode, es); var entries := c.ledger.entries;
      && (forall i, j, o :: 0 <= i < j < |entries| && ForOrder(entries[i], o) ==> !ForOrder(entries[j], o))
      && (forall i :: 0 <= i < |entries| ==> CreditOk(c.book, entries[i]))
      && (forall u :: u in c.ledger.balances ==>
            c.ledger.balances[u] == Net(entries, u) && c.ledger.balances[u] >= 0)
  {
    EmptyInv();
    InvRun(EMPTY, mode, es);
  }

  // ---------- orders and payments ----------

  /** A succeeded or refunded payment of `o` over the order's total. */
  predicate Pays(c: Commerce, p: PaymentId, o: OrderId) {
    && o in c.book.orders && p in c.payments
    && c.payments[p].order == o && Charged(c.payments[p].status)
    && c.payments[p].amount == c.book.orders[o].total
  }

  /** A paid or refunded order has a succeeded or refunded payment of its own over
      the order's total, a refunded order has a fully refunded one, and invoices
      exist only for paid or refunded orders, over the order's total. */
  lemma OrdersAndPaymentsAgree(mode: Mode, es: seq<Event>)
    requires Legal(EMPTY, mode, es)
    ensures var c := Run(EMPTY, mode, es);
      && (forall o :: o in c.book.orders && Settled(c.book.orders[o].status) ==> exists p :: Pays(c, p, o))
      && (forall o :: o in c.book.orders && c.book.orders[o].status.Refunded? ==>
            exists p :: Pays(c, p, o) && c.payments[p].refunded == c.payments[p].amount)
      && (forall i :: i in c.book.invoices ==> InvoiceOk(c.book, c.book.invoices[i]))
  {
    EmptyInv();
    InvRun(EMPTY, mode, es);
    var c := Run(EMPTY, mode, es);
    forall o | o in c.book.orders && Settled(c.book.orders[o].status) ensures exists p :: Pays(c, p, o) {
      var p :| p in c.payments && c.payments[p].order == o && Charged(c.payments[p].status);
      assert PaymentOk(c.book, c.payments[p]);
      assert Pays(c, p, o);
    }
    forall o | o in c.book.orders && c.book.orders[o].status.Refunded?
      ensures exists p :: Pays(c, p, o) && c.payments[p].refunded == c.payments[p].amount
    {
      assert HasRefunded(c.payments, o);
      var p :| p in c.payments && c.payments[p].order == o && c.payments[p].status.Refunded?;
      assert PaymentOk(c.book, c.payments[p]);
      assert Pays(c, p, o);
    }
  }

  // ---------- histories of single rows ----------

  /** What the table allows, except for the step back from failed to pending. */
  predicate OrderReaches(s: OrderStatus, t: OrderStatus) {
    t == s || (s.Pending? && !t.Pending?) || (s.Paid? && t.Refunded?)
  }

  predicate PaymentReaches(s: PaymentStatus, t: PaymentStatus) {
    t == s || s.Pending? || (s.Processing? && !t.Pending?) || (s.Succeeded? && t.Refunded?)
  }

  predicate SameOrder(o: Order, o': Order) {
    o' == o.(status := o'.status, intent := o'.intent) && OrderReaches(o.status, o'.status)
  }

  predicate SamePayment(p: Payment, p': Payment) {
    && p' == p.(status := p'.status, charge := p'.charge, tradeNo := p'.tradeNo, refunded := p'.refunded)
    && PaymentReaches(p.status, p'.status)
    && p'.refunded >= p.refunded
  }

  ghost predicate Proceeds(c: Commerce, c': Commerce) {
    && (forall o :: o in c.book.orders ==> o in c'.book.orders && SameOrder(c.book.orders[o], c'.book.orders[o]))
    && (forall p :: p in c.payments ==> p in c'.payments && SamePayment(c.payments[p], c'.payments[p]))
    && c.refunds <= c'.refunds
  }

  lemma MoveProceeds(c: Commerce, id: OrderId, status: OrderStatus, ok: bool)
    requires !status.Pending?
    ensures Proceeds(c, c.(book := MoveSpec(c.book, id, status, ok).0))
  {
  }

  lemma SettleProceeds(c: Commerce, mode: Mode, id: PaymentId, order: OrderId, w: Writes)
    requires order in c.book.orders
    ensures Proceeds(c, SettleSpec(c, mode, id, order, w).0)
  {
    MoveProceeds(c, order, OrderStatus.Paid, w.order);
  }

  lemma RowProceeds(c: Commerce, id: PaymentId, p: Payment)
    requires id in c.payments ==> SamePayment(c.payments[id], p)
    ensures Proceeds(c, Stored(c, id, p))
  {
  }

  lemma ProceedsTwice(c: Commerce, c1: Commerce, c2: Commerce)
    requires Proceeds(c, c1) && Proceeds(c1, c2)
    ensures Proceeds(c, c2)
  {
    forall o | o in c.book.orders ensures o in c2.book.orders && SameOrder(c.book.orders[o], c2.book.orders[o]) {
      assert SameOrder(c.book.orders[o], c1.book.orders[o]);
    }
    forall p | p in c.payments ensures p in c2.payments && SamePayment(c.payments[p], c2.payments[p]) {
      assert SamePayment(c.payments[p], c1.payments[p]);
    }
  }

  lemma ChargeProceeds(c: Commerce, mode: Mode, id: PaymentId, p: Payment, order: OrderId, w: Writes)
    requires order in c.book.orders && (id in c.payments ==> SamePayment(c.payments[id], p))
    ensures Proceeds(c, SettleSpec(Stored(c, id, p), mode, id, order, w).0)
  {
    RowProceeds(c, id, p);
    SettleProceeds(Stored(c, id, p), mode, id, order, w);
    ProceedsTwice(c, Stored(c, id, p), SettleSpec(Stored(c, id, p), mode, id, order, w).0);
  }

  lemma IntentProceeds(c: Commerce, order: OrderId, user: UserId, intent: string, id: PaymentId,
                       providerOk: bool, setOk: bool, createOk: bool)
    requires id !in c.payments
    ensures Proceeds(c, IntentSpec(c, order, user, intent, id, providerOk, setOk, createOk).0)
  {
  }

  lemma SucceededProceeds(c: Commerce, mode: Mode, intent: string, charge: string,
                          order: Lookup<OrderId>, found: Lookup<PaymentId>, newId: PaymentId, w: Writes)
    requires AnswersOrder(c.book, intent, order) && AnswersPayment(c.payments, intent, found)
    requires newId !in c.payments
    ensures Proceeds(c, SucceededSpec(c, mode, intent, charge, order, found, newId, w).0)
  {
    if order.Found? {
      var id := if found.Found? then found.value else newId;
      var p := if found.Found? then c.payments[id] else NewCard(order.value, c.book.orders[order.value], intent);
      if p.status.CanTransitionTo(PaymentStatus.Succeeded) {
        ChargeProceeds(c, mode, id, p.(status := PaymentStatus.Succeeded, charge := charge), order.value, w);
      }
    }
  }

  lemma NativeSuccessProceeds(c: Commerce, mode: Mode, id: PaymentId, tradeNo: string, w: Writes)
    requires id in c.payments && c.payments[id].order in c.book.orders
    ensures Proceeds(c, NativeSuccessSpec(c, mode, id, tradeNo, w).0)
  {
    var p := c.payments[id];
    if p.status.CanTransitionTo(PaymentStatus.Succeeded) {
      var p' := p.(status := PaymentStatus.Succeeded, tradeNo := tradeNo);
      RowProceeds(c, id, p');
      ChargeProceeds(c, mode, id, p', p.order, w);
    }
  }

  lemma NativeClosedProceeds(c: Commerce, id: PaymentId, ok: bool)
    requires id in c.payments
    ensures Proceeds(c, NativeClosedSpec(c, id, ok).0)
  {
  }

  lemma NotifyProceeds(c: Commerce, mode: Mode, provider: string, n: Option<Notification>, eventOk: bool, w: Writes)
    requires PaymentsInv(c.book, c.payments)
    ensures Proceeds(c, NotifySpec(c, mode, provider, n, eventOk, w).0)
  {
    if n.Some? && n.value.payment in c.payments {
      var id, tradeNo := n.value.payment, n.value.tradeNo;
      var c1 := c.(events := c.events + {(provider, EventId(provider, tradeNo))});
      assert PaymentOk(c.book, c.payments[id]);
      assert Proceeds(c, c1);
      NativeSuccessProceeds(c1, mode, id, tradeNo, w);
      NativeClosedProceeds(c1, id, w.payment);
    }
  }

  lemma RefundProceeds(c: Commerce, mode: Mode, id: PaymentId, amount: int, providerOk: bool, w: Writes)
    ensures Proceeds(c, RefundSpec(c, mode, id, amount, providerOk, w).0)
  {
    if id in c.payments && RefundRefusal(c.payments[id], amount).None? {
      var n := RefundAmount(c.payments[id], amount);
      var c1 := c.(refunds := c.refunds + [Refund(id, n, w.payment)]);
      var c2 := Stored(c1, id, AfterRefund(c.payments[id], n));
      MoveProceeds(c2, c.payments[id].order, OrderStatus.Refunded, w.order);
      ProceedsTwice(c, c2, c2.(book := MoveSpec(c2.book, c.payments[id].order, OrderStatus.Refunded, w.order).0));
    }
  }

  lemma NewRowProceeds(c: Commerce, mode: Mode, e: Event)
    requires Enabled(c, e) && (e.TopupOrder? || e.SubscriptionOrder? || e.CreateNative?)
    ensures Proceeds(c, Next(c, mode, e))
  {
  }

  lemma FailedProceeds(c: Commerce, mode: Mode, intent: string, found: Lookup<PaymentId>, ok: bool)
    requires AnswersPayment(c.payments, intent, found)
    ensures Proceeds(c, FailedSpec(c, mode, intent, found, ok).0)
  {
  }

  lemma InvoiceProceeds(c: Commerce, o: OrderId, port: InvoicePort)
    ensures Proceeds(c, c.(book := InvoiceSpec(c.book, o, port).0))
  {
  }

  lemma LedgerProceeds(c: Commerce, l: Ledger)
    ensures Proceeds(c, c.(ledger := l))
  {
  }

  lemma ProceedsStep(c: Commerce, mode: Mode, e: Event)
    requires PaymentsInv(c.book, c.payments) && Enabled(c, e)
    ensures Proceeds(c, Next(c, mode, e))
  {
    match e
    case TopupOrder(_, _, _, _, _) => NewRowProceeds(c, mode, e);
    case SubscriptionOrder(_, _, _, _, _) => NewRowProceeds(c, mode, e);
    case CancelOrder(o, ok) => MoveProceeds(c, o, OrderStatus.Canceled, ok);
    case FailOrder(o, ok) => MoveProceeds(c, o, OrderStatus.Failed, ok);
    case GenerateInvoice(o, port) => InvoiceProceeds(c, o, port);
    case CreateIntent(o, user, intent, p, providerOk, setOk, createOk) =>
      IntentProceeds(c, o, user, intent, p, providerOk, setOk, createOk);
    case CreateNative(_, _, _, _, _, _, _) => NewRowProceeds(c, mode, e);
    case PaymentSucceeded(intent, charge, foundOrder, found, p, w) =>
      SucceededProceeds(c, mode, intent, charge, foundOrder, found, p, w);
    case PaymentFailed(intent, found, ok) => FailedProceeds(c, mode, intent, found, ok);
    case Notify(provider, n, eventOk, w) => NotifyProceeds(c, mode, provider, n, eventOk, w);
    case RefundPayment(p, amount, providerOk, w) => RefundProceeds(c, mode, p, amount, providerOk, w);
    case Subscribe(user) => LedgerProceeds(c, SubscribeSpec(c.ledger, user));
    case AddManually(user, amount, ok) => LedgerProceeds(c, AddSpec(c.ledger, user, amount, Manual, ok).0);
    case Deduct(user, amount, ok) => LedgerProceeds(c, DeductSpec(c.ledger, user, amount, ok).0);
  }

  /** Over every run an order keeps its user, total, kind and credits, and its
      status only moves from pending on and from paid to refunded; in particular a
      failed order never becomes pending again, though the table allows it. A
      payment keeps its order, user, amount, provider and intent ID, is never
      un-succeeded, and its refunded amount never shrinks. */
  lemma {:induction false} RowsOnlyProceed(c: Commerce, mode: Mode, es: seq<Event>)
    requires Inv(c) && Legal(c, mode, es)
    ensures Proceeds(c, Run(c, mode, es))
    decreases |es|
  {
    if es != [] {
      ProceedsStep(c, mode, es[0]);
      InvStep(c, mode, es[0]);
      RowsOnlyProceed(Next(c, mode, es[0]), mode, es[1..]);
      ProceedsTwice(c, Next(c, mode, es[0]), Run(c, mode, es));
    }
  }

  // ---------- when a settled order is credited ----------

  ghost predicate Credited(entries: seq<Entry>, o: OrderId) {
    exists i :: 0 <= i < |entries| && ForOrder(entries[i], o)
  }

  predicate SettledTopup(b: OrderBook, o: OrderId) {
    o in b.orders && b.orders[o].kind == Topup && Settled(b.orders[o].status)
  }

  /** Nothing is settled, credited or invoiced. */
  ghost predicate Quiet(c: Commerce, c': Commerce) {
    && c'.ledger == c.ledger
    && c'.book.invoices == c.book.invoices
    && forall o :: SettledTopup(c'.book, o) ==> SettledTopup(c.book, o)
  }

  lemma MoveIsQuiet(c: Commerce, id: OrderId, status: OrderStatus, ok: bool)
    requires !status.Paid?
    ensures Quiet(c, c.(book := MoveSpec(c.book, id, status, ok).0))
  {
  }

  lemma NewOrderIsQuiet(c: Commerce, id: OrderId, user: UserId, n: int, plan: Lookup<Plan>, ok: bool, itemOk: bool)
    requires id !in c.book.orders
    ensures Quiet(c, c.(book := TopupSpec(c.book, id, user, n, ok, itemOk).0))
    ensures Quiet(c, c.(book := SubscriptionSpec(c.book, id, user, plan, ok, itemOk).0))
  {
  }

  lemma IntentIsQuiet(c: Commerce, order: OrderId, user: UserId, intent: string, id: PaymentId,
                      providerOk: bool, setOk: bool, createOk: bool)
    ensures Quiet(c, IntentSpec(c, order, user, intent, id, providerOk, setOk, createOk).0)
  {
  }

  lemma PaymentRowIsQuiet(c: Commerce, mode: Mode, o: OrderId, user: UserId, s: string, t: string, p: PaymentId,
                          providerOk: bool, ok: bool, found: Lookup<PaymentId>)
    ensures Quiet(c, NativeSpec(c, o, user, s, t, p, providerOk, ok).0)
    ensures AnswersPayment(c.payments, s, found) ==> Quiet(c, FailedSpec(c, mode, s, found, ok).0)
  {
  }

  lemma RefundIsQuiet(c: Commerce, mode: Mode, id: PaymentId, amount: int, providerOk: bool, w: Writes)
    ensures Quiet(c, RefundSpec(c, mode, id, amount, providerOk, w).0)
  {
    if id in c.payments {
      MoveIsQuiet(c, c.payments[id].order, OrderStatus.Refunded, w.order);
    }
  }

  predicate Acts(e: Event) {
    e.PaymentSucceeded? || e.Notify? || e.GenerateInvoice? || e.Subscribe? || e.AddManually? || e.Deduct?
  }

  lemma QuietStep(c: Commerce, mode: Mode, e: Event)
    requires Enabled(c, e) && !Acts(e)
    ensures Quiet(c, Next(c, mode, e))
  {
    match e
    case TopupOrder(id, user, amount, ok, itemOk) => NewOrderIsQuiet(c, id, user, amount, Missing, ok, itemOk);
    case SubscriptionOrder(id, user, plan, ok, itemOk) => NewOrderIsQuiet(c, id, user, 0, plan, ok, itemOk);
    case CancelOrder(o, ok) => MoveIsQuiet(c, o, OrderStatus.Canceled, ok);
    case FailOrder(o, ok) => MoveIsQuiet(c, o, OrderStatus.Failed, ok);
    case CreateIntent(o, user, intent, p, providerOk, setOk, createOk) =>
      IntentIsQuiet(c, o, user, intent, p, providerOk, setOk, createOk);
    case CreateNative(o, user, provider, tradeNo, p, providerOk, createOk) =>
      PaymentRowIsQuiet(c, mode, o, user, provider, tradeNo, p, providerOk, createOk, Unreadable);
    case PaymentFailed(intent, found, ok) =>
      PaymentRowIsQuiet(c, mode, 0, 0, intent, "", 0, true, ok, found);
    case RefundPayment(p, amount, providerOk, w) => RefundIsQuiet(c, mode, p, amount, providerOk, w);
  }

  lemma CreditedAppend(entries: seq<Entry>, e: Entry, o: OrderId)
    ensures Credited(entries + [e], o) <==> Credited(entries, o) || ForOrder(e, o)
  {
    var all := entries + [e];
    if Credited(entries, o) {
      var i :| 0 <= i < |entries| && ForOrder(entries[i], o);
      assert ForOrder(all[i], o);
    }
    if ForOrder(e, o) {
      assert ForOrder(all[|entries|], o);
    }
  }

  /** From `c` to `c'`, `o` is credited exactly if it is a top-up that becomes settled,
      the credit write succeeds (`ok`), and the user of the order has a subscription. */
  ghost predicate CreditsIff(c: Commerce, c': Commerce, ok: bool, o: OrderId) {
    Credited(c'.ledger.entries, o) <==>
      (Credited(c.ledger.entries, o)
       || (!SettledTopup(c.book, o) && SettledTopup(c'.book, o) && ok
           && o in c.book.orders && c.book.orders[o].user in c.ledger.balances))
  }

  lemma SettleCredits(c: Commerce, mode: Mode, id: PaymentId, order: OrderId, w: Writes, o: OrderId)
    requires OrdersInv(c.book) && order in c.book.orders
    ensures CreditsIff(c, SettleSpec(c, mode, id, order, w).0, w.credits, o)
  {
    var ord := c.book.orders[order];
    assert OrderOk(ord);
    CreditedAppend(c.ledger.entries, Added(ord.user, ord.credits, FromOrder(order)), o);
  }

  lemma SucceededCredits(c: Commerce, mode: Mode, intent: string, charge: string, order: Lookup<OrderId>,
                         found: Lookup<PaymentId>, newId: PaymentId, w: Writes, o: OrderId)
    requires OrdersInv(c.book)
    requires AnswersOrder(c.book, intent, order) && AnswersPayment(c.payments, intent, found)
    ensures CreditsIff(c, SucceededSpec(c, mode, intent, charge, order, found, newId, w).0, w.credits, o)
  {
    if order.Found? {
      var id := if found.Found? then found.value else newId;
      var p := if found.Found? then c.payments[id] else NewCard(order.value, c.book.orders[order.value], intent);
      SettleCredits(Stored(c, id, p.(status := PaymentStatus.Succeeded, charge := charge)),
                    mode, id, order.value, w, o);
    }
  }

  lemma NotifyCredits(c: Commerce, mode: Mode, provider: string, n: Option<Notification>, eventOk: bool,
                      w: Writes, o: OrderId)
    requires OrdersInv(c.book) && PaymentsInv(c.book, c.payments)
    ensures CreditsIff(c, NotifySpec(c, mode, provider, n, eventOk, w).0, w.credits, o)
  {
    if n.Some? && n.value.payment in c.payments {
      var id, tradeNo := n.value.payment, n.value.tradeNo;
      var c1 := c.(events := c.events + {(provider, EventId(provider, tradeNo))});
      assert PaymentOk(c.book, c.payments[id]);
      SettleCredits(Stored(c1, id, c.payments[id].(status := PaymentStatus.Succeeded, tradeNo := tradeNo)),
                    mode, id, c.payments[id].order, w, o);
    }
  }

  /** The step settles top-up `o`. */
  ghost predicate Settles(c: Commerce, mode: Mode, e: Event, o: OrderId)
    requires Enabled(c, e)
  {
    !SettledTopup(c.book, o) && SettledTopup(Next(c, mode, e).book, o)
  }

  /** Step `k` of the run settles top-up `o`. */
  ghost predicate SettlesAt(c: Commerce, mode: Mode, es: seq<Event>, k: nat, o: OrderId)
    requires Legal(c, mode, es) && k < |es|
  {
    Settles(StateAt(c, mode, es, k), mode, es[k], o)
  }

  ghost predicate CanCredit(c: Commerce, e: Event, o: OrderId) {
    && (e.PaymentSucceeded? || e.Notify?) && e.w.credits
    && o in c.book.orders && c.book.orders[o].user in c.ledger.balances
  }

  lemma LedgerCredits(c: Commerce, mode: Mode, e: Event, o: OrderId)
    requires e.Subscribe? || e.AddManually? || e.Deduct?
    requires Enabled(c, e)
    ensures var c' := Next(c, mode, e);
      c'.book == c.book && (Credited(c'.ledger.entries, o) <==> Credited(c.ledger.entries, o))
  {
    match e
    case Subscribe(_) =>
    case AddManually(user, amount, ok) => CreditedAppend(c.ledger.entries, Added(user, amount, Manual), o);
    case Deduct(user, amount, ok) => CreditedAppend(c.ledger.entries, Deducted(user, amount), o);
  }

  lemma CreditsStep(c: Commerce, mode: Mode, e: Event, o: OrderId)
    requires Inv(c) && Enabled(c, e)
    ensures Settles(c, mode, e, o) ==> e.PaymentSucceeded? || e.Notify?
    ensures Credited(Next(c, mode, e).ledger.entries, o) <==>
      (Credited(c.ledger.entries, o) || (Settles(c, mode, e, o) && CanCredit(c, e, o)))
  {
    match e
    case PaymentSucceeded(intent, charge, foundOrder, found, p, w) =>
      SucceededCredits(c, mode, intent, charge, foundOrder, found, p, w, o);
    case Notify(provider, n, eventOk, w) => NotifyCredits(c, mode, provider, n, eventOk, w, o);
    case Subscribe(_) => LedgerCredits(c, mode, e, o);
    case AddManually(_, _, _) => LedgerCredits(c, mode, e, o);
    case Deduct(_, _, _) => LedgerCredits(c, mode, e, o);
    case GenerateInvoice(id, port) => assert InvoiceSpec(c.book, id, port).0.orders == c.book.orders;
    case _ => QuietStep(c, mode, e);
  }

  lemma NotYetCredited(c: Commerce, o: OrderId)
    requires Inv(c) && !SettledTopup(c.book, o)
    ensures !Credited(c.ledger.entries, o)
  {
    forall i | 0 <= i < |c.ledger.entries| ensures !ForOrder(c.ledger.entries[i], o) {
      assert CreditOk(c.book, c.ledger.entries[i]);
    }
  }

  /** After an order has been settled nothing changes whether it is credited. */
  lemma {:induction false} SettledForGood(c: Commerce, mode: Mode, es: seq<Event>, o: OrderId)
    requires Inv(c) && Legal(c, mode, es) && SettledTopup(c.book, o)
    ensures SettledTopup(Run(c, mode, es).book, o)
    ensures Credited(Run(c, mode, es).ledger.entries, o) <==> Credited(c.ledger.entries, o)
    decreases |es|
  {
    if es != [] {
      var c1 := Next(c, mode, es[0]);
      InvStep(c, mode, es[0]);
      ProceedsStep(c, mode, es[0]);
      assert SameOrder(c.book.orders[o], c1.book.orders[o]);
      CreditsStep(c, mode, es[0], o);
      SettledForGood(c1, mode, es[1..], o);
    }
  }

  lemma CreditedByFirst(c: Commerce, mode: Mode, es: seq<Event>, o: OrderId)
    requires Inv(c) && Legal(c, mode, es) && es != [] && Settles(c, mode, es[0], o)
    ensures es[0].PaymentSucceeded? || es[0].Notify?
    ensures Credited(Run(c, mode, es).ledger.entries, o) <==> CanCredit(c, es[0], o)
  {
    NotYetCredited(c, o);
    CreditsStep(c, mode, es[0], o);
    InvStep(c, mode, es[0]);
    SettledForGood(Next(c, mode, es[0]), mode, es[1..], o);
  }

  /** With CreditsAtMostOnce: when an order is credited exactly once. A top-up that
      step `k` of a run settles is credited in the end if and only if the credit write
      of this step succeeds and the order's own user has a subscription by then. */
  lemma {:induction false} CreditedIff(c: Commerce, mode: Mode, es: seq<Event>, k: nat, o: OrderId)
    requires Inv(c) && Legal(c, mode, es) && k < |es| && SettlesAt(c, mode, es, k, o)
    ensures es[k].PaymentSucceeded? || es[k].Notify?
    ensures Credited(Run(c, mode, es).ledger.entries, o) <==> CanCredit(StateAt(c, mode, es, k), es[k], o)
    decreases k
  {
    if k == 0 {
      CreditedByFirst(c, mode, es, o);
    } else {
      InvStep(c, mode, es[0]);
      StateShifted(c, mode, es, k - 1);
      CreditedIff(Next(c, mode, es[0]), mode, es[1..], k - 1, o);
    }
  }

  lemma SettlesShifted(c: Commerce, mode: Mode, es: seq<Event>, j: nat, o: OrderId)
    requires Legal(c, mode, es) && j < |es| - 1
    requires SettlesAt(Next(c, mode, es[0]), mode, es[1..], j, o)
    ensures SettlesAt(c, mode, es, j + 1, o)
  {
    StateShifted(c, mode, es, j);
  }

  lemma {:induction false} NeverSettled(c: Commerce, mode: Mode, es: seq<Event>, o: OrderId)
    requires Legal(c, mode, es) && !SettledTopup(c.book, o)
    requires forall k :: 0 <= k < |es| ==> !SettlesAt(c, mode, es, k, o)
    ensures !SettledTopup(Run(c, mode, es).book, o)
    decreases |es|
  {
    if es != [] {
      assert !SettlesAt(c, mode, es, 0, o);
      forall j | 0 <= j < |es| - 1 ensures !SettlesAt(Next(c, mode, es[0]), mode, es[1..], j, o) {
        if SettlesAt(Next(c, mode, es[0]), mode, es[1..], j, o) { SettlesShifted(c, mode, es, j, o); }
      }
      NeverSettled(Next(c, mode, es[0]), mode, es[1..], o);
    }
  }

  /** Every top-up that is settled in the end has such a step. */
  lemma SettledByStep(c: Commerce, mode: Mode, es: seq<Event>, o: OrderId)
    requires Legal(c, mode, es) && !SettledTopup(c.book, o) && SettledTopup(Run(c, mode, es).book, o)
    ensures exists k :: 0 <= k < |es| && SettlesAt(c, mode, es, k, o)
  {
    if forall k :: 0 <= k < |es| ==> !SettlesAt(c, mode, es, k, o) {
      NeverSettled(c, mode, es, o);
    }
  }

  // ---------- published events ----------

  /** With a publisher, no payment record has its success published twice. */
  lemma PublishedAtMostOnce(mode: Mode, es: seq<Event>)
    requires Legal(EMPTY, mode, es)
    ensures var c := Run(EMPTY, mode, es);
      forall i, j :: 0 <= i < |c.published| && 0 <= j < |c.published| && c.published[i] == c.published[j] ==>
        i == j
  {
    EmptyInv();
    InvRun(EMPTY, mode, es);
  }

  // ---------- refunds ----------

  /** All that providers have refunded for `p`, recorded or not. */
  function Issued(refunds: seq<Refund>, p: PaymentId): int {
    if refunds == [] then 0 else
    var last := refunds[|refunds| - 1];
    Issued(refunds[..|refunds| - 1], p) + if last.payment == p then last.amount else 0
  }

  ghost predicate AllRecorded(refunds: seq<Refund>, p: PaymentId) {
    forall i :: 0 <= i < |refunds| && refunds[i].payment == p ==> refunds[i].recorded
  }

  /** Issued and recorded refunds agree exactly if every row update succeeded. */
  lemma {:induction false} IssuedIffRecorded(refunds: seq<Refund>, p: PaymentId)
    requires forall i :: 0 <= i < |refunds| ==> refunds[i].amount > 0
    ensures Issued(refunds, p) >= Recorded(refunds, p)
    ensures Issued(refunds, p) == Recorded(refunds, p) <==> AllRecorded(refunds, p)
    decreases |refunds|
  {
    if refunds != [] {
      var front := refunds[..|refunds| - 1];
      IssuedIffRecorded(front, p);
      assert refunds == front + [refunds[|refunds| - 1]];
      assert forall i :: 0 <= i < |front| ==> front[i] == refunds[i];
    }
  }

  /** Refund conservation over every run: a payment's RefundedAmount is what its
      recorded refunds sum to, lies between 0 and the amount, and reaches the
      amount exactly when the payment is refunded; all that the provider was told
      to pay back equals it exactly if no update of the row failed. */
  lemma RefundsConserved(mode: Mode, es: seq<Event>)
    requires Legal(EMPTY, mode, es)
    ensures var c := Run(EMPTY, mode, es);
      forall p :: p in c.payments ==>
        && c.payments[p].refunded == Recorded(c.refunds, p)
        && 0 <= c.payments[p].refunded <= c.payments[p].amount
        && (c.payments[p].status.Refunded? <==> c.payments[p].refunded == c.payments[p].amount)
        && (Issued(c.refunds, p) == c.payments[p].refunded <==> AllRecorded(c.refunds, p))
  {
    EmptyInv();
    InvRun(EMPTY, mode, es);
    var c := Run(EMPTY, mode, es);
    forall p | p in c.payments
      ensures PaymentOk(c.book, c.payments[p])
      ensures Issued(c.refunds, p) == c.payments[p].refunded <==> AllRecorded(c.refunds, p)
    {
      IssuedIffRecorded(c.refunds, p);
    }
  }

  lemma IssuedAppend(refunds: seq<Refund>, r: Refund, p: PaymentId)
    ensures Issued(refunds + [r], p) == Issued(refunds, p) + if r.payment == p then r.amount else 0
  {
    assert (refunds + [r])[..|refunds|] == refunds;
  }

  lemma LostUpdate(c: Commerce, mode: Mode, id: PaymentId, w: Writes)
    requires id in c.payments && RefundRefusal(c.payments[id], 0).None? && !w.payment
    ensures var n := c.payments[id].amount - c.payments[id].refunded;
      RefundSpec(c, mode, id, 0, true, w).0 == c.(refunds := c.refunds + [Refund(id, n, false)])
  {
  }

  /** A refund whose row update fails can be requested again: two such requests
      pay the whole remainder out twice. */
  lemma LostUpdateRefundsTwice(c: Commerce, mode: Mode, id: PaymentId, w: Writes)
    requires Inv(c) && id in c.payments && c.payments[id].status.Succeeded? && !w.payment
    requires RefundRefusal(c.payments[id], 0).None?
    ensures var c2 := RefundSpec(RefundSpec(c, mode, id, 0, true, w).0, mode, id, 0, true, w).0;
      && Issued(c2.refunds, id) == Issued(c.refunds, id) + 2 * (c.payments[id].amount - c.payments[id].refunded)
      && c2.payments == c.payments
  {
    var n := c.payments[id].amount - c.payments[id].refunded;
    LostUpdate(c, mode, id, w);
    LostUpdate(c.(refunds := c.refunds + [Refund(id, n, false)]), mode, id, w);
    IssuedAppend(c.refunds, Refund(id, n, false), id);
    IssuedAppend(c.refunds + [Refund(id, n, false)], Refund(id, n, false), id);
  }

  /** CreateRefund's bookkeeping is the aggregate's: whenever the provider is asked
      and the row is written, status, total and amount are what Refund computes;
      and whenever Refund refuses, so does CreateRefund, for the same reason. */
  lemma RefundRefinesAggregate(c: Commerce, mode: Mode, id: PaymentId, amount: int, providerOk: bool, w: Writes)
    requires id in c.payments
    ensures var p := c.payments[id];
      var (status, refunded, n, r) := AggregateRefund(p.amount, p.status, p.refunded, amount);
      var (c', r') := RefundSpec(c, mode, id, amount, providerOk, w);
      && (r' == Done ==>
            && r == Done && c'.refunds == c.refunds + [Refund(id, n, true)]
            && c'.payments == c.payments[id := p.(status := status, refunded := refunded)])
      && (r != Done ==> r' == r && c' == c)
  {
  }
}
