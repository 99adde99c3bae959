/** Orders, payments and credits over whole runs: any number of orders, payments
    per order, redelivered or reordered webhooks, refunds and failing writes. */
module PaymentRuns {
  import opened Options
  import opened Orders
  import opened Credits
  import opened Payments

  datatype Event =
    | TopupOrder(id: OrderId, user: UserId, amount: int, ok: bool, itemOk: bool)
    | SubscriptionOrder(id: OrderId, user: UserId, plan: Lookup<Plan>, ok: bool, itemOk: bool)
    | CancelOrder(order: OrderId, ok: bool)
    | FailOrder(order: OrderId, ok: bool)          // also one order of an expiry sweep
    | GenerateInvoice(order: OrderId, port: InvoicePort)
    | CreateIntent(order: OrderId, user: UserId, intent: string, payment: PaymentId,
                   providerOk: bool, setOk: bool, createOk: bool)
    | CreateNative(order: OrderId, user: UserId, provider: string, tradeNo: string, payment: PaymentId,
                   providerOk: bool, createOk: bool)
    | PaymentSucceeded(intent: string, charge: string, foundOrder: Lookup<OrderId>,
                       found: Lookup<PaymentId>, payment: PaymentId, w: Writes)
    | PaymentFailed(intent: string, found: Lookup<PaymentId>, ok: bool)
    | Notify(provider: string, n: Option<Notification>, eventOk: bool, w: Writes)
    | RefundPayment(payment: PaymentId, amount: int, providerOk: bool, w: Writes)
    | Subscribe(user: UserId)
    | AddManually(user: UserId, amount: int, ok: bool)
    | Deduct(user: UserId, amount: int, ok: bool)

  ghost predicate NewIntent(c: Commerce, intent: string) {
    && intent != ""
    && (forall o :: o in c.book.orders ==> c.book.orders[o].intent != intent)
    && (forall p :: p in c.payments ==> c.payments[p].intent != intent)
  }

  /** New IDs are fresh, provider intent IDs are unique, and queries by intent ID
      that do not fail answer with a matching row if there is one. */
  ghost predicate Enabled(c: Commerce, e: Event) {
    match e
    case TopupOrder(id, _, _, _, _) => id !in c.book.orders
    case SubscriptionOrder(id, _, _, _, _) => id !in c.book.orders
    case GenerateInvoice(_, port) => port.newId !in c.book.invoices
    case CreateIntent(_, _, intent, p, _, _, _) => p !in c.payments && NewIntent(c, intent)
    case CreateNative(_, _, _, _, p, _, _) => p !in c.payments
    case PaymentSucceeded(intent, _, foundOrder, found, p, w) =>
      && intent != "" && p !in c.payments && w.invoice.newId !in c.book.invoices
      && AnswersOrder(c.book, intent, foundOrder) && AnswersPayment(c.payments, intent, found)
    case PaymentFailed(intent, found, _) => AnswersPayment(c.payments, intent, found)
    case Notify(_, _, _, w) => w.invoice.newId !in c.book.invoices
    case _ => true
  }

  ghost function Next(c: Commerce, mode: Mode, e: Event): Commerce
    requires Enabled(c, e)
  {
    match e
    case TopupOrder(id, user, amount, ok, itemOk) =>
      c.(book := TopupSpec(c.book, id, user, amount, ok, itemOk).0)
    case SubscriptionOrder(id, user, plan, ok, itemOk) =>
      c.(book := SubscriptionSpec(c.book, id, user, plan, ok, itemOk).0)
    case CancelOrder(o, ok) => c.(book := MoveSpec(c.book, o, OrderStatus.Canceled, ok).0)
    case FailOrder(o, ok) => c.(book := ExpireOneSpec(c.book, o, ok))
    case GenerateInvoice(o, port) => c.(book := InvoiceSpec(c.book, o, port).0)
    case CreateIntent(o, user, intent, p, providerOk, setOk, createOk) =>
      IntentSpec(c, o, user, intent, p, providerOk, setOk, createOk).0
    case CreateNative(o, user, provider, tradeNo, p, providerOk, createOk) =>
      NativeSpec(c, o, user, provider, tradeNo, p, providerOk, createOk).0
    case PaymentSucceeded(intent, charge, foundOrder, found, p, w) =>
      SucceededSpec(c, mode, intent, charge, foundOrder, found, p, w).0
    case PaymentFailed(intent, found, ok) => FailedSpec(c, mode, intent, found, ok).0
    case Notify(provider, n, eventOk, w) => NotifySpec(c, mode, provider, n, eventOk, w).0
    case RefundPayment(p, amount, providerOk, w) => RefundSpec(c, mode, p, amount, providerOk, w).0
    case Subscribe(user) => c.(ledger := SubscribeSpec(c.ledger, user))
    case AddManually(user, amount, ok) => c.(ledger := AddSpec(c.ledger, user, amount, Manual, ok).0)
    case Deduct(user, amount, ok) => c.(ledger := DeductSpec(c.ledger, user, amount, ok).0)
  }

  ghost predicate Legal(c: Commerce, mode: Mode, es: seq<Event>)
    decreases |es|
  {
    es == [] || (Enabled(c, es[0]) && Legal(Next(c, mode, es[0]), mode, es[1..]))
  }

  ghost function Run(c: Commerce, mode: Mode, es: seq<Event>): Commerce
    requires Legal(c, mode, es)
    decreases |es|
  {
    if es == [] then c else Run(Next(c, mode, es[0]), mode, es[1..])
  }

  /** The state after `k` events. */
  ghost function StateAt(c: Commerce, mode: Mode, es: seq<Event>, k: nat): (s: Commerce)
    requires Legal(c, mode, es) && k <= |es|
    ensures k < |es| ==> Enabled(s, es[k])
    decreases k
  {
    if k == 0 then c else StateAt(Next(c, mode, es[0]), mode, es[1..], k - 1)
  }

  lemma StateShifted(c: Commerce, mode: Mode, es: seq<Event>, k: nat)
    requires Legal(c, mode, es) && k < |es| - 1
    ensures StateAt(c, mode, es, k + 1) == StateAt(Next(c, mode, es[0]), mode, es[1..], k) && es[k + 1] == es[1..][k]
  {
  }

  lemma Prepend(c: Commerce, mode: Mode, e: Event, es: seq<Event>)
    requires Enabled(c, e) && Legal(Next(c, mode, e), mode, es)
    ensures Legal(c, mode, [e] + es) && Run(c, mode, [e] + es) == Run(Next(c, mode, e), mode, es)
  {
    assert ([e] + es)[1..] == es;
  }

  const EMPTY := Commerce(OrderBook(map[], map[]), Ledger(map[], []), map[], {}, [], [])

  // ---------- the invariant ----------

  predicate Settled(s: OrderStatus) {
    s.Paid? || s.Refunded?
  }

  predicate Charged(s: PaymentStatus) {
    s.Succeeded? || s.Refunded?
  }

  predicate OrderOk(o: Order) {
    o.total > 0 && (o.kind == Topup ==> o.credits == o.total)
  }

  ghost predicate OrdersInv(b: OrderBook) {
    forall o :: o in b.orders ==> OrderOk(b.orders[o])
  }

  predicate PaymentOk(b: OrderBook, p: Payment) {
    && p.order in b.orders
    && p.amount == b.orders[p.order].total
    && 0 <= p.refunded <= p.amount
    && (p.refunded > 0 ==> Charged(p.status))
    && (p.status.Refunded? <==> p.refunded == p.amount)
  }

  ghost predicate PaymentsInv(b: OrderBook, ps: map<PaymentId, Payment>) {
    forall p :: p in ps ==> PaymentOk(b, ps[p])
  }

  /** An intent ID leads to one order, which is the order of its payments. */
  ghost predicate IntentsInv(b: OrderBook, ps: map<PaymentId, Payment>) {
    && (forall o, q :: o in b.orders && q in b.orders && b.orders[o].intent == b.orders[q].intent != "" ==>
          o == q)
    && (forall p, o :: p in ps && o in b.orders && ps[p].intent == b.orders[o].intent != "" ==>
          ps[p].order == o)
  }

  predicate InvoiceOk(b: OrderBook, i: Invoice) {
    && i.order in b.orders
    && Settled(b.orders[i.order].status)
    && i.amount == b.orders[i.order].total
    && i.user == b.orders[i.order].user
  }

  ghost predicate InvoicesInv(b: OrderBook) {
    forall i :: i in b.invoices ==> InvoiceOk(b, b.invoices[i])
  }

  ghost predicate HasCharged(ps: map<PaymentId, Payment>, o: OrderId) {
    exists p :: p in ps && ps[p].order == o && Charged(ps[p].status)
  }

  ghost predicate HasRefunded(ps: map<PaymentId, Payment>, o: OrderId) {
    exists p :: p in ps && ps[p].order == o && ps[p].status.Refunded?
  }

  ghost predicate AgreeInv(b: OrderBook, ps: map<PaymentId, Payment>) {
    forall o :: o in b.orders ==>
      && (Settled(b.orders[o].status) ==> HasCharged(ps, o))
      && (b.orders[o].status.Refunded? ==> HasRefunded(ps, o))
  }

  predicate ForOrder(e: Entry, o: OrderId) {
    e.Added? && e.source == FromOrder(o)
  }

  /** Credits come from a settled top-up, in its amount, to its user. */
  predicate CreditOk(b: OrderBook, e: Entry) {
    e.Added? && e.source.FromOrder? ==>
      && e.source.order in b.orders
      && Settled(b.orders[e.source.order].status)
      && b.orders[e.source.order].kind == Topup
      && e.amount == b.orders[e.source.order].credits
      && e.user == b.orders[e.source.order].user
  }

  ghost predicate CreditsInv(b: OrderBook, entries: seq<Entry>) {
    && (forall i :: 0 <= i < |entries| ==> CreditOk(b, entries[i]))
    && (forall i, j, o :: 0 <= i < j < |entries| && ForOrder(entries[i], o) ==> !ForOrder(entries[j], o))
  }

  ghost predicate PublishedInv(ps: map<PaymentId, Payment>, published: seq<PaymentId>) {
    && (forall i :: 0 <= i < |published| ==> published[i] in ps && Charged(ps[published[i]].status))
    && (forall i, j :: 0 <= i < j < |published| ==> published[i] != published[j])
  }

  /** What providers refunded for `p` and the payment row knows of. */
  function Recorded(refunds: seq<Refund>, p: PaymentId): int {
    if refunds == [] then 0 else
    var last := refunds[|refunds| - 1];
    Recorded(refunds[..|refunds| - 1], p) + if last.payment == p && last.recorded then last.amount else 0
  }

  lemma RecordedAppend(refunds: seq<Refund>, r: Refund, p: PaymentId)
    ensures Recorded(refunds + [r], p)
         == Recorded(refunds, p) + if r.payment == p && r.recorded then r.amount else 0
  {
    assert (refunds + [r])[..|refunds|] == refunds;
  }

  ghost predicate RefundsInv(ps: map<PaymentId, Payment>, refunds: seq<Refund>) {
    && (forall i :: 0 <= i < |refunds| ==> refunds[i].payment in ps && refunds[i].amount > 0)
    && (forall p :: p in ps ==> ps[p].refunded == Recorded(refunds, p))
    && (forall p: PaymentId :: p !in ps ==> Recorded(refunds, p) == 0)
  }

  ghost predicate Inv(c: Commerce) {
    && OrdersInv(c.book)
    && PaymentsInv(c.book, c.payments)
    && IntentsInv(c.book, c.payments)
    && InvoicesInv(c.book)
    && AgreeInv(c.book, c.payments)
    && CreditsInv(c.book, c.ledger.entries)
    && Conserved(c.ledger)
    && PublishedInv(c.payments, c.published)
    && RefundsInv(c.payments, c.refunds)
  }

  // ---------- changes of the order book ----------

  /** Orders stay, keep what was ordered, and a settled order stays settled. */
  ghost predicate OrdersKept(b: OrderBook, b': OrderBook) {
    forall o :: o in b.orders ==>
      && o in b'.orders
      && b'.orders[o].(status := b.orders[o].status, intent := b.orders[o].intent) == b.orders[o]
      && (Settled(b.orders[o].status) ==> Settled(b'.orders[o].status))
  }

  lemma KeptOrders(c: Commerce, b': OrderBook)
    requires Inv(c) && OrdersKept(c.book, b')
    ensures PaymentsInv(b', c.payments) && CreditsInv(b', c.ledger.entries)
    ensures b'.invoices == c.book.invoices ==> InvoicesInv(b')
  {
    forall p | p in c.payments ensures PaymentOk(b', c.payments[p]) {
      assert PaymentOk(c.book, c.payments[p]);
    }
    forall i | 0 <= i < |c.ledger.entries| ensures CreditOk(b', c.ledger.entries[i]) {
      assert CreditOk(c.book, c.ledger.entries[i]);
    }
    if b'.invoices == c.book.invoices {
      forall i | i in b'.invoices ensures InvoiceOk(b', b'.invoices[i]) {
        assert InvoiceOk(c.book, c.book.invoices[i]);
      }
    }
  }

  /** A new pending order. */
  lemma NewOrderInv(c: Commerce, id: OrderId, o: Order)
    requires Inv(c) && id !in c.book.orders
    requires OrderOk(o) && o.status.Pending? && o.intent == ""
    ensures Inv(c.(book := c.book.(orders := c.book.orders[id := o])))
  {
    KeptOrders(c, c.book.(orders := c.book.orders[id := o]));
  }

  /** What the payments must show before an order may move to `status`. */
  ghost predicate Backed(ps: map<PaymentId, Payment>, id: OrderId, status: OrderStatus) {
    match status
    case Paid => HasCharged(ps, id)
    case Refunded => HasRefunded(ps, id)
    case _ => true
  }

  lemma MoveKeepsOrders(b: OrderBook, id: OrderId, status: OrderStatus, ok: bool)
    requires OrdersInv(b)
    ensures var b' := MoveSpec(b, id, status, ok).0;
      OrdersInv(b') && OrdersKept(b, b') && b'.invoices == b.invoices
  {
    assert id in b.orders ==> OrderOk(b.orders[id]);
  }

  lemma MoveKeepsAgreement(b: OrderBook, ps: map<PaymentId, Payment>, id: OrderId, status: OrderStatus, ok: bool)
    requires AgreeInv(b, ps) && IntentsInv(b, ps) && (id in b.orders ==> Backed(ps, id, status))
    ensures var b' := MoveSpec(b, id, status, ok).0; AgreeInv(b', ps) && IntentsInv(b', ps)
  {
  }

  lemma MoveInv(c: Commerce, id: OrderId, status: OrderStatus, ok: bool)
    requires Inv(c) && (id in c.book.orders ==> Backed(c.payments, id, status))
    ensures Inv(c.(book := MoveSpec(c.book, id, status, ok).0))
  {
    MoveKeepsOrders(c.book, id, status, ok);
    MoveKeepsAgreement(c.book, c.payments, id, status, ok);
    KeptOrders(c, MoveSpec(c.book, id, status, ok).0);
  }

  lemma InvoiceInv(c: Commerce, id: OrderId, port: InvoicePort)
    requires Inv(c) && port.newId !in c.book.invoices
    ensures Inv(c.(book := InvoiceSpec(c.book, id, port).0))
  {
    var b' := InvoiceSpec(c.book, id, port).0;
    assert b'.orders == c.book.orders;
    KeptOrders(c, b');
    InvoiceKeepsInvoices(c.book, id, port);
    SameOrders(c.book, b', c.payments);
  }

  lemma InvoiceKeepsInvoices(b: OrderBook, id: OrderId, port: InvoicePort)
    requires InvoicesInv(b) && port.newId !in b.invoices
    ensures InvoicesInv(InvoiceSpec(b, id, port).0)
  {
    var b' := InvoiceSpec(b, id, port).0;
    forall i | i in b'.invoices ensures InvoiceOk(b', b'.invoices[i]) {
      if i in b.invoices { assert InvoiceOk(b, b.invoices[i]); }
    }
  }

  lemma SameOrders(b: OrderBook, b': OrderBook, ps: map<PaymentId, Payment>)
    requires b'.orders == b.orders
    ensures OrdersInv(b) ==> OrdersInv(b')
    ensures IntentsInv(b, ps) ==> IntentsInv(b', ps)
    ensures AgreeInv(b, ps) ==> AgreeInv(b', ps)
  {
  }

  // ---------- changes of one payment ----------

  lemma NewPaymentKeepsAgreement(b: OrderBook, ps: map<PaymentId, Payment>, id: PaymentId, p: Payment)
    requires AgreeInv(b, ps) && id !in ps
    ensures AgreeInv(b, ps[id := p])
  {
    var ps' := ps[id := p];
    forall o | HasCharged(ps, o) ensures HasCharged(ps', o) {
      var q :| q in ps && ps[q].order == o && Charged(ps[q].status);
      assert ps'[q] == ps[q];
    }
    forall o | HasRefunded(ps, o) ensures HasRefunded(ps', o) {
      var q :| q in ps && ps[q].order == o && ps[q].status.Refunded?;
      assert ps'[q] == ps[q];
    }
  }

  lemma NewPaymentInv(c: Commerce, id: PaymentId, p: Payment)
    requires Inv(c) && id !in c.payments
    requires p.order in c.book.orders && p.amount == c.book.orders[p.order].total
    requires p.refunded == 0 && p.status.Pending?
    requires p.intent != "" ==>
      forall o :: o in c.book.orders && c.book.orders[o].intent == p.intent ==> o == p.order
    ensures Inv(Stored(c, id, p))
  {
    assert OrderOk(c.book.orders[p.order]);
    NewPaymentKeepsAgreement(c.book, c.payments, id, p);
  }

  /** The same payment with a later status (and perhaps a larger refund). */
  predicate Later(p: Payment, p': Payment) {
    && p'.order == p.order && p'.amount == p.amount && p'.intent == p.intent
    && (Charged(p.status) ==> Charged(p'.status))
    && (p.status.Refunded? ==> p'.status.Refunded?)
  }

  lemma LaterKeepsAgreement(b: OrderBook, ps: map<PaymentId, Payment>, id: PaymentId, p': Payment)
    requires AgreeInv(b, ps) && id in ps && Later(ps[id], p')
    ensures AgreeInv(b, ps[id := p'])
  {
    var ps' := ps[id := p'];
    forall o | HasCharged(ps, o) ensures HasCharged(ps', o) {
      var q :| q in ps && ps[q].order == o && Charged(ps[q].status);
      assert q in ps' && ps'[q].order == o && Charged(ps'[q].status);
    }
    forall o | HasRefunded(ps, o) ensures HasRefunded(ps', o) {
      var q :| q in ps && ps[q].order == o && ps[q].status.Refunded?;
      assert q in ps' && ps'[q].order == o && ps'[q].status.Refunded?;
    }
  }

  lemma LaterKeepsRows(b: OrderBook, ps: map<PaymentId, Payment>, published: seq<PaymentId>, id: PaymentId, p': Payment)
    requires PaymentsInv(b, ps) && IntentsInv(b, ps) && PublishedInv(ps, published)
    requires id in ps && Later(ps[id], p') && PaymentOk(b, p')
    ensures PaymentsInv(b, ps[id := p']) && IntentsInv(b, ps[id := p']) && PublishedInv(ps[id := p'], published)
  {
  }

  lemma LaterPaymentInv(c: Commerce, id: PaymentId, p': Payment)
    requires Inv(c) && id in c.payments && Later(c.payments[id], p')
    requires PaymentOk(c.book, p') && p'.refunded == c.payments[id].refunded
    ensures Inv(Stored(c, id, p'))
  {
    LaterKeepsAgreement(c.book, c.payments, id, p');
    LaterKeepsRows(c.book, c.payments, c.published, id, p');
  }

  // ---------- the handlers ----------

  lemma SettleInv(c: Commerce, mode: Mode, id: PaymentId, order: OrderId, w: Writes)
    requires Inv(c) && order in c.book.orders && w.invoice.newId !in c.book.invoices
    requires id in c.payments && c.payments[id].order == order && c.payments[id].status.Succeeded?
    requires id !in c.published
    ensures Inv(SettleSpec(c, mode, id, order, w).0)
  {
    if mode.direct {
      SettleDirectlyInv(c, mode, id, order, w);
    }
  }

  lemma SettleDirectlyInv(c: Commerce, mode: Mode, id: PaymentId, order: OrderId, w: Writes)
    requires Inv(c) && order in c.book.orders && w.invoice.newId !in c.book.invoices
    requires id in c.payments && c.payments[id].order == order && c.payments[id].status.Succeeded?
    requires mode.direct
    ensures Inv(SettleSpec(c, mode, id, order, w).0)
  {
    assert HasCharged(c.payments, order);
    var ord := c.book.orders[order];
    MoveInv(c, order, OrderStatus.Paid, w.order);
    var c1 := c.(book := MoveSpec(c.book, order, OrderStatus.Paid, w.order).0);
    if MoveSpec(c.book, order, OrderStatus.Paid, w.order).1 == Done {
      InvoiceInv(c1, order, w.invoice);
      var c2 := c1.(book := InvoiceSpec(c1.book, order, w.invoice).0);
      if ord.kind == Topup {
        NoCreditYet(c, order);
        CreditInv(c2, order, w.credits);
      }
    }
  }

  /** A pending order has not brought credits. */
  lemma NoCreditYet(c: Commerce, order: OrderId)
    requires Inv(c) && order in c.book.orders && !Settled(c.book.orders[order].status)
    ensures forall i :: 0 <= i < |c.ledger.entries| ==> !ForOrder(c.ledger.entries[i], order)
  {
    forall i | 0 <= i < |c.ledger.entries| ensures !ForOrder(c.ledger.entries[i], order) {
      assert CreditOk(c.book, c.ledger.entries[i]);
    }
  }

  lemma CreditInv(c: Commerce, order: OrderId, ok: bool)
    requires Inv(c) && order in c.book.orders
    requires c.book.orders[order].status.Paid? && c.book.orders[order].kind == Topup
    requires forall i :: 0 <= i < |c.ledger.entries| ==> !ForOrder(c.ledger.entries[i], order)
    ensures var o := c.book.orders[order];
      Inv(c.(ledger := AddSpec(c.ledger, o.user, o.credits, FromOrder(order), ok).0))
  {
    var o := c.book.orders[order];
    AddConserves(c.ledger, o.user, o.credits, FromOrder(order), ok);
  }

  lemma IntentInv(c: Commerce, order: OrderId, user: UserId, intent: string, id: PaymentId,
                  providerOk: bool, setOk: bool, createOk: bool)
    requires Inv(c) && id !in c.payments && NewIntent(c, intent)
    ensures Inv(IntentSpec(c, order, user, intent, id, providerOk, setOk, createOk).0)
  {
    SetIntentInv(c, order, intent, setOk);
    var c1 := c.(book := SetIntentSpec(c.book, order, intent, setOk));
    if order in c.book.orders {
      NewPaymentInv(c1, id, NewCard(order, c.book.orders[order], intent));
    }
  }

  lemma SetIntentInv(c: Commerce, order: OrderId, intent: string, ok: bool)
    requires Inv(c) && NewIntent(c, intent)
    ensures Inv(c.(book := SetIntentSpec(c.book, order, intent, ok)))
  {
    assert order in c.book.orders ==> OrderOk(c.book.orders[order]);
    KeptOrders(c, SetIntentSpec(c.book, order, intent, ok));
  }

  /** The tail shared by both success handlers. */
  lemma ChargeAndSettleInv(c: Commerce, mode: Mode, id: PaymentId, p': Payment, w: Writes)
    requires Inv(c) && id in c.payments && w.invoice.newId !in c.book.invoices
    requires c.payments[id].status.Pending? || c.payments[id].status.Processing?
    requires p'.(status := c.payments[id].status, charge := c.payments[id].charge,
                 tradeNo := c.payments[id].tradeNo) == c.payments[id]
    requires p'.status.Succeeded?
    ensures p'.order in c.book.orders && Inv(SettleSpec(Stored(c, id, p'), mode, id, p'.order, w).0)
  {
    assert PaymentOk(c.book, c.payments[id]);
    ChargeInv(c, id, p');
    SettleInv(Stored(c, id, p'), mode, id, p'.order, w);
  }

  lemma SucceededFoundInv(c: Commerce, mode: Mode, order: OrderId, id: PaymentId, charge: string, w: Writes)
    requires Inv(c) && id in c.payments && w.invoice.newId !in c.book.invoices
    requires c.payments[id].order == order
    requires c.payments[id].status.CanTransitionTo(PaymentStatus.Succeeded)
    ensures var p' := c.payments[id].(status := PaymentStatus.Succeeded, charge := charge);
      order in c.book.orders && Inv(SettleSpec(Stored(c, id, p'), mode, id, order, w).0)
  {
    ChargeAndSettleInv(c, mode, id, c.payments[id].(status := PaymentStatus.Succeeded, charge := charge), w);
  }

  lemma NewCardInv(c: Commerce, order: OrderId, intent: string, id: PaymentId)
    requires Inv(c) && id !in c.payments && intent != "" && AnswersOrder(c.book, intent, Found(order))
    ensures Inv(Stored(c, id, NewCard(order, c.book.orders[order], intent)))
  {
    NewPaymentInv(c, id, NewCard(order, c.book.orders[order], intent));
  }

  /** The record is stored once, already succeeded; as if it had been pending before. */
  lemma StoredTwice(c: Commerce, id: PaymentId, p: Payment, p': Payment)
    ensures Stored(Stored(c, id, p), id, p') == Stored(c, id, p')
  {
    assert c.payments[id := p][id := p'] == c.payments[id := p'];
  }

  lemma SucceededNewInv(c: Commerce, mode: Mode, order: OrderId, intent: string, id: PaymentId,
                        charge: string, w: Writes)
    requires order in c.book.orders && w.invoice.newId !in c.book.invoices
    requires Inv(Stored(c, id, NewCard(order, c.book.orders[order], intent)))
    ensures var p' := NewCard(order, c.book.orders[order], intent)
                        .(status := PaymentStatus.Succeeded, charge := charge);
      Inv(SettleSpec(Stored(c, id, p'), mode, id, order, w).0)
  {
    var p := NewCard(order, c.book.orders[order], intent);
    var p' := p.(status := PaymentStatus.Succeeded, charge := charge);
    StoredTwice(c, id, p, p');
    ChargeAndSettleInv(Stored(c, id, p), mode, id, p', w);
  }

  lemma SucceededInv(c: Commerce, mode: Mode, intent: string, charge: string,
                     order: Lookup<OrderId>, found: Lookup<PaymentId>, newId: PaymentId, w: Writes)
    requires Inv(c) && intent != "" && newId !in c.payments && w.invoice.newId !in c.book.invoices
    requires AnswersOrder(c.book, intent, order) && AnswersPayment(c.payments, intent, found)
    ensures Inv(SucceededSpec(c, mode, intent, charge, order, found, newId, w).0)
  {
    if !order.Found? || !w.payment || (found.Missing? && !mode.missingIsError) {
      assert SucceededSpec(c, mode, intent, charge, order, found, newId, w).0 == c;
    } else if found.Found? {
      assert c.payments[found.value].order == order.value;
      if c.payments[found.value].status.CanTransitionTo(PaymentStatus.Succeeded) {
        SucceededFoundInv(c, mode, order.value, found.value, charge, w);
      } else {
        assert SucceededSpec(c, mode, intent, charge, order, found, newId, w).0 == c;
      }
    } else {
      NewCardInv(c, order.value, intent, newId);
      SucceededNewInv(c, mode, order.value, intent, newId, charge, w);
    }
  }

  /** Pending or processing to succeeded. */
  lemma ChargeInv(c: Commerce, id: PaymentId, p': Payment)
    requires Inv(c) && id in c.payments
    requires c.payments[id].status.Pending? || c.payments[id].status.Processing?
    requires p'.(status := c.payments[id].status, charge := c.payments[id].charge,
                 tradeNo := c.payments[id].tradeNo) == c.payments[id]
    requires !p'.status.Refunded?
    ensures Inv(Stored(c, id, p')) && id !in c.published
  {
    assert PaymentOk(c.book, c.payments[id]);
    assert PaymentOk(c.book, p');
    LaterPaymentInv(c, id, p');
  }

  lemma NativeSuccessInv(c: Commerce, mode: Mode, id: PaymentId, tradeNo: string, w: Writes)
    requires Inv(c) && id in c.payments && w.invoice.newId !in c.book.invoices
    ensures Inv(NativeSuccessSpec(c, mode, id, tradeNo, w).0)
  {
    var p := c.payments[id];
    var p' := p.(status := PaymentStatus.Succeeded, tradeNo := tradeNo);
    if !p.status.CanTransitionTo(PaymentStatus.Succeeded) || !w.payment {
      assert NativeSuccessSpec(c, mode, id, tradeNo, w).0 == c;
    } else if w.orderRead {
      ChargeAndSettleInv(c, mode, id, p', w);
    } else {
      ChargeInv(c, id, p');
      assert NativeSuccessSpec(c, mode, id, tradeNo, w).0 == Stored(c, id, p');
    }
  }

  lemma NativeClosedInv(c: Commerce, id: PaymentId, ok: bool)
    requires Inv(c) && id in c.payments
    ensures Inv(NativeClosedSpec(c, id, ok).0)
  {
    var p := c.payments[id];
    if p.status.Pending? || p.status.Processing? {
      ChargeInv(c, id, p.(status := PaymentStatus.Canceled));
    }
  }

  lemma EventInv(c: Commerce, c1: Commerce)
    requires Inv(c) && c1 == c.(events := c1.events)
    ensures Inv(c1)
  {
  }

  lemma NotifyInv(c: Commerce, mode: Mode, provider: string, n: Option<Notification>, eventOk: bool, w: Writes)
    requires Inv(c) && w.invoice.newId !in c.book.invoices
    ensures Inv(NotifySpec(c, mode, provider, n, eventOk, w).0)
  {
    if NotifySpec(c, mode, provider, n, eventOk, w).0 != c {
      var c1 := c.(events := c.events + {(provider, EventId(provider, n.value.tradeNo))});
      EventInv(c, c1);
      match n.value.status
      case NotifySuccess => NativeSuccessInv(c1, mode, n.value.payment, n.value.tradeNo, w);
      case NotifyClosed => NativeClosedInv(c1, n.value.payment, w.payment);
      case NotifyOther =>
    }
  }

  lemma RefundInv(c: Commerce, mode: Mode, id: PaymentId, amount: int, providerOk: bool, w: Writes)
    requires Inv(c)
    ensures Inv(RefundSpec(c, mode, id, amount, providerOk, w).0)
  {
    if id in c.payments && RefundRefusal(c.payments[id], amount).None? && providerOk {
      BookInv(c, id, RefundAmount(c.payments[id], amount), w);
    }
  }

  lemma BookInv(c: Commerce, id: PaymentId, n: int, w: Writes)
    requires Inv(c) && id in c.payments && Charged(c.payments[id].status)
    requires 0 < n <= c.payments[id].amount - c.payments[id].refunded
    ensures Inv(BookSpec(c, id, n, w).0)
  {
    var p := c.payments[id];
    RefundRowInv(c, id, n, w.payment);
    var c1 := c.(refunds := c.refunds + [Refund(id, n, w.payment)]);
    if w.payment && AfterRefund(p, n).status.Refunded? {
      var c2 := Stored(c1, id, AfterRefund(p, n));
      assert HasRefunded(c2.payments, p.order) by { assert c2.payments[id].status.Refunded?; }
      MoveInv(c2, p.order, OrderStatus.Refunded, w.order);
    }
  }

  lemma RefundsAppend(ps: map<PaymentId, Payment>, refunds: seq<Refund>, id: PaymentId, n: int, ok: bool)
    requires RefundsInv(ps, refunds) && id in ps && n > 0
    ensures RefundsInv(if ok then ps[id := AfterRefund(ps[id], n)] else ps, refunds + [Refund(id, n, ok)])
  {
    forall q: PaymentId { RecordedAppend(refunds, Refund(id, n, ok), q); }
  }

  lemma RefundedOk(b: OrderBook, p: Payment, n: int)
    requires PaymentOk(b, p) && Charged(p.status) && 0 < n <= p.amount - p.refunded
    ensures PaymentOk(b, AfterRefund(p, n)) && Later(p, AfterRefund(p, n))
  {
  }

  lemma RefundUnrecordedInv(c: Commerce, id: PaymentId, n: int)
    requires Inv(c) && id in c.payments && n > 0
    ensures Inv(c.(refunds := c.refunds + [Refund(id, n, false)]))
  {
    RefundsAppend(c.payments, c.refunds, id, n, false);
  }

  lemma RefundRecordedInv(c: Commerce, id: PaymentId, n: int)
    requires Inv(c) && id in c.payments && Charged(c.payments[id].status)
    requires 0 < n <= c.payments[id].amount - c.payments[id].refunded
    ensures Inv(Stored(c.(refunds := c.refunds + [Refund(id, n, true)]), id, AfterRefund(c.payments[id], n)))
  {
    var p' := AfterRefund(c.payments[id], n);
    RefundsAppend(c.payments, c.refunds, id, n, true);
    assert PaymentOk(c.book, c.payments[id]);
    RefundedOk(c.book, c.payments[id], n);
    LaterKeepsAgreement(c.book, c.payments, id, p');
    LaterKeepsRows(c.book, c.payments, c.published, id, p');
  }

  lemma RefundRowInv(c: Commerce, id: PaymentId, n: int, ok: bool)
    requires Inv(c) && id in c.payments && Charged(c.payments[id].status)
    requires 0 < n <= c.payments[id].amount - c.payments[id].refunded
    ensures var c1 := c.(refunds := c.refunds + [Refund(id, n, ok)]);
      Inv(if ok then Stored(c1, id, AfterRefund(c.payments[id], n)) else c1)
  {
    if ok {
      RefundRecordedInv(c, id, n);
    } else {
      RefundUnrecordedInv(c, id, n);
    }
  }

  lemma LedgerInv(c: Commerce, l: Ledger)
    requires Inv(c) && Conserved(l)
    requires l.entries == c.ledger.entries
      || (|l.entries| == |c.ledger.entries| + 1 && l.entries[..|c.ledger.entries|] == c.ledger.entries
          && forall o :: !ForOrder(l.entries[|c.ledger.entries|], o))
    ensures Inv(c.(ledger := l))
  {
    if l.entries != c.ledger.entries {
      var n := |c.ledger.entries|;
      forall i | 0 <= i < |l.entries| ensures CreditOk(c.book, l.entries[i]) {
        if i < n {
          assert l.entries[i] == c.ledger.entries[i];
        } else if l.entries[i].Added? && l.entries[i].source.FromOrder? {
          assert ForOrder(l.entries[i], l.entries[i].source.order);
        }
      }
      forall i, j, o | 0 <= i < j < |l.entries| && ForOrder(l.entries[i], o)
        ensures !ForOrder(l.entries[j], o)
      {
        if j < n { assert l.entries[j] == c.ledger.entries[j] && l.entries[i] == c.ledger.entries[i]; }
      }
    }
  }

  lemma TopupInv(c: Commerce, id: OrderId, user: UserId, amount: int, ok: bool, itemOk: bool)
    requires Inv(c) && id !in c.book.orders
    ensures Inv(c.(book := TopupSpec(c.book, id, user, amount, ok, itemOk).0))
  {
    if amount >= MINIMUM_TOPUP {
      NewOrderInv(c, id, Order(user, Topup, OrderStatus.Pending, amount, amount, ""));
    }
  }

  lemma SubscriptionInv(c: Commerce, id: OrderId, user: UserId, plan: Lookup<Plan>, ok: bool, itemOk: bool)
    requires Inv(c) && id !in c.book.orders
    ensures Inv(c.(book := SubscriptionSpec(c.book, id, user, plan, ok, itemOk).0))
  {
    if plan.Found? && plan.value.price > 0 {
      NewOrderInv(c, id, Order(user, Subscription, OrderStatus.Pending, plan.value.price, 0, ""));
    }
  }

  lemma NativeInv(c: Commerce, o: OrderId, user: UserId, provider: string, tradeNo: string, p: PaymentId,
                  providerOk: bool, createOk: bool)
    requires Inv(c) && p !in c.payments
    ensures Inv(NativeSpec(c, o, user, provider, tradeNo, p, providerOk, createOk).0)
  {
    if o in c.book.orders {
      NewPaymentInv(c, p, Payment(o, user, c.book.orders[o].total, provider, PaymentStatus.Pending,
                                  "", "", tradeNo, 0));
    }
  }

  lemma FailedInv(c: Commerce, mode: Mode, intent: string, found: Lookup<PaymentId>, ok: bool)
    requires Inv(c) && AnswersPayment(c.payments, intent, found)
    ensures Inv(FailedSpec(c, mode, intent, found, ok).0)
  {
    if found.Found? && c.payments[found.value].status.CanTransitionTo(PaymentStatus.Failed) {
      ChargeInv(c, found.value, c.payments[found.value].(status := PaymentStatus.Failed));
    }
  }

  lemma AccountInv(c: Commerce, user: UserId, amount: int, ok: bool)
    requires Inv(c)
    ensures Inv(c.(ledger := SubscribeSpec(c.ledger, user)))
    ensures Inv(c.(ledger := AddSpec(c.ledger, user, amount, Manual, ok).0))
    ensures Inv(c.(ledger := DeductSpec(c.ledger, user, amount, ok).0))
  {
    LedgerInv(c, SubscribeSpec(c.ledger, user));
    AddConserves(c.ledger, user, amount, Manual, ok);
    LedgerInv(c, AddSpec(c.ledger, user, amount, Manual, ok).0);
    DeductConserves(c.ledger, user, amount, ok);
    LedgerInv(c, DeductSpec(c.ledger, user, amount, ok).0);
  }

  /** Every step of every event keeps the invariant. */
  lemma InvStep(c: Commerce, mode: Mode, e: Event)
    requires Inv(c) && Enabled(c, e)
    ensures Inv(Next(c, mode, e))
  {
    match e
    case TopupOrder(id, user, amount, ok, itemOk) => TopupInv(c, id, user, amount, ok, itemOk);
    case SubscriptionOrder(id, user, plan, ok, itemOk) => SubscriptionInv(c, id, user, plan, ok, itemOk);
    case CancelOrder(o, ok) => MoveInv(c, o, OrderStatus.Canceled, ok);
    case FailOrder(o, ok) => MoveInv(c, o, OrderStatus.Failed, ok);
    case GenerateInvoice(o, port) => InvoiceInv(c, o, port);
    case CreateIntent(o, user, intent, p, providerOk, setOk, createOk) =>
      IntentInv(c, o, user, intent, p, providerOk, setOk, createOk);
    case CreateNative(o, user, provider, tradeNo, p, providerOk, createOk) =>
      NativeInv(c, o, user, provider, tradeNo, p, providerOk, createOk);
    case PaymentSucceeded(intent, charge, foundOrder, found, p, w) =>
      SucceededInv(c, mode, intent, charge, foundOrder, found, p, w);
    case PaymentFailed(intent, found, ok) => FailedInv(c, mode, intent, found, ok);
    case Notify(provider, n, eventOk, w) => NotifyInv(c, mode, provider, n, eventOk, w);
    case RefundPayment(p, amount, providerOk, w) => RefundInv(c, mode, p, amount, providerOk, w);
    case Subscribe(user) => AccountInv(c, user, 0, true);
    case AddManually(user, amount, ok) => AccountInv(c, user, amount, ok);
    case Deduct(user, amount, ok) => AccountInv(c, user, amount, ok);
  }

  lemma {:induction false} InvRun(c: Commerce, mode: Mode, es: seq<Event>)
    requires Inv(c) && Legal(c, mode, es)
    ensures Inv(Run(c, mode, es))
    decreases |es|
  {
    if es != [] {
      InvStep(c, mode, es[0]);
      InvRun(Next(c, mode, es[0]), mode, es[1..]);
    }
  }
}
