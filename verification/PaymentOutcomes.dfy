/** Which step of a run gave an order, a payment record, an invoice or a balance what it
    is in the end, told by the events and the answers of the ports alone. */
module PaymentOutcomes {
  import opened Options
  import opened Orders
  import opened Credits
  import opened Payments
  import opened PaymentRuns
  import opened PaymentTheorems
  import opened PaymentInvoices
  import opened PaymentWebhooks

  // ---------- what one step achieves ----------

  predicate PendingOrder(b: OrderBook, o: OrderId) {
    o in b.orders && b.orders[o].status.Pending?
  }

  /** A new order: a top-up of at least 100, or a subscription to an active plan that
      is not free. */
  predicate Places(e: Event, o: OrderId) {
    match e
    case TopupOrder(id, _, amount, ok, _) => id == o && amount >= 100 && ok
    case SubscriptionOrder(id, _, plan, ok, _) =>
      id == o && plan.Found? && plan.value.active && plan.value.price > 0 && ok
    case _ => false
  }

  /** Without a publisher, a success handler that has charged a record of a pending
      order marks the order as paid. */
  ghost predicate MarksPaid(c: Commerce, mode: Mode, e: Event, o: OrderId)
    requires Enabled(c, e)
  {
    && mode.direct && PendingOrder(c.book, o) && ChargedBy(c, mode, e).Some? && e.w.order
    && if e.PaymentSucceeded? then e.foundOrder == Found(o)
       else e.w.orderRead && c.payments[e.n.value.payment].order == o
  }

  /** A request to refund all that is left of a succeeded payment, which the provider
      carries out. */
  predicate RefundsRest(c: Commerce, e: Event, p: PaymentId) {
    && e.RefundPayment? && e.payment == p && p in c.payments
    && var r := c.payments[p];
    && r.status.Succeeded? && r.refunded < r.amount && (e.amount == 0 || e.amount == r.amount - r.refunded)
    && ((r.provider == "stripe" && r.charge != "") || r.provider == "alipay" || r.provider == "wechat")
    && e.providerOk
  }

  predicate MarksRefunded(c: Commerce, e: Event, o: OrderId) {
    && e.RefundPayment? && RefundsRest(c, e, e.payment) && e.w.payment && e.w.order
    && c.payments[e.payment].order == o && o in c.book.orders && c.book.orders[o].status.Paid?
  }

  predicate MarksCanceled(c: Commerce, e: Event, o: OrderId) {
    e.CancelOrder? && e.order == o && e.ok && PendingOrder(c.book, o)
  }

  predicate MarksFailed(c: Commerce, e: Event, o: OrderId) {
    e.FailOrder? && e.order == o && e.ok && PendingOrder(c.book, o)
  }

  /** A new payment record, for a pending order of the caller or for an intent whose
      record the success handler does not find. */
  ghost predicate Records(c: Commerce, mode: Mode, e: Event, p: PaymentId)
    requires Enabled(c, e)
  {
    match e
    case CreateIntent(o, user, _, id, providerOk, _, createOk) =>
      id == p && PendingOrder(c.book, o) && c.book.orders[o].user == user && providerOk && createOk
    case CreateNative(o, user, _, _, id, providerOk, createOk) =>
      id == p && PendingOrder(c.book, o) && c.book.orders[o].user == user && providerOk && createOk
    case _ => false
  }

  predicate FailsRecord(c: Commerce, e: Event, p: PaymentId) {
    e.PaymentFailed? && e.found == Found(p) && e.ok && p in c.payments && Open(c.payments[p].status)
  }

  predicate CancelsRecord(c: Commerce, e: Event, p: PaymentId) {
    && e.Notify? && e.n.Some? && e.n.value.payment == p && e.n.value.status.NotifyClosed?
    && e.eventOk && (e.provider, e.provider + ":" + e.n.value.tradeNo) !in c.events && e.w.payment
    && p in c.payments && Open(c.payments[p].status)
  }

  // ---------- the status of an order ----------

  function OrderStatusOf(b: OrderBook, o: OrderId): Option<OrderStatus> {
    if o in b.orders then Some(b.orders[o].status) else None
  }

  ghost function OrderAfter(c: Commerce, mode: Mode, e: Event, o: OrderId): Option<OrderStatus>
    requires Enabled(c, e)
  {
    if Places(e, o) then Some(OrderStatus.Pending)
    else if MarksPaid(c, mode, e, o) then Some(Paid)
    else if MarksRefunded(c, e, o) then Some(OrderStatus.Refunded)
    else if MarksCanceled(c, e, o) then Some(OrderStatus.Canceled)
    else if MarksFailed(c, e, o) then Some(OrderStatus.Failed)
    else OrderStatusOf(c.book, o)
  }

  lemma PaidStatus(b: OrderBook, id: OrderId, ok: bool, port: InvoicePort, o: OrderId)
    ensures OrderStatusOf(PaidSpec(b, id, ok, port).0, o) ==
      if o == id && PendingOrder(b, o) && ok then Some(Paid) else OrderStatusOf(b, o)
  {
  }

  lemma SucceededOrders(c: Commerce, mode: Mode, e: Event, o: OrderId)
    requires e.PaymentSucceeded? && Enabled(c, e)
    ensures OrderStatusOf(Next(c, mode, e).book, o) == OrderAfter(c, mode, e, o)
  {
    if e.foundOrder.Found? {
      PaidStatus(c.book, e.foundOrder.value, e.w.order, e.w.invoice, o);
    }
  }

  lemma NotifyOrders(c: Commerce, mode: Mode, e: Event, o: OrderId)
    requires PaymentsInv(c.book, c.payments) && e.Notify? && Enabled(c, e)
    ensures OrderStatusOf(Next(c, mode, e).book, o) == OrderAfter(c, mode, e, o)
  {
    if e.n.Some? && e.n.value.payment in c.payments {
      assert PaymentOk(c.book, c.payments[e.n.value.payment]);
      PaidStatus(c.book, c.payments[e.n.value.payment].order, e.w.order, e.w.invoice, o);
    }
  }

  lemma RefundOrders(c: Commerce, mode: Mode, e: Event, o: OrderId)
    requires PaymentsInv(c.book, c.payments) && e.RefundPayment? && Enabled(c, e)
    ensures OrderStatusOf(Next(c, mode, e).book, o) == OrderAfter(c, mode, e, o)
  {
    if e.payment in c.payments {
      assert PaymentOk(c.book, c.payments[e.payment]);
    }
  }

  lemma PlainOrders(c: Commerce, mode: Mode, e: Event, o: OrderId)
    requires Enabled(c, e) && !e.PaymentSucceeded? && !e.Notify? && !e.RefundPayment?
    ensures OrderStatusOf(Next(c, mode, e).book, o) == OrderAfter(c, mode, e, o)
  {
  }

  lemma OrderStep(c: Commerce, mode: Mode, e: Event, o: OrderId)
    requires Inv(c) && Enabled(c, e)
    ensures OrderStatusOf(Next(c, mode, e).book, o) == OrderAfter(c, mode, e, o)
  {
    match e
    case PaymentSucceeded(_, _, _, _, _, _) => SucceededOrders(c, mode, e, o);
    case Notify(_, _, _, _) => NotifyOrders(c, mode, e, o);
    case RefundPayment(_, _, _, _) => RefundOrders(c, mode, e, o);
    case _ => PlainOrders(c, mode, e, o);
  }

  // ---------- the status of a payment record ----------

  function RecordStatusOf(ps: map<PaymentId, Payment>, p: PaymentId): Option<PaymentStatus> {
    if p in ps then Some(ps[p].status) else None
  }

  ghost function RecordAfter(c: Commerce, mode: Mode, e: Event, p: PaymentId): Option<PaymentStatus>
    requires Enabled(c, e)
  {
    if Records(c, mode, e, p) then Some(PaymentStatus.Pending)
    else if ChargedBy(c, mode, e) == Some(p) then Some(Succeeded)
    else if RefundsRest(c, e, p) && e.w.payment then Some(PaymentStatus.Refunded)
    else if FailsRecord(c, e, p) then Some(PaymentStatus.Failed)
    else if CancelsRecord(c, e, p) then Some(PaymentStatus.Canceled)
    else RecordStatusOf(c.payments, p)
  }

  lemma SucceededRecords(c: Commerce, mode: Mode, e: Event, p: PaymentId)
    requires e.PaymentSucceeded? && Enabled(c, e)
    ensures RecordStatusOf(Next(c, mode, e).payments, p) == RecordAfter(c, mode, e, p)
  {
  }

  lemma NotifyRecords(c: Commerce, mode: Mode, e: Event, p: PaymentId)
    requires e.Notify? && Enabled(c, e)
    ensures RecordStatusOf(Next(c, mode, e).payments, p) == RecordAfter(c, mode, e, p)
  {
  }

  lemma RefundRecords(c: Commerce, mode: Mode, e: Event, p: PaymentId)
    requires PaymentsInv(c.book, c.payments) && e.RefundPayment? && Enabled(c, e)
    ensures RecordStatusOf(Next(c, mode, e).payments, p) == RecordAfter(c, mode, e, p)
  {
    if e.payment in c.payments {
      assert PaymentOk(c.book, c.payments[e.payment]);
    }
  }

  lemma PlainRecords(c: Commerce, mode: Mode, e: Event, p: PaymentId)
    requires Enabled(c, e) && !e.PaymentSucceeded? && !e.Notify? && !e.RefundPayment?
    ensures RecordStatusOf(Next(c, mode, e).payments, p) == RecordAfter(c, mode, e, p)
  {
  }

  lemma RecordStep(c: Commerce, mode: Mode, e: Event, p: PaymentId)
    requires Inv(c) && Enabled(c, e)
    ensures RecordStatusOf(Next(c, mode, e).payments, p) == RecordAfter(c, mode, e, p)
  {
    match e
    case PaymentSucceeded(_, _, _, _, _, _) => SucceededRecords(c, mode, e, p);
    case Notify(_, _, _, _) => NotifyRecords(c, mode, e, p);
    case RefundPayment(_, _, _, _) => RefundRecords(c, mode, e, p);
    case _ => PlainRecords(c, mode, e, p);
  }

  // ---------- publications and invoices ----------

  ghost predicate Publishes(c: Commerce, mode: Mode, e: Event, p: PaymentId)
    requires Enabled(c, e)
  {
    !mode.direct && ChargedBy(c, mode, e) == Some(p) && (e.Notify? ==> e.w.orderRead)
  }

  lemma SucceededPublishes(c: Commerce, mode: Mode, e: Event, p: PaymentId)
    requires e.PaymentSucceeded? && Enabled(c, e)
    ensures p in Next(c, mode, e).published <==> p in c.published || Publishes(c, mode, e, p)
  {
  }

  lemma NotifyPublishes(c: Commerce, mode: Mode, e: Event, p: PaymentId)
    requires PaymentsInv(c.book, c.payments) && e.Notify? && Enabled(c, e)
    ensures p in Next(c, mode, e).published <==> p in c.published || Publishes(c, mode, e, p)
  {
    if e.n.Some? && e.n.value.payment in c.payments {
      assert PaymentOk(c.book, c.payments[e.n.value.payment]);
    }
  }

  lemma PublishStep(c: Commerce, mode: Mode, e: Event, p: PaymentId)
    requires Inv(c) && Enabled(c, e)
    ensures p in Next(c, mode, e).published <==> p in c.published || Publishes(c, mode, e, p)
  {
    match e
    case PaymentSucceeded(_, _, _, _, _, _) => SucceededPublishes(c, mode, e, p);
    case Notify(_, _, _, _) => NotifyPublishes(c, mode, e, p);
    case _ =>
  }

  /** A pending order has no invoice, so that marking it as paid makes one. */
  ghost predicate MakesInvoice(c: Commerce, mode: Mode, e: Event, o: OrderId)
    requires Enabled(c, e)
  {
    || (MarksPaid(c, mode, e, o) && e.w.invoice.writeOk)
    || (e.GenerateInvoice? && e.order == o && e.port.writeOk && o in c.book.orders && c.book.orders[o].status.Paid?)
  }

  lemma PaidInvoice(b: OrderBook, id: OrderId, ok: bool, port: InvoicePort, o: OrderId)
    requires InvoicesInv(b) && port.newId !in b.invoices
    ensures HasInvoice(PaidSpec(b, id, ok, port).0, o) <==>
      HasInvoice(b, o) || (o == id && PendingOrder(b, o) && ok && port.writeOk)
  {
    var b' := PaidSpec(b, id, ok, port).0;
    if HasInvoice(b, o) {
      var i :| i in b.invoices && b.invoices[i].order == o;
      assert InvoiceOk(b, b.invoices[i]) && b'.invoices[i].order == o;
    }
    if HasInvoice(b, id) {
      var i :| i in b.invoices && b.invoices[i].order == id;
      assert InvoiceOk(b, b.invoices[i]);
    } else if PendingOrder(b, id) && ok && port.writeOk {
      assert b'.invoices[port.newId].order == id;
    }
  }

  lemma InvoiceMade(b: OrderBook, id: OrderId, port: InvoicePort, o: OrderId)
    requires port.newId !in b.invoices
    ensures HasInvoice(InvoiceSpec(b, id, port).0, o) <==>
      HasInvoice(b, o) || (o == id && port.writeOk && o in b.orders && b.orders[o].status.Paid?)
  {
    var b' := InvoiceSpec(b, id, port).0;
    if HasInvoice(b, o) {
      var i :| i in b.invoices && b.invoices[i].order == o;
      assert b'.invoices[i].order == o;
    } else if o == id && port.writeOk && o in b.orders && b.orders[o].status.Paid? {
      assert b'.invoices[port.newId].order == o;
    }
  }

  lemma SucceededInvoice(c: Commerce, mode: Mode, e: Event, o: OrderId)
    requires InvoicesInv(c.book) && e.PaymentSucceeded? && Enabled(c, e)
    ensures HasInvoice(Next(c, mode, e).book, o) <==> HasInvoice(c.book, o) || MakesInvoice(c, mode, e, o)
  {
    if e.foundOrder.Found? {
      PaidInvoice(c.book, e.foundOrder.value, e.w.order, e.w.invoice, o);
    }
  }

  lemma NotifyInvoice(c: Commerce, mode: Mode, e: Event, o: OrderId)
    requires InvoicesInv(c.book) && PaymentsInv(c.book, c.payments) && e.Notify? && Enabled(c, e)
    ensures HasInvoice(Next(c, mode, e).book, o) <==> HasInvoice(c.book, o) || MakesInvoice(c, mode, e, o)
  {
    if e.n.Some? && e.n.value.payment in c.payments {
      assert PaymentOk(c.book, c.payments[e.n.value.payment]);
      PaidInvoice(c.book, c.payments[e.n.value.payment].order, e.w.order, e.w.invoice, o);
    }
  }

  lemma InvoiceStep(c: Commerce, mode: Mode, e: Event, o: OrderId)
    requires Inv(c) && Enabled(c, e)
    ensures HasInvoice(Next(c, mode, e).book, o) <==> HasInvoice(c.book, o) || MakesInvoice(c, mode, e, o)
  {
    match e
    case GenerateInvoice(id, port) => InvoiceMade(c.book, id, port, o);
    case PaymentSucceeded(_, _, _, _, _, _) => SucceededInvoice(c, mode, e, o);
    case Notify(_, _, _, _) => NotifyInvoice(c, mode, e, o);
    case Subscribe(_) =>
    case AddManually(_, _, _) =>
    case Deduct(_, _, _) =>
    case _ => QuietStep(c, mode, e);
  }

  // ---------- contents of new and changed rows ----------

  /** A new order is pending, over the amount asked for or the price of the plan. */
  lemma PlacedOrder(c: Commerce, mode: Mode, e: Event, o: OrderId)
    requires Enabled(c, e) && Places(e, o)
    ensures o in Next(c, mode, e).book.orders
    ensures Next(c, mode, e).book.orders[o] ==
      if e.TopupOrder? then Order(e.user, Topup, OrderStatus.Pending, e.amount, e.amount, "")
      else Order(e.user, Subscription, OrderStatus.Pending, e.plan.value.price, 0, "")
  {
  }

  /** A new record belongs to the order and its user, over the order's total. */
  lemma MadeRecord(c: Commerce, mode: Mode, e: Event, p: PaymentId)
    requires Enabled(c, e) && p !in c.payments && p in Next(c, mode, e).payments
    ensures var r := Next(c, mode, e).payments[p];
      match e
      case CreateIntent(o, user, intent, _, _, _, _) =>
        o in c.book.orders
        && r == Payment(o, user, c.book.orders[o].total, "stripe", PaymentStatus.Pending, intent, "", "", 0)
      case CreateNative(o, user, provider, tradeNo, _, _, _) =>
        o in c.book.orders
        && r == Payment(o, user, c.book.orders[o].total, provider, PaymentStatus.Pending, "", "", tradeNo, 0)
      case PaymentSucceeded(intent, charge, Found(o), _, _, _) =>
        r == Payment(o, c.book.orders[o].user, c.book.orders[o].total, "stripe", Succeeded, intent, charge, "", 0)
      case _ => false
  {
    if e.RefundPayment? {
      RefundCharges(c, mode, e);
    }
  }

  /** A record that is charged gets the charge of the webhook, or the trade number of
      the notification, and nothing else changes in it. */
  lemma ChargedRecord(c: Commerce, mode: Mode, e: Event, p: PaymentId)
    requires Enabled(c, e) && ChargedBy(c, mode, e) == Some(p) && p in c.payments
    ensures p in Next(c, mode, e).payments
    ensures var r := c.payments[p];
      Next(c, mode, e).payments[p] ==
        if e.PaymentSucceeded? then r.(status := Succeeded, charge := e.charge)
        else r.(status := Succeeded, tradeNo := e.n.value.tradeNo)
  {
  }

  /** The provider is asked to refund `n` of record `p`: some of what is left, or, for a
      request over 0, all of it. */
  predicate AsksProvider(c: Commerce, e: Event, p: PaymentId, n: int) {
    && e.RefundPayment? && e.payment == p && p in c.payments && e.providerOk
    && var r := c.payments[p];
    && (r.status.Succeeded? || r.status.Refunded?)
    && 0 < n <= r.amount - r.refunded && (e.amount == n || (e.amount == 0 && n == r.amount - r.refunded))
    && ((r.provider == "stripe" && r.charge != "") || r.provider == "alipay" || r.provider == "wechat")
  }

  /** What a refund request does: nothing unless the provider is asked; then the refund is
      issued and, if the row can be written, added to the refunded amount. */
  lemma RefundStepIff(c: Commerce, mode: Mode, e: Event, n: int)
    requires PaymentsInv(c.book, c.payments) && Enabled(c, e) && e.RefundPayment?
    ensures AsksProvider(c, e, e.payment, n) <==>
      Next(c, mode, e).refunds == c.refunds + [Refund(e.payment, n, e.w.payment)]
    ensures AsksProvider(c, e, e.payment, n) && e.w.payment ==>
      var r, r' := c.payments[e.payment], Next(c, mode, e).payments[e.payment];
      r'.refunded == r.refunded + n && r' == r.(refunded := r'.refunded, status := r'.status)
    ensures !e.w.payment || Next(c, mode, e).refunds == c.refunds ==> Next(c, mode, e).payments == c.payments
  {
    if e.payment in c.payments {
      assert PaymentOk(c.book, c.payments[e.payment]);
    }
    var m := if e.payment in c.payments then RefundAmount(c.payments[e.payment], e.amount) else 0;
    assert Next(c, mode, e).refunds == c.refunds
        || Next(c, mode, e).refunds == c.refunds + [Refund(e.payment, m, e.w.payment)];
    assert (c.refunds + [Refund(e.payment, m, e.w.payment)])[|c.refunds|] == Refund(e.payment, m, e.w.payment);
    assert (c.refunds + [Refund(e.payment, n, e.w.payment)])[|c.refunds|] == Refund(e.payment, n, e.w.payment);
  }

  // ---------- over whole runs ----------

  /** What can become true of an order or a payment record and then stays true. */
  datatype Aim =
    | OrderPlaced(order: OrderId)
    | OrderSettled(order: OrderId)
    | OrderRefunded(order: OrderId)
    | OrderCanceled(order: OrderId)
    | OrderFailed(order: OrderId)
    | OrderInvoiced(order: OrderId)
    | RecordMade(payment: PaymentId)
    | RecordCharged(payment: PaymentId)
    | RecordRefunded(payment: PaymentId)
    | RecordFailed(payment: PaymentId)
    | RecordCanceled(payment: PaymentId)
    | RecordPublished(payment: PaymentId)

  ghost predicate Reached(c: Commerce, aim: Aim) {
    match aim
    case OrderPlaced(o) => o in c.book.orders
    case OrderSettled(o) => OrderStatusOf(c.book, o) in {Some(Paid), Some(OrderStatus.Refunded)}
    case OrderRefunded(o) => OrderStatusOf(c.book, o) == Some(OrderStatus.Refunded)
    case OrderCanceled(o) => OrderStatusOf(c.book, o) == Some(OrderStatus.Canceled)
    case OrderFailed(o) => OrderStatusOf(c.book, o) == Some(OrderStatus.Failed)
    case OrderInvoiced(o) => HasInvoice(c.book, o)
    case RecordMade(p) => p in c.payments
    case RecordCharged(p) => RecordStatusOf(c.payments, p) in {Some(Succeeded), Some(PaymentStatus.Refunded)}
    case RecordRefunded(p) => RecordStatusOf(c.payments, p) == Some(PaymentStatus.Refunded)
    case RecordFailed(p) => RecordStatusOf(c.payments, p) == Some(PaymentStatus.Failed)
    case RecordCanceled(p) => RecordStatusOf(c.payments, p) == Some(PaymentStatus.Canceled)
    case RecordPublished(p) => p in c.published
  }

  /** The step that makes it true. */
  ghost predicate Achieves(c: Commerce, mode: Mode, e: Event, aim: Aim)
    requires Enabled(c, e)
  {
    match aim
    case OrderPlaced(o) => Places(e, o)
    case OrderSettled(o) => MarksPaid(c, mode, e, o)
    case OrderRefunded(o) => MarksRefunded(c, e, o)
    case OrderCanceled(o) => MarksCanceled(c, e, o)
    case OrderFailed(o) => MarksFailed(c, e, o)
    case OrderInvoiced(o) => MakesInvoice(c, mode, e, o)
    case RecordMade(p) => Records(c, mode, e, p) || ChargedBy(c, mode, e) == Some(p)
    case RecordCharged(p) => ChargedBy(c, mode, e) == Some(p)
    case RecordRefunded(p) => RefundsRest(c, e, p) && e.w.payment
    case RecordFailed(p) => FailsRecord(c, e, p)
    case RecordCanceled(p) => CancelsRecord(c, e, p)
    case RecordPublished(p) => Publishes(c, mode, e, p)
  }

  lemma OrderAims(c: Commerce, mode: Mode, e: Event, o: OrderId, aim: Aim)
    requires Inv(c) && Enabled(c, e)
    requires aim in {OrderPlaced(o), OrderSettled(o), OrderRefunded(o), OrderCanceled(o), OrderFailed(o)}
    ensures Reached(Next(c, mode, e), aim) <==> Reached(c, aim) || Achieves(c, mode, e, aim)
  {
    OrderStep(c, mode, e, o);
    OrderGuards(c, mode, e, o);
    OrderAimsAfter(c, mode, e, o, OrderStatusOf(Next(c, mode, e).book, o));
  }

  /** A step changes an order in one way at most. */
  lemma OrderGuards(c: Commerce, mode: Mode, e: Event, o: OrderId)
    requires Enabled(c, e)
    ensures Places(e, o) ==> o !in c.book.orders
    ensures MarksPaid(c, mode, e, o) ==> e.PaymentSucceeded? || e.Notify?
  {
  }

  lemma OrderAimsAfter(c: Commerce, mode: Mode, e: Event, o: OrderId, after: Option<OrderStatus>)
    requires Enabled(c, e) && after == OrderAfter(c, mode, e, o)
    requires Places(e, o) ==> o !in c.book.orders
    requires MarksPaid(c, mode, e, o) ==> e.PaymentSucceeded? || e.Notify?
    ensures after.Some? <==> Reached(c, OrderPlaced(o)) || Achieves(c, mode, e, OrderPlaced(o))
    ensures after in {Some(Paid), Some(OrderStatus.Refunded)} <==>
      Reached(c, OrderSettled(o)) || Achieves(c, mode, e, OrderSettled(o))
    ensures after == Some(OrderStatus.Refunded) <==>
      Reached(c, OrderRefunded(o)) || Achieves(c, mode, e, OrderRefunded(o))
    ensures after == Some(OrderStatus.Canceled) <==>
      Reached(c, OrderCanceled(o)) || Achieves(c, mode, e, OrderCanceled(o))
    ensures after == Some(OrderStatus.Failed) <==>
      Reached(c, OrderFailed(o)) || Achieves(c, mode, e, OrderFailed(o))
  {
  }

  /** What a step that writes a record has found there. */
  lemma RecordGuards(c: Commerce, mode: Mode, e: Event, p: PaymentId)
    requires Enabled(c, e)
    ensures Records(c, mode, e, p) ==> p !in c.payments && ChargedBy(c, mode, e).None?
    ensures ChargedBy(c, mode, e) == Some(p) && p in c.payments ==> Open(c.payments[p].status)
    ensures ChargedBy(c, mode, e) == Some(p) ==> e.PaymentSucceeded? || (e.Notify? && e.n.value.status.NotifySuccess?)
  {
  }

  lemma RecordAims(c: Commerce, mode: Mode, e: Event, p: PaymentId, aim: Aim)
    requires Inv(c) && Enabled(c, e)
    requires aim in {RecordMade(p), RecordCharged(p), RecordRefunded(p), RecordFailed(p), RecordCanceled(p)}
    ensures Reached(Next(c, mode, e), aim) <==> Reached(c, aim) || Achieves(c, mode, e, aim)
  {
    RecordStep(c, mode, e, p);
    RecordGuards(c, mode, e, p);
    RecordAimsAfter(c, mode, e, p, RecordStatusOf(Next(c, mode, e).payments, p));
  }

  lemma RecordAimsAfter(c: Commerce, mode: Mode, e: Event, p: PaymentId, after: Option<PaymentStatus>)
    requires Enabled(c, e) && after == RecordAfter(c, mode, e, p)
    requires Records(c, mode, e, p) ==> p !in c.payments && ChargedBy(c, mode, e).None?
    requires ChargedBy(c, mode, e) == Some(p) && p in c.payments ==> Open(c.payments[p].status)
    requires ChargedBy(c, mode, e) == Some(p) ==> e.PaymentSucceeded? || (e.Notify? && e.n.value.status.NotifySuccess?)
    ensures after.Some? <==> Reached(c, RecordMade(p)) || Achieves(c, mode, e, RecordMade(p))
    ensures after in {Some(Succeeded), Some(PaymentStatus.Refunded)} <==>
      Reached(c, RecordCharged(p)) || Achieves(c, mode, e, RecordCharged(p))
    ensures after == Some(PaymentStatus.Refunded) <==>
      Reached(c, RecordRefunded(p)) || Achieves(c, mode, e, RecordRefunded(p))
    ensures after == Some(PaymentStatus.Failed) <==>
      Reached(c, RecordFailed(p)) || Achieves(c, mode, e, RecordFailed(p))
    ensures after == Some(PaymentStatus.Canceled) <==>
      Reached(c, RecordCanceled(p)) || Achieves(c, mode, e, RecordCanceled(p))
  {
  }

  lemma AimStep(c: Commerce, mode: Mode, e: Event, aim: Aim)
    requires Inv(c) && Enabled(c, e)
    ensures Reached(Next(c, mode, e), aim) <==> Reached(c, aim) || Achieves(c, mode, e, aim)
  {
    match aim
    case OrderPlaced(o) => OrderAims(c, mode, e, o, aim);
    case OrderSettled(o) => OrderAims(c, mode, e, o, aim);
    case OrderRefunded(o) => OrderAims(c, mode, e, o, aim);
    case OrderCanceled(o) => OrderAims(c, mode, e, o, aim);
    case OrderFailed(o) => OrderAims(c, mode, e, o, aim);
    case OrderInvoiced(o) => InvoiceStep(c, mode, e, o);
    case RecordMade(p) => RecordAims(c, mode, e, p, aim);
    case RecordCharged(p) => RecordAims(c, mode, e, p, aim);
    case RecordRefunded(p) => RecordAims(c, mode, e, p, aim);
    case RecordFailed(p) => RecordAims(c, mode, e, p, aim);
    case RecordCanceled(p) => RecordAims(c, mode, e, p, aim);
    case RecordPublished(p) => PublishStep(c, mode, e, p);
  }

  /** Step `k` of the run achieves the aim. */
  ghost predicate AchievesAt(c: Commerce, mode: Mode, es: seq<Event>, k: nat, aim: Aim)
    requires Legal(c, mode, es) && k < |es|
  {
    Achieves(StateAt(c, mode, es, k), mode, es[k], aim)
  }

  ghost predicate AchievedIn(c: Commerce, mode: Mode, es: seq<Event>, aim: Aim)
    requires Legal(c, mode, es)
  {
    exists k :: 0 <= k < |es| && AchievesAt(c, mode, es, k, aim)
  }

  lemma AchievesShifted(c: Commerce, mode: Mode, es: seq<Event>, k: nat, aim: Aim)
    requires Legal(c, mode, es) && k < |es| - 1
    ensures AchievesAt(c, mode, es, k + 1, aim) <==> AchievesAt(Next(c, mode, es[0]), mode, es[1..], k, aim)
  {
    StateShifted(c, mode, es, k);
  }

  lemma AchievedShifted(c: Commerce, mode: Mode, es: seq<Event>, aim: Aim)
    requires Legal(c, mode, es) && es != []
    ensures AchievedIn(c, mode, es, aim) <==>
      Achieves(c, mode, es[0], aim) || AchievedIn(Next(c, mode, es[0]), mode, es[1..], aim)
  {
    var c1 := Next(c, mode, es[0]);
    assert AchievesAt(c, mode, es, 0, aim) <==> Achieves(c, mode, es[0], aim) by {
      assert StateAt(c, mode, es, 0) == c;
    }
    if AchievedIn(c, mode, es, aim) {
      var k :| 0 <= k < |es| && AchievesAt(c, mode, es, k, aim);
      if k > 0 {
        AchievesShifted(c, mode, es, k - 1, aim);
      }
    }
    if AchievedIn(c1, mode, es[1..], aim) {
      var k :| 0 <= k < |es| - 1 && AchievesAt(c1, mode, es[1..], k, aim);
      AchievesShifted(c, mode, es, k, aim);
    }
  }

  /** Over every run: an order is placed, settled, refunded, canceled, failed or invoiced
      in the end, and a payment record made, charged, refunded, failed, canceled or
      published, if and only if it was at the start or some step of the run achieved it.
      In particular an order is refunded in the end exactly if some step refunded the rest
      of a payment of it while the order was paid and both writes succeeded. */
  lemma {:induction false} ReachedIff(c: Commerce, mode: Mode, es: seq<Event>, aim: Aim)
    requires Inv(c) && Legal(c, mode, es)
    ensures Reached(Run(c, mode, es), aim) <==> Reached(c, aim) || AchievedIn(c, mode, es, aim)
    decreases |es|
  {
    if es != [] {
      AimStep(c, mode, es[0], aim);
      InvStep(c, mode, es[0]);
      ReachedIff(Next(c, mode, es[0]), mode, es[1..], aim);
      AchievedShifted(c, mode, es, aim);
    }
  }

  // ---------- balances ----------

  /** What a step adds to the balance of a subscriber. */
  ghost function Change(c: Commerce, mode: Mode, e: Event, u: UserId): int
    requires Enabled(c, e)
  {
    if u !in c.ledger.balances then 0 else
    match e
    case AddManually(user, n, ok) => if user == u && n > 0 && ok then n else 0
    case Deduct(user, n, ok) => if user == u && 0 < n <= c.ledger.balances[u] && ok then -n else 0
    case PaymentSucceeded(_, _, order, _, _, w) =>
      if order.Found? then CreditOf(c, mode, e, order.value, u) else 0
    case Notify(_, n, _, w) =>
      if n.Some? && n.value.payment in c.payments then CreditOf(c, mode, e, c.payments[n.value.payment].order, u) else 0
    case _ => 0
  }

  /** A top-up that the step marks as paid is credited to the user of the order. */
  ghost function CreditOf(c: Commerce, mode: Mode, e: Event, o: OrderId, u: UserId): int
    requires Enabled(c, e)
  {
    if MarksPaid(c, mode, e, o) && c.book.orders[o].kind == Topup && c.book.orders[o].user == u && e.w.credits
    then c.book.orders[o].credits else 0
  }

  ghost predicate BalanceMoves(l: Ledger, l': Ledger, u: UserId, change: int) {
    u in l.balances ==> u in l'.balances && l'.balances[u] == l.balances[u] + change
  }

  lemma SettleBalance(c: Commerce, mode: Mode, id: PaymentId, order: OrderId, w: Writes, u: UserId)
    requires OrdersInv(c.book) && order in c.book.orders
    ensures BalanceMoves(c.ledger, SettleSpec(c, mode, id, order, w).0.ledger, u,
      if mode.direct && PendingOrder(c.book, order) && w.order && c.book.orders[order].kind == Topup
         && c.book.orders[order].user == u && w.credits
      then c.book.orders[order].credits else 0)
  {
    assert OrderOk(c.book.orders[order]);
  }

  lemma SucceededBalance(c: Commerce, mode: Mode, e: Event, u: UserId)
    requires OrdersInv(c.book) && e.PaymentSucceeded? && Enabled(c, e)
    ensures BalanceMoves(c.ledger, Next(c, mode, e).ledger, u, Change(c, mode, e, u))
  {
    if e.foundOrder.Found? && ChargedBy(c, mode, e).Some? {
      var id := ChargedBy(c, mode, e).value;
      var p := if e.found.Found? then c.payments[id]
               else NewCard(e.foundOrder.value, c.book.orders[e.foundOrder.value], e.intent);
      SettleBalance(Stored(c, id, p.(status := PaymentStatus.Succeeded, charge := e.charge)),
                    mode, id, e.foundOrder.value, e.w, u);
    }
  }

  lemma NotifyBalance(c: Commerce, mode: Mode, e: Event, u: UserId)
    requires OrdersInv(c.book) && PaymentsInv(c.book, c.payments) && e.Notify? && Enabled(c, e)
    ensures BalanceMoves(c.ledger, Next(c, mode, e).ledger, u, Change(c, mode, e, u))
  {
    if ChargedBy(c, mode, e).Some? {
      var id, tradeNo := e.n.value.payment, e.n.value.tradeNo;
      var c1 := c.(events := c.events + {(e.provider, EventId(e.provider, tradeNo))});
      assert PaymentOk(c.book, c.payments[id]);
      SettleBalance(Stored(c1, id, c.payments[id].(status := PaymentStatus.Succeeded, tradeNo := tradeNo)),
                    mode, id, c.payments[id].order, e.w, u);
    }
  }

  lemma BalanceStep(c: Commerce, mode: Mode, e: Event, u: UserId)
    requires Inv(c) && Enabled(c, e)
    ensures BalanceMoves(c.ledger, Next(c, mode, e).ledger, u, Change(c, mode, e, u))
  {
    match e
    case PaymentSucceeded(_, _, _, _, _, _) => SucceededBalance(c, mode, e, u);
    case Notify(_, _, _, _) => NotifyBalance(c, mode, e, u);
    case Subscribe(_) =>
    case AddManually(_, _, _) =>
    case Deduct(_, _, _) =>
    case GenerateInvoice(_, _) =>
    case _ => QuietStep(c, mode, e);
  }

  ghost function Changes(c: Commerce, mode: Mode, es: seq<Event>, u: UserId): int
    requires Legal(c, mode, es)
    decreases |es|
  {
    if es == [] then 0 else Change(c, mode, es[0], u) + Changes(Next(c, mode, es[0]), mode, es[1..], u)
  }

  /** Over every run: the balance of a subscriber moves by the accepted additions and
      deductions and by the credits of the top-ups that steps marked as paid. */
  lemma {:induction false} BalanceIsSum(c: Commerce, mode: Mode, es: seq<Event>, u: UserId)
    requires Inv(c) && Legal(c, mode, es) && u in c.ledger.balances
    ensures var l := Run(c, mode, es).ledger;
      u in l.balances && l.balances[u] == c.ledger.balances[u] + Changes(c, mode, es, u)
    decreases |es|
  {
    if es != [] {
      BalanceStep(c, mode, es[0], u);
      InvStep(c, mode, es[0]);
      BalanceIsSum(Next(c, mode, es[0]), mode, es[1..], u);
    }
  }
}
