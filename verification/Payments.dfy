/** Payments (internal/domain/payment/domain.go and payment.go,
    internal/model/payment.go) together with the orders and credits they act on.

    Each handler is one atomic step. What the ports answer is a parameter: which
    writes succeed, what a query by intent ID finds or that it fails, and what the
    provider says. */
module Payments {
  import opened Options
  import opened Orders
  import opened Credits

  type PaymentId = nat

  datatype PaymentStatus = Pending | Processing | Succeeded | Failed | Canceled | Refunded
  {
    predicate CanTransitionTo(target: PaymentStatus) {
      match this
      case Pending =>
        target.Processing? || target.Succeeded? || target.Failed? || target.Canceled?
      case Processing => target.Succeeded? || target.Failed? || target.Canceled?
      case Succeeded => target.Refunded?
      case _ => false
    }
  }

  datatype Payment = Payment(
    order: OrderId, user: UserId, amount: int, provider: string, status: PaymentStatus,
    intent: string, charge: string, tradeNo: string, refunded: int)

  /** A refund issued by the provider, and whether the payment row was updated. */
  datatype Refund = Refund(payment: PaymentId, amount: int, recorded: bool)

  datatype Commerce = Commerce(
    book: OrderBook,
    ledger: Ledger,
    payments: map<PaymentId, Payment>,
    events: set<(string, string)>,   // webhook events: provider and event ID
    refunds: seq<Refund>,            // issued by providers, oldest first
    published: seq<PaymentId>)       // success events handed to the publisher

  /** `direct`: no event publisher is configured. `missingIsError`: the payment
      store reports a missing row as an error (as its interface is used by the
      domain), not as a nil row (as the PostgreSQL adapter does). */
  datatype Mode = Mode(direct: bool, missingIsError: bool)

  /** How the stores answer the writes of one handler, and the look-up of the order
      (`orderRead`) that a native payment makes after its row is written. */
  datatype Writes = Writes(payment: bool, orderRead: bool, order: bool, invoice: InvoicePort, credits: bool)

  datatype NotifyStatus = NotifySuccess | NotifyClosed | NotifyOther

  /** A verified notification whose out_trade_no is a payment ID. */
  datatype Notification = Notification(payment: PaymentId, tradeNo: string, status: NotifyStatus)

  // ---------- answers of the queries by intent ID ----------

  ghost predicate AnswersOrder(b: OrderBook, intent: string, found: Lookup<OrderId>) {
    match found
    case Found(o) => o in b.orders && b.orders[o].intent == intent
    case Missing => forall o :: o in b.orders ==> b.orders[o].intent != intent
    case Unreadable => true
  }

  ghost predicate AnswersPayment(ps: map<PaymentId, Payment>, intent: string, found: Lookup<PaymentId>) {
    match found
    case Found(p) => p in ps && ps[p].intent == intent
    case Missing => forall p :: p in ps ==> ps[p].intent != intent
    case Unreadable => true
  }

  ghost predicate AnswersInvoice(b: OrderBook, id: OrderId, existing: Option<InvoiceId>, port: InvoicePort) {
    port.readOk ==>
      if existing.Some? then existing.value in b.invoices && b.invoices[existing.value].order == id
      else !HasInvoice(b, id)
  }

  // ---------- the handlers as functions ----------

  function Stored(c: Commerce, id: PaymentId, p: Payment): Commerce {
    c.(payments := c.payments[id := p])
  }

  function NewCard(o: OrderId, ord: Order, intent: string): Payment {
    Payment(o, ord.user, ord.total, "stripe", PaymentStatus.Pending, intent, "", "", 0)
  }

  function IntentSpec(c: Commerce, order: OrderId, user: UserId, intent: string, id: PaymentId,
                      providerOk: bool, setOk: bool, createOk: bool): (Commerce, Outcome)
  {
    if order !in c.book.orders then (c, Rejected(NotFound))
    else
      var ord := c.book.orders[order];
      if ord.user != user then (c, Rejected(Forbidden))
      else if ord.status != OrderStatus.Pending then (c, Rejected(NotPending))
      else if !providerOk then (c, Rejected(ProviderError))
      else
        var c1 := c.(book := SetIntentSpec(c.book, order, intent, setOk));
        (if createOk then Stored(c1, id, NewCard(order, ord, intent)) else c1, Done)
  }

  function NativeSpec(c: Commerce, order: OrderId, user: UserId, provider: string, tradeNo: string,
                      id: PaymentId, providerOk: bool, createOk: bool): (Commerce, Outcome)
  {
    if order !in c.book.orders then (c, Rejected(NotFound))
    else
      var ord := c.book.orders[order];
      if ord.user != user then (c, Rejected(Forbidden))
      else if ord.status != OrderStatus.Pending then (c, Rejected(NotPending))
      else if !providerOk then (c, Rejected(ProviderError))
      else if !createOk then (c, Rejected(StoreError))
      else (Stored(c, id, Payment(order, user, ord.total, provider, PaymentStatus.Pending,
                                  "", "", tradeNo, 0)), Done)
  }

  /** What follows the update of a payment that has just succeeded. */
  ghost function SettleSpec(c: Commerce, mode: Mode, id: PaymentId, order: OrderId, w: Writes)
    : (Commerce, Outcome)
    requires order in c.book.orders
  {
    var ord := c.book.orders[order];
    if !mode.direct then (c.(published := c.published + [id]), Done)
    else
      var (book, r) := UpdateStatusSpec(c.book, order, "paid", w.order, w.invoice);
      if r != Done then (c.(book := book), r)
      else if ord.kind != Topup then (c.(book := book), Done)
      else (c.(book := book, ledger := AddSpec(c.ledger, ord.user, ord.credits, FromOrder(order), w.credits).0), Done)
  }

  /** A look-up of the payment that fails leads to a new record, whether or not there
      is one already. */
  ghost function SucceededSpec(c: Commerce, mode: Mode, intent: string, charge: string,
                               order: Lookup<OrderId>, payment: Lookup<PaymentId>, newId: PaymentId,
                               w: Writes): (Commerce, Outcome)
    requires AnswersOrder(c.book, intent, order) && AnswersPayment(c.payments, intent, payment)
  {
    if order.Unreadable? then (c, Rejected(StoreError))
    else if order.Missing? then (c, Rejected(NotFound))
    else if payment.Missing? && !mode.missingIsError then (c, Rejected(NilPayment))
    else
      var id := if payment.Found? then payment.value else newId;
      var p := if payment.Found? then c.payments[payment.value]
               else NewCard(order.value, c.book.orders[order.value], intent);
      if p.status == PaymentStatus.Succeeded then (c, Done)
      else if !p.status.CanTransitionTo(PaymentStatus.Succeeded) then (c, Rejected(InvalidTransition))
      else if !w.payment then (c, Rejected(StoreError))
      else SettleSpec(Stored(c, id, p.(status := PaymentStatus.Succeeded, charge := charge)),
                      mode, id, order.value, w)
  }

  ghost function FailedSpec(c: Commerce, mode: Mode, intent: string, payment: Lookup<PaymentId>, ok: bool)
    : (Commerce, Outcome)
    requires AnswersPayment(c.payments, intent, payment)
  {
    if payment.Unreadable? then (c, Rejected(StoreError))
    else if payment.Missing? then (c, Rejected(if mode.missingIsError then NotFound else NilPayment))
    else
      var p := c.payments[payment.value];
      if !p.status.CanTransitionTo(PaymentStatus.Failed) then (c, Rejected(InvalidTransition))
      else if !ok then (c, Rejected(StoreError))
      else (Stored(c, payment.value, p.(status := PaymentStatus.Failed)), Done)
  }

  function EventId(provider: string, tradeNo: string): string {
    provider + ":" + tradeNo
  }

  ghost function NotifySpec(c: Commerce, mode: Mode, provider: string, n: Option<Notification>,
                            eventOk: bool, w: Writes): (Commerce, Outcome)
  {
    if n.None? then (c, Rejected(BadNotification))
    else
      var id := n.value.payment;
      if id !in c.payments then (c, Rejected(if mode.missingIsError then NotFound else NilPayment))
      else if c.payments[id].status == PaymentStatus.Succeeded then (c, Done)
      else
        var e := (provider, EventId(provider, n.value.tradeNo));
        if e in c.events || !eventOk then (c, Done)
        else
          var c1 := c.(events := c.events + {e});
          match n.value.status
          case NotifySuccess => NativeSuccessSpec(c1, mode, id, n.value.tradeNo, w)
          case NotifyClosed => NativeClosedSpec(c1, id, w.payment)
          case NotifyOther => (c1, Done)
  }

  ghost function NativeSuccessSpec(c: Commerce, mode: Mode, id: PaymentId, tradeNo: string, w: Writes)
    : (Commerce, Outcome)
    requires id in c.payments
  {
    var p := c.payments[id];
    if p.status == PaymentStatus.Succeeded then (c, Done)
    else if !p.status.CanTransitionTo(PaymentStatus.Succeeded) then (c, Rejected(InvalidTransition))
    else if !w.payment then (c, Rejected(StoreError))
    else
      var c1 := Stored(c, id, p.(status := PaymentStatus.Succeeded, tradeNo := tradeNo));
      if !w.orderRead || p.order !in c.book.orders then (c1, Done) else SettleSpec(c1, mode, id, p.order, w)
  }

  function NativeClosedSpec(c: Commerce, id: PaymentId, ok: bool): (Commerce, Outcome)
    requires id in c.payments
  {
    var p := c.payments[id];
    if !p.status.CanTransitionTo(PaymentStatus.Canceled) then (c, Rejected(InvalidTransition))
    else if !ok then (c, Rejected(StoreError))
    else (Stored(c, id, p.(status := PaymentStatus.Canceled)), Done)
  }

  /** The amount that a refund request stands for: 0 asks for all that is left. */
  function RefundAmount(p: Payment, amount: int): int {
    if amount == 0 then p.amount - p.refunded else amount
  }

  /** The checks that CreateRefund makes before it calls the provider. */
  function RefundRefusal(p: Payment, amount: int): Option<Error> {
    if p.status != PaymentStatus.Succeeded && p.status != PaymentStatus.Refunded then Some(NotSucceeded)
    else if RefundAmount(p, amount) <= 0 || RefundAmount(p, amount) > p.amount - p.refunded
    then Some(InvalidAmount)
    else if p.provider == "stripe" then (if p.charge == "" then Some(NoCharge) else None)
    else if p.provider == "alipay" || p.provider == "wechat" then None
    else Some(Unsupported)
  }

  function AfterRefund(p: Payment, n: int): Payment {
    p.(refunded := p.refunded + n,
       status := if p.refunded + n >= p.amount then PaymentStatus.Refunded else p.status)
  }

  /** The provider has refunded `n`: the row is updated and, if it is refunded in
      full, the order. */
  ghost function BookSpec(c: Commerce, id: PaymentId, n: int, w: Writes): (Commerce, Outcome)
    requires id in c.payments
  {
    var c1 := c.(refunds := c.refunds + [Refund(id, n, w.payment)]);
    if !w.payment then (c1, Rejected(StoreError))
    else
      var p' := AfterRefund(c.payments[id], n);
      var c2 := Stored(c1, id, p');
      if p'.status != PaymentStatus.Refunded then (c2, Done)
      else (c2.(book := UpdateStatusSpec(c.book, p'.order, "refunded", w.order, w.invoice).0), Done)
  }

  ghost function RefundSpec(c: Commerce, mode: Mode, id: PaymentId, amount: int, providerOk: bool,
                            w: Writes): (Commerce, Outcome)
  {
    if id !in c.payments then (c, Rejected(if mode.missingIsError then NotFound else NilPayment))
    else
      var p := c.payments[id];
      var refusal := RefundRefusal(p, amount);
      if refusal.Some? then (c, Rejected(refusal.value))
      else if !providerOk then (c, Rejected(ProviderError))
      else BookSpec(c, id, RefundAmount(p, amount), w)
  }

  // ---------- the handlers as methods ----------

  class EventPublisher {
    var published: seq<PaymentId>

    constructor ()
      ensures published == []
    {
      published := [];
    }

    method Publish(id: PaymentId)
      modifies this
      ensures published == old(published) + [id]
    {
      published := published + [id];
    }
  }

  class PaymentDomain {
    const orderReader: OrderDomain
    const billing: BillingDomain
    const publisher: EventPublisher?
    const missingIsError: bool
    var payments: map<PaymentId, Payment>
    var events: set<(string, string)>
    ghost var refunds: seq<Refund>

    function Ports(): Mode {
      Mode(publisher == null, missingIsError)
    }

    ghost function View(): Commerce
      reads this, orderReader, billing, publisher
    {
      Commerce(orderReader.Book(), billing.View(), payments, events, refunds,
               if publisher == null then [] else publisher.published)
    }

    constructor (orderReader: OrderDomain, billing: BillingDomain, publisher: EventPublisher?, missingIsError: bool)
      ensures this.orderReader == orderReader && this.billing == billing
      ensures this.publisher == publisher && this.missingIsError == missingIsError
      ensures payments == map[] && events == {} && refunds == []
    {
      this.orderReader, this.billing, this.publisher := orderReader, billing, publisher;
      this.missingIsError := missingIsError;
      payments, events, refunds := map[], {}, [];
    }

    method CreatePaymentIntent(order: OrderId, user: UserId, intent: string, id: PaymentId,
                               providerOk: bool, setOk: bool, createOk: bool) returns (r: Outcome)
      modifies this, orderReader
      ensures (View(), r) == IntentSpec(old(View()), order, user, intent, id, providerOk, setOk, createOk)
      ensures r == Rejected(NotFound) <==> order !in old(orderReader.orders)
      ensures r == Rejected(Forbidden) <==>
        order in old(orderReader.orders) && old(orderReader.orders)[order].user != user
      ensures r == Rejected(NotPending) <==>
        order in old(orderReader.orders) && old(orderReader.orders)[order].user == user
        && old(orderReader.orders)[order].status != OrderStatus.Pending
      ensures r == Done ==>
        var ord := old(orderReader.orders)[order];
        && (setOk ==> orderReader.orders == old(orderReader.orders)[order := ord.(intent := intent)])
        && (createOk ==> payments == old(payments)[id :=
              Payment(order, user, ord.total, "stripe", PaymentStatus.Pending, intent, "", "", 0)])
    {
      if order !in orderReader.orders {
        return Rejected(NotFound);
      }
      var ord := orderReader.orders[order];
      if ord.user != user {
        return Rejected(Forbidden);
      }
      if ord.status != OrderStatus.Pending {
        return Rejected(NotPending);
      }
      if !providerOk {
        return Rejected(ProviderError);
      }
      var logged := orderReader.SetStripePaymentIntentID(order, intent, setOk);
      if createOk {
        payments := payments[id := NewCard(order, ord, intent)];
      }
      r := Done;
    }

    method CreateNativePayment(order: OrderId, user: UserId, provider: string, tradeNo: string,
                               id: PaymentId, providerOk: bool, createOk: bool) returns (r: Outcome)
      modifies this
      ensures (View(), r) == NativeSpec(old(View()), order, user, provider, tradeNo, id, providerOk, createOk)
      ensures r == Rejected(NotFound) <==> order !in old(orderReader.orders)
      ensures r == Rejected(Forbidden) <==>
        order in old(orderReader.orders) && old(orderReader.orders)[order].user != user
      ensures r == Rejected(NotPending) <==>
        order in old(orderReader.orders) && old(orderReader.orders)[order].user == user
        && old(orderReader.orders)[order].status != OrderStatus.Pending
      ensures r == Done ==> payments == old(payments)[id :=
        Payment(order, user, orderReader.orders[order].total, provider, PaymentStatus.Pending, "", "", tradeNo, 0)]
      ensures r != Done ==> payments == old(payments)
    {
      if order !in orderReader.orders {
        return Rejected(NotFound);
      }
      var ord := orderReader.orders[order];
      if ord.user != user {
        return Rejected(Forbidden);
      }
      if ord.status != OrderStatus.Pending {
        return Rejected(NotPending);
      }
      if !providerOk {
        return Rejected(ProviderError);
      }
      var payment := Payment(order, user, ord.total, provider, PaymentStatus.Pending, "", "", "", 0);
      payment := payment.(tradeNo := tradeNo);
      if !createOk {
        return Rejected(StoreError);
      }
      payments := payments[id := payment];
      r := Done;
    }

    /** The common end of the two success handlers: publish, or mark the order as
        paid and add the credits of a top-up. */
    method Settle(id: PaymentId, order: OrderId, ord: Order, invoice: Option<InvoiceId>, w: Writes)
      returns (r: Outcome)
      requires order in orderReader.orders && orderReader.orders[order] == ord
      requires AnswersInvoice(orderReader.Book(), order, invoice, w.invoice)
      modifies orderReader, billing, publisher
      ensures (View(), r) == SettleSpec(old(View()), Ports(), id, order, w)
    {
      if publisher != null {
        publisher.Publish(id);
        return Done;
      }
      r := orderReader.UpdateOrderStatus(order, "paid", invoice, w.order, w.invoice);
      if r == Done && ord.kind == Topup {
        var logged := billing.AddCredits(ord.user, ord.credits, FromOrder(order), w.credits);
      }
    }

    method HandlePaymentSucceeded(intent: string, charge: string, order: Lookup<OrderId>,
                                  found: Lookup<PaymentId>, newId: PaymentId,
                                  invoice: Option<InvoiceId>, w: Writes) returns (r: Outcome)
      requires AnswersOrder(orderReader.Book(), intent, order) && AnswersPayment(payments, intent, found)
      requires order.Found? ==> AnswersInvoice(orderReader.Book(), order.value, invoice, w.invoice)
      modifies this, orderReader, billing, publisher
      ensures (View(), r) == SucceededSpec(old(View()), Ports(), intent, charge, order, found, newId, w)
    {
      if !order.Found? {
        return Rejected(if order.Missing? then NotFound else StoreError);
      }
      var ord := orderReader.orders[order.value];
      var id, payment;
      if found.Found? {
        id, payment := found.value, payments[found.value];
      } else {
        if found.Missing? && !missingIsError {
          return Rejected(NilPayment);
        }
        id, payment := newId, NewCard(order.value, ord, intent);
      }
      if payment.status == PaymentStatus.Succeeded {
        return Done;
      }
      if !payment.status.CanTransitionTo(PaymentStatus.Succeeded) {
        return Rejected(InvalidTransition);
      }
      payment := payment.(status := PaymentStatus.Succeeded, charge := charge);
      if !w.payment {
        return Rejected(StoreError);
      }
      payments := payments[id := payment];
      r := Settle(id, order.value, ord, invoice, w);
    }

    method HandlePaymentFailed(intent: string, found: Lookup<PaymentId>, ok: bool) returns (r: Outcome)
      requires AnswersPayment(payments, intent, found)
      modifies this
      ensures (View(), r) == FailedSpec(old(View()), Ports(), intent, found, ok)
    {
      if found.Unreadable? {
        return Rejected(StoreError);
      }
      if found.Missing? {
        return Rejected(if missingIsError then NotFound else NilPayment);
      }
      var payment := payments[found.value];
      if !payment.status.CanTransitionTo(PaymentStatus.Failed) {
        return Rejected(InvalidTransition);
      }
      if !ok {
        return Rejected(StoreError);
      }
      payments := payments[found.value := payment.(status := PaymentStatus.Failed)];
      r := Done;
    }

    method HandleNativePaymentNotify(provider: string, n: Option<Notification>, eventOk: bool,
                                     invoice: Option<InvoiceId>, w: Writes) returns (r: Outcome)
      requires n.Some? && n.value.payment in payments ==>
        AnswersInvoice(orderReader.Book(), payments[n.value.payment].order, invoice, w.invoice)
      modifies this, orderReader, billing, publisher
      ensures (View(), r) == NotifySpec(old(View()), Ports(), provider, n, eventOk, w)
    {
      if n.None? {
        return Rejected(BadNotification);
      }
      var id := n.value.payment;
      if id !in payments {
        return Rejected(if missingIsError then NotFound else NilPayment);
      }
      if payments[id].status == PaymentStatus.Succeeded {
        return Done;
      }
      var event := (provider, EventId(provider, n.value.tradeNo));
      if event in events || !eventOk {
        return Done;
      }
      events := events + {event};
      match n.value.status
      case NotifySuccess => r := HandleNativePaymentSuccess(id, n.value.tradeNo, invoice, w);
      case NotifyClosed => r := HandleNativePaymentClosed(id, w.payment);
      case NotifyOther => r := Done;
    }

    method HandleNativePaymentSuccess(id: PaymentId, tradeNo: string, invoice: Option<InvoiceId>, w: Writes)
      returns (r: Outcome)
      requires id in payments
      requires AnswersInvoice(orderReader.Book(), payments[id].order, invoice, w.invoice)
      modifies this, orderReader, billing, publisher
      ensures (View(), r) == NativeSuccessSpec(old(View()), Ports(), id, tradeNo, w)
    {
      var payment := payments[id];
      if payment.status == PaymentStatus.Succeeded {
        return Done;
      }
      if !payment.status.CanTransitionTo(PaymentStatus.Succeeded) {
        return Rejected(InvalidTransition);
      }
      payment := payment.(status := PaymentStatus.Succeeded, tradeNo := tradeNo);
      if !w.payment {
        return Rejected(StoreError);
      }
      payments := payments[id := payment];
      if !w.orderRead || payment.order !in orderReader.orders {
        return Done;
      }
      r := Settle(id, payment.order, orderReader.orders[payment.order], invoice, w);
    }

    method HandleNativePaymentClosed(id: PaymentId, ok: bool) returns (r: Outcome)
      requires id in payments
      modifies this
      ensures (View(), r) == NativeClosedSpec(old(View()), id, ok)
    {
      var payment := payments[id];
      if !payment.status.CanTransitionTo(PaymentStatus.Canceled) {
        return Rejected(InvalidTransition);
      }
      if !ok {
        return Rejected(StoreError);
      }
      payments := payments[id := payment.(status := PaymentStatus.Canceled)];
      r := Done;
    }

    method CreateRefund(id: PaymentId, amount: int, providerOk: bool, invoice: Option<InvoiceId>, w: Writes)
      returns (r: Outcome)
      requires id in payments ==>
        AnswersInvoice(orderReader.Book(), payments[id].order, invoice, w.invoice)
      modifies this, orderReader
      ensures (View(), r) == RefundSpec(old(View()), Ports(), id, amount, providerOk, w)
      ensures r == Done ==>
        && id in old(payments) && id in payments && payments[id].refunded > old(payments)[id].refunded
        && (amount != 0 ==> payments[id].refunded == old(payments)[id].refunded + amount)
        && (amount == 0 ==> payments[id].refunded == payments[id].amount)
      ensures r == Done && payments[id].refunded == payments[id].amount ==>
        && payments[id].status == PaymentStatus.Refunded
        && (w.order && payments[id].order in old(orderReader.orders)
            && old(orderReader.orders)[payments[id].order].status == OrderStatus.Paid ==>
              orderReader.orders[payments[id].order].status == OrderStatus.Refunded)
    {
      if id !in payments {
        return Rejected(if missingIsError then NotFound else NilPayment);
      }
      var payment := payments[id];
      if payment.status != PaymentStatus.Succeeded && payment.status != PaymentStatus.Refunded {
        return Rejected(NotSucceeded);
      }
      var refundAmount := amount;
      if refundAmount == 0 {
        refundAmount := payment.amount - payment.refunded;
      }
      if refundAmount <= 0 || refundAmount > payment.amount - payment.refunded {
        return Rejected(InvalidAmount);
      }
      if payment.provider == "stripe" {
        if payment.charge == "" {
          return Rejected(NoCharge);
        }
      } else if payment.provider != "alipay" && payment.provider != "wechat" {
        return Rejected(Unsupported);
      }
      if !providerOk {
        return Rejected(ProviderError);
      }
      r := BookRefund(id, refundAmount, invoice, w);
    }

    /** What CreateRefund does once the provider has refunded `n`. */
    method BookRefund(id: PaymentId, n: int, invoice: Option<InvoiceId>, w: Writes) returns (r: Outcome)
      requires id in payments
      requires AnswersInvoice(orderReader.Book(), payments[id].order, invoice, w.invoice)
      modifies this, orderReader
      ensures (View(), r) == BookSpec(old(View()), id, n, w)
    {
      var payment := payments[id];
      refunds := refunds + [Refund(id, n, w.payment)];
      payment := payment.(refunded := payment.refunded + n);
      if payment.refunded >= payment.amount {
        payment := payment.(status := PaymentStatus.Refunded);
      }
      if !w.payment {
        return Rejected(StoreError);
      }
      payments := payments[id := payment];
      if payment.status == PaymentStatus.Refunded {
        var logged := orderReader.UpdateOrderStatus(payment.order, "refunded", invoice, w.order, w.invoice);
      }
      r := Done;
    }
  }

  /** The payment aggregate (payment.go) with its own bookkeeping of refunds. */
  class Aggregate {
    const amount: int
    var status: PaymentStatus
    var refundedAmount: int

    constructor (amount: int, status: PaymentStatus, refundedAmount: int)
      ensures this.amount == amount && this.status == status && this.refundedAmount == refundedAmount
    {
      this.amount, this.status, this.refundedAmount := amount, status, refundedAmount;
    }

    method Refund(amount: int) returns (refunded: int, r: Outcome)
      modifies this
      ensures (status, refundedAmount, refunded, r)
           == AggregateRefund(this.amount, old(status), old(refundedAmount), amount)
    {
      if status != PaymentStatus.Succeeded && status != PaymentStatus.Refunded {
        return 0, Rejected(NotSucceeded);
      }
      var refundAmount := amount;
      if refundAmount == 0 {
        refundAmount := this.amount - refundedAmount;
      }
      if refundAmount <= 0 || refundAmount > this.amount - refundedAmount {
        return 0, Rejected(InvalidAmount);
      }
      refundedAmount := refundedAmount + refundAmount;
      if refundedAmount >= this.amount {
        status := PaymentStatus.Refunded;
      }
      return refundAmount, Done;
    }
  }

  function AggregateRefund(total: int, status: PaymentStatus, refunded: int, amount: int)
    : (PaymentStatus, int, int, Outcome)
  {
    var n := if amount == 0 then total - refunded else amount;
    if status != PaymentStatus.Succeeded && status != PaymentStatus.Refunded
    then (status, refunded, 0, Rejected(NotSucceeded))
    else if n <= 0 || n > total - refunded then (status, refunded, 0, Rejected(InvalidAmount))
    else (if refunded + n >= total then PaymentStatus.Refunded else status, refunded + n, n, Done)
  }
}
