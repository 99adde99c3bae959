/** How many invoices an order can get. */
module PaymentInvoices {
  import opened Options
  import opened Orders
  import opened Credits
  import opened Payments
  import opened PaymentRuns
  import opened PaymentTheorems

  ghost predicate UniqueInvoices(b: OrderBook) {
    forall i, j :: i in b.invoices && j in b.invoices && b.invoices[i].order == b.invoices[j].order ==> i == j
  }

  /** The order is paid, has an invoice, and the look-up of that invoice fails. */
  ghost predicate SecondInvoice(b: OrderBook, id: OrderId, port: InvoicePort) {
    id in b.orders && b.orders[id].status.Paid? && HasInvoice(b, id) && !port.readOk && port.writeOk
  }

  /** GenerateInvoice keeps "one invoice per order" except in one case. */
  lemma SecondInvoiceIff(b: OrderBook, id: OrderId, port: InvoicePort)
    requires UniqueInvoices(b) && port.newId !in b.invoices
    ensures UniqueInvoices(InvoiceSpec(b, id, port).0) <==> !SecondInvoice(b, id, port)
  {
    var b' := InvoiceSpec(b, id, port).0;
    if HasInvoice(b, id) && b' != b {
      var i :| i in b.invoices && b.invoices[i].order == id;
      assert b'.invoices[i].order == b'.invoices[port.newId].order && i != port.newId;
    }
  }

  /** A pending order has no invoice yet. */
  lemma SettleInvoices(c: Commerce, mode: Mode, id: PaymentId, order: OrderId, w: Writes)
    requires InvoicesInv(c.book) && UniqueInvoices(c.book) && order in c.book.orders
    requires w.invoice.newId !in c.book.invoices
    ensures UniqueInvoices(SettleSpec(c, mode, id, order, w).0.book)
  {
    if HasInvoice(c.book, order) {
      var i :| i in c.book.invoices && c.book.invoices[i].order == order;
      assert InvoiceOk(c.book, c.book.invoices[i]);
    } else {
      SecondInvoiceIff(MoveSpec(c.book, order, OrderStatus.Paid, w.order).0, order, w.invoice);
    }
  }

  lemma SucceededInvoices(c: Commerce, mode: Mode, intent: string, charge: string,
                          order: Lookup<OrderId>, found: Lookup<PaymentId>, newId: PaymentId, w: Writes)
    requires InvoicesInv(c.book) && UniqueInvoices(c.book) && w.invoice.newId !in c.book.invoices
    requires AnswersOrder(c.book, intent, order) && AnswersPayment(c.payments, intent, found)
    ensures UniqueInvoices(SucceededSpec(c, mode, intent, charge, order, found, newId, w).0.book)
  {
    if order.Found? {
      var id := if found.Found? then found.value else newId;
      var p := if found.Found? then c.payments[id] else NewCard(order.value, c.book.orders[order.value], intent);
      SettleInvoices(Stored(c, id, p.(status := PaymentStatus.Succeeded, charge := charge)),
                     mode, id, order.value, w);
    }
  }

  lemma NotifyInvoices(c: Commerce, mode: Mode, provider: string, n: Option<Notification>, eventOk: bool, w: Writes)
    requires PaymentsInv(c.book, c.payments)
    requires InvoicesInv(c.book) && UniqueInvoices(c.book) && w.invoice.newId !in c.book.invoices
    ensures UniqueInvoices(NotifySpec(c, mode, provider, n, eventOk, w).0.book)
  {
    if n.Some? && n.value.payment in c.payments {
      var id, tradeNo := n.value.payment, n.value.tradeNo;
      var c1 := c.(events := c.events + {(provider, EventId(provider, tradeNo))});
      assert PaymentOk(c.book, c.payments[id]);
      SettleInvoices(Stored(c1, id, c.payments[id].(status := PaymentStatus.Succeeded, tradeNo := tradeNo)),
                     mode, id, c.payments[id].order, w);
    }
  }

  /** Only a separate GenerateInvoice can add a second invoice. */
  ghost predicate AddsSecond(c: Commerce, e: Event) {
    e.GenerateInvoice? && SecondInvoice(c.book, e.order, e.port)
  }

  lemma UniqueStep(c: Commerce, mode: Mode, e: Event)
    requires Inv(c) && UniqueInvoices(c.book) && Enabled(c, e)
    ensures UniqueInvoices(Next(c, mode, e).book) <==> !AddsSecond(c, e)
  {
    match e
    case GenerateInvoice(o, port) => SecondInvoiceIff(c.book, o, port);
    case PaymentSucceeded(intent, charge, foundOrder, found, p, w) =>
      SucceededInvoices(c, mode, intent, charge, foundOrder, found, p, w);
    case Notify(provider, n, eventOk, w) => NotifyInvoices(c, mode, provider, n, eventOk, w);
    case Subscribe(_) =>
    case AddManually(_, _, _) =>
    case Deduct(_, _, _) =>
    case _ => QuietStep(c, mode, e);
  }

  ghost predicate InvoicesKept(b: OrderBook, b': OrderBook) {
    forall i :: i in b.invoices ==> i in b'.invoices && b'.invoices[i] == b.invoices[i]
  }

  lemma PaidKeepsInvoices(b: OrderBook, id: OrderId, ok: bool, port: InvoicePort)
    requires port.newId !in b.invoices
    ensures InvoicesKept(b, PaidSpec(b, id, ok, port).0)
  {
  }

  lemma SucceededKeepsInvoices(c: Commerce, mode: Mode, e: Event)
    requires e.PaymentSucceeded? && Enabled(c, e)
    ensures InvoicesKept(c.book, Next(c, mode, e).book)
  {
    if e.foundOrder.Found? {
      PaidKeepsInvoices(c.book, e.foundOrder.value, e.w.order, e.w.invoice);
    }
  }

  lemma NotifyKeepsInvoices(c: Commerce, mode: Mode, e: Event)
    requires e.Notify? && Enabled(c, e)
    ensures InvoicesKept(c.book, Next(c, mode, e).book)
  {
    if e.n.Some? && e.n.value.payment in c.payments {
      PaidKeepsInvoices(c.book, c.payments[e.n.value.payment].order, e.w.order, e.w.invoice);
    }
  }

  lemma InvoicesKeptStep(c: Commerce, mode: Mode, e: Event)
    requires Enabled(c, e)
    ensures InvoicesKept(c.book, Next(c, mode, e).book)
  {
    match e
    case GenerateInvoice(_, _) =>
    case PaymentSucceeded(_, _, _, _, _, _) => SucceededKeepsInvoices(c, mode, e);
    case Notify(_, _, _, _) => NotifyKeepsInvoices(c, mode, e);
    case Subscribe(_) =>
    case AddManually(_, _, _) =>
    case Deduct(_, _, _) =>
    case _ => QuietStep(c, mode, e);
  }

  lemma {:induction false} DoubledForGood(c: Commerce, mode: Mode, es: seq<Event>)
    requires Legal(c, mode, es) && !UniqueInvoices(c.book)
    ensures !UniqueInvoices(Run(c, mode, es).book)
    decreases |es|
  {
    if es != [] {
      InvoicesKeptStep(c, mode, es[0]);
      DoubledForGood(Next(c, mode, es[0]), mode, es[1..]);
    }
  }

  /** Over every run: no order has two invoices in the end if and only if no
      GenerateInvoice of the run finds its order paid and invoiced and fails to look
      the invoice up. */
  lemma {:induction false} OneInvoiceIff(c: Commerce, mode: Mode, es: seq<Event>)
    requires Inv(c) && UniqueInvoices(c.book) && Legal(c, mode, es)
    ensures UniqueInvoices(Run(c, mode, es).book) <==>
      forall k :: 0 <= k < |es| ==> !AddsSecond(StateAt(c, mode, es, k), es[k])
    decreases |es|
  {
    if es != [] {
      var c1 := Next(c, mode, es[0]);
      UniqueStep(c, mode, es[0]);
      InvStep(c, mode, es[0]);
      assert StateAt(c, mode, es, 0) == c;
      if AddsSecond(c, es[0]) {
        DoubledForGood(c1, mode, es[1..]);
      } else {
        OneInvoiceIff(c1, mode, es[1..]);
        ShiftedSteps(c, mode, es);
      }
    }
  }

  lemma ShiftedSteps(c: Commerce, mode: Mode, es: seq<Event>)
    requires Legal(c, mode, es) && es != []
    ensures var c1 := Next(c, mode, es[0]);
      (forall k :: 0 <= k < |es| ==> !AddsSecond(StateAt(c, mode, es, k), es[k])) <==>
        (!AddsSecond(c, es[0])
         && forall k :: 0 <= k < |es| - 1 ==> !AddsSecond(StateAt(c1, mode, es[1..], k), es[1..][k]))
  {
    var c1 := Next(c, mode, es[0]);
    assert StateAt(c, mode, es, 0) == c;
    forall k | 0 <= k < |es| - 1
      ensures AddsSecond(StateAt(c1, mode, es[1..], k), es[1..][k]) <==>
        AddsSecond(StateAt(c, mode, es, k + 1), es[k + 1])
    {
    }
    forall k | 0 < k < |es|
      ensures AddsSecond(StateAt(c, mode, es, k), es[k]) <==>
        AddsSecond(StateAt(c1, mode, es[1..], k - 1), es[1..][k - 1])
    {
    }
  }

  /** The handlers alone, which is all that the program runs, never invoice an order
      twice, whatever look-ups and writes fail. */
  lemma HandlersInvoiceOnce(mode: Mode, es: seq<Event>)
    requires Legal(EMPTY, mode, es)
    requires forall k :: 0 <= k < |es| ==> !es[k].GenerateInvoice?
    ensures UniqueInvoices(Run(EMPTY, mode, es).book)
  {
    EmptyInv();
    OneInvoiceIff(EMPTY, mode, es);
  }

  /** A run from the empty store that pays an order and then invoices it a second time. */
  lemma SecondInvoiceIsReached(missingIsError: bool) returns (es: seq<Event>)
    ensures var mode := Mode(true, missingIsError);
      Legal(EMPTY, mode, es) && !UniqueInvoices(Run(EMPTY, mode, es).book)
  {
    var mode := Mode(true, missingIsError);
    var w := Writes(true, true, true, InvoicePort(true, true, 0), true);
    var pay := PaymentSucceeded("pi", "ch", Found(0), Found(0), 1, w);
    var again := GenerateInvoice(0, InvoicePort(false, true, 1));
    var c1 := Next(PREPARED, mode, pay);
    assert c1.book.orders[0].status.Paid? && c1.book.invoices == map[0 := Invoice(0, 0, 100)];
    var c2 := Next(c1, mode, again);
    assert c2.book.invoices[0].order == c2.book.invoices[1].order;
    Prepend(c1, mode, again, []);
    Prepend(PREPARED, mode, pay, [again]);
    es := Prepare(mode, [pay] + [again]);
  }
}
