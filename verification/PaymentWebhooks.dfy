/** What repeated webhooks do: deliveries for one intent, intents that were replaced by
    others, and notifications whose event is stored already. */
module PaymentWebhooks {
  import opened Options
  import opened Orders
  import opened Credits
  import opened Payments
  import opened PaymentRuns
  import opened PaymentTheorems

  // ---------- which record a step charges ----------

  predicate Open(s: PaymentStatus) {
    s.Pending? || s.Processing?
  }

  /** The record that the guards of the success handlers let a step charge. */
  ghost function ChargedBy(c: Commerce, mode: Mode, e: Event): Option<PaymentId>
    requires Enabled(c, e)
  {
    match e
    case PaymentSucceeded(_, _, order, found, newId, w) =>
      if !order.Found? || !w.payment then None else
      (match found
       case Found(p) => if Open(c.payments[p].status) then Some(p) else None
       case Missing => if mode.missingIsError then Some(newId) else None
       case Unreadable => Some(newId))
    case Notify(provider, n, eventOk, w) =>
      if n.None? || n.value.payment !in c.payments || !n.value.status.NotifySuccess? then None
      else if (provider, EventId(provider, n.value.tradeNo)) in c.events || !eventOk || !w.payment then None
      else if Open(c.payments[n.value.payment].status) then Some(n.value.payment)
      else None
    case _ => None
  }

  /** The intent of that record. */
  ghost function ChargedIntent(c: Commerce, mode: Mode, e: Event): string
    requires Enabled(c, e) && ChargedBy(c, mode, e).Some?
  {
    if e.PaymentSucceeded? then e.intent else c.payments[e.n.value.payment].intent
  }

  /** Of all records, only `r` may differ between the two states in being charged. */
  ghost predicate OnlyCharges(c: Commerce, c': Commerce, r: Option<PaymentId>) {
    forall p :: p in c'.payments ==>
      (Charged(c'.payments[p].status) <==> (p in c.payments && Charged(c.payments[p].status)) || r == Some(p))
  }

  lemma SucceededCharges(c: Commerce, mode: Mode, e: Event)
    requires e.PaymentSucceeded? && Enabled(c, e)
    ensures OnlyCharges(c, Next(c, mode, e), ChargedBy(c, mode, e))
    ensures ChargedBy(c, mode, e).Some? ==>
      var p := ChargedBy(c, mode, e).value; var ps := Next(c, mode, e).payments;
      p in ps && ps[p].intent == e.intent
  {
  }

  lemma NotifyCharges(c: Commerce, mode: Mode, e: Event)
    requires e.Notify? && Enabled(c, e)
    ensures OnlyCharges(c, Next(c, mode, e), ChargedBy(c, mode, e))
    ensures ChargedBy(c, mode, e).Some? ==> ChargedBy(c, mode, e).value in Next(c, mode, e).payments
  {
  }

  lemma RefundCharges(c: Commerce, mode: Mode, e: Event)
    requires e.RefundPayment? && Enabled(c, e)
    ensures OnlyCharges(c, Next(c, mode, e), None)
  {
  }

  lemma ChargesStep(c: Commerce, mode: Mode, e: Event)
    requires Enabled(c, e)
    ensures OnlyCharges(c, Next(c, mode, e), ChargedBy(c, mode, e))
    ensures ChargedBy(c, mode, e).Some? ==> ChargedBy(c, mode, e).value in Next(c, mode, e).payments
  {
    match e
    case PaymentSucceeded(_, _, _, _, _, _) => SucceededCharges(c, mode, e);
    case Notify(_, _, _, _) => NotifyCharges(c, mode, e);
    case RefundPayment(_, _, _, _) => RefundCharges(c, mode, e);
    case _ =>
  }

  // ---------- at most one charged record per intent ----------

  predicate ChargedFor(p: Payment, intent: string) {
    Charged(p.status) && p.intent == intent != ""
  }

  ghost predicate UniqueCharged(ps: map<PaymentId, Payment>) {
    forall p, q :: p in ps && q in ps && ChargedFor(ps[p], ps[q].intent) && Charged(ps[q].status) ==> p == q
  }

  ghost predicate IntentCharged(ps: map<PaymentId, Payment>, intent: string) {
    exists p :: p in ps && ChargedFor(ps[p], intent)
  }

  /** The step charges a record of an intent that has a charged record already. */
  ghost predicate ChargesAgain(c: Commerce, mode: Mode, e: Event)
    requires Enabled(c, e)
  {
    && ChargedBy(c, mode, e).Some?
    && IntentCharged(c.payments, ChargedIntent(c, mode, e))
  }

  lemma ChargedIntentStep(c: Commerce, mode: Mode, e: Event)
    requires Inv(c) && Enabled(c, e) && ChargedBy(c, mode, e).Some?
    ensures var p := ChargedBy(c, mode, e).value; var ps := Next(c, mode, e).payments;
      && p in ps && ps[p].intent == ChargedIntent(c, mode, e) && Charged(ps[p].status)
      && !(p in c.payments && Charged(c.payments[p].status))
  {
    ChargesStep(c, mode, e);
    ProceedsStep(c, mode, e);
    if e.PaymentSucceeded? {
      SucceededCharges(c, mode, e);
    } else {
      assert SamePayment(c.payments[e.n.value.payment], Next(c, mode, e).payments[e.n.value.payment]);
    }
  }

  /** Charged records stay charged and keep their intents. */
  lemma ChargedKept(c: Commerce, c': Commerce, p: PaymentId)
    requires Proceeds(c, c') && p in c.payments && Charged(c.payments[p].status)
    ensures p in c'.payments && Charged(c'.payments[p].status) && c'.payments[p].intent == c.payments[p].intent
  {
    assert SamePayment(c.payments[p], c'.payments[p]);
  }

  lemma TwoCharged(ps: map<PaymentId, Payment>, p: PaymentId, q: PaymentId, intent: string)
    requires p in ps && q in ps && p != q && ChargedFor(ps[p], intent) && ChargedFor(ps[q], intent)
    ensures !UniqueCharged(ps)
  {
  }

  lemma ChargedAgain(c: Commerce, mode: Mode, e: Event)
    requires Inv(c) && Enabled(c, e) && ChargesAgain(c, mode, e)
    ensures !UniqueCharged(Next(c, mode, e).payments)
  {
    var x := ChargedIntent(c, mode, e);
    ProceedsStep(c, mode, e);
    ChargedIntentStep(c, mode, e);
    var q :| q in c.payments && ChargedFor(c.payments[q], x);
    ChargedKept(c, Next(c, mode, e), q);
    TwoCharged(Next(c, mode, e).payments, ChargedBy(c, mode, e).value, q, x);
  }

  lemma StillUnique(c: Commerce, mode: Mode, e: Event)
    requires Inv(c) && UniqueCharged(c.payments) && Enabled(c, e) && !ChargesAgain(c, mode, e)
    ensures UniqueCharged(Next(c, mode, e).payments)
  {
    var c', r := Next(c, mode, e), ChargedBy(c, mode, e);
    ChargesStep(c, mode, e);
    ProceedsStep(c, mode, e);
    if r.Some? {
      ChargedIntentStep(c, mode, e);
    }
    var ps := c'.payments;
    forall p, q | p in ps && q in ps && ChargedFor(ps[p], ps[q].intent) && Charged(ps[q].status) ensures p == q {
      if r != Some(p) { ChargedKept(c, c', p); }
      if r != Some(q) { ChargedKept(c, c', q); }
    }
  }

  lemma UniqueChargedStep(c: Commerce, mode: Mode, e: Event)
    requires Inv(c) && UniqueCharged(c.payments) && Enabled(c, e)
    ensures UniqueCharged(Next(c, mode, e).payments) <==> !ChargesAgain(c, mode, e)
  {
    if ChargesAgain(c, mode, e) {
      ChargedAgain(c, mode, e);
    } else {
      StillUnique(c, mode, e);
    }
  }

  lemma {:induction false} ChargedTwiceForGood(c: Commerce, mode: Mode, es: seq<Event>)
    requires Inv(c) && Legal(c, mode, es) && !UniqueCharged(c.payments)
    ensures !UniqueCharged(Run(c, mode, es).payments)
  {
    RowsOnlyProceed(c, mode, es);
    var ps := c.payments;
    var p, q :| p in ps && q in ps && ChargedFor(ps[p], ps[q].intent) && Charged(ps[q].status) && p != q;
    ChargedKept(c, Run(c, mode, es), p);
    ChargedKept(c, Run(c, mode, es), q);
  }

  lemma ShiftedSteps(c: Commerce, mode: Mode, es: seq<Event>)
    requires Legal(c, mode, es) && es != []
    ensures var c1 := Next(c, mode, es[0]);
      (forall k :: 0 <= k < |es| ==> !ChargesAgain(StateAt(c, mode, es, k), mode, es[k])) <==>
        (!ChargesAgain(c, mode, es[0])
         && forall k :: 0 <= k < |es| - 1 ==> !ChargesAgain(StateAt(c1, mode, es[1..], k), mode, es[1..][k]))
  {
    var c1 := Next(c, mode, es[0]);
    assert StateAt(c, mode, es, 0) == c;
    forall k | 0 <= k < |es| - 1
      ensures ChargesAgain(StateAt(c1, mode, es[1..], k), mode, es[1..][k]) <==>
        ChargesAgain(StateAt(c, mode, es, k + 1), mode, es[k + 1])
    {
    }
    forall k | 0 < k < |es|
      ensures ChargesAgain(StateAt(c, mode, es, k), mode, es[k]) <==>
        ChargesAgain(StateAt(c1, mode, es[1..], k - 1), mode, es[1..][k - 1])
    {
    }
  }

  /** Over every run, with look-ups that may fail: in the end an intent has at most one
      charged record if and only if no step charges a record of an intent that has a
      charged one already. */
  lemma {:induction false} ChargedOnceIff(c: Commerce, mode: Mode, es: seq<Event>)
    requires Inv(c) && UniqueCharged(c.payments) && Legal(c, mode, es)
    ensures UniqueCharged(Run(c, mode, es).payments) <==>
      forall k :: 0 <= k < |es| ==> !ChargesAgain(StateAt(c, mode, es, k), mode, es[k])
    decreases |es|
  {
    if es != [] {
      var c1 := Next(c, mode, es[0]);
      UniqueChargedStep(c, mode, es[0]);
      InvStep(c, mode, es[0]);
      ShiftedSteps(c, mode, es);
      if ChargesAgain(c, mode, es[0]) {
        ChargedTwiceForGood(c1, mode, es[1..]);
      } else {
        ChargedOnceIff(c1, mode, es[1..]);
      }
    }
  }

  // ---------- runs in which every look-up of a payment is answered ----------

  ghost predicate UniqueRecords(ps: map<PaymentId, Payment>) {
    forall p, q :: p in ps && q in ps && ps[p].intent == ps[q].intent != "" ==> p == q
  }

  predicate Readable(e: Event) {
    e.PaymentSucceeded? ==> !e.found.Unreadable?
  }

  /** Only these events add a record, and which one. */
  function AddedRecord(e: Event): Option<PaymentId> {
    match e
    case CreateIntent(_, _, _, p, _, _, _) => Some(p)
    case CreateNative(_, _, _, _, p, _, _) => Some(p)
    case PaymentSucceeded(_, _, _, _, p, _) => Some(p)
    case _ => None
  }

  lemma AddedStep(c: Commerce, mode: Mode, e: Event)
    requires Enabled(c, e) && Readable(e)
    ensures forall p :: p in Next(c, mode, e).payments ==> p in c.payments || AddedRecord(e) == Some(p)
    ensures forall p :: p in Next(c, mode, e).payments && p !in c.payments ==>
      var x := Next(c, mode, e).payments[p].intent;
      x != "" ==> forall q :: q in c.payments ==> c.payments[q].intent != x
  {
    if e.RefundPayment? {
      RefundCharges(c, mode, e);
    }
  }

  lemma UniqueRecordsStep(c: Commerce, mode: Mode, e: Event)
    requires Inv(c) && UniqueRecords(c.payments) && Enabled(c, e) && Readable(e)
    ensures UniqueRecords(Next(c, mode, e).payments)
  {
    var ps := Next(c, mode, e).payments;
    AddedStep(c, mode, e);
    ProceedsStep(c, mode, e);
    forall p, q | p in ps && q in ps && ps[p].intent == ps[q].intent != "" ensures p == q {
      if p in c.payments { assert SamePayment(c.payments[p], ps[p]); }
      if q in c.payments { assert SamePayment(c.payments[q], ps[q]); }
    }
  }

  /** While look-ups of payments do not fail, no intent ever has two records, charged
      or not. */
  lemma {:induction false} ReadableRunsChargeOnce(c: Commerce, mode: Mode, es: seq<Event>)
    requires Inv(c) && UniqueRecords(c.payments) && Legal(c, mode, es)
    requires forall k :: 0 <= k < |es| ==> Readable(es[k])
    ensures UniqueRecords(Run(c, mode, es).payments) && UniqueCharged(Run(c, mode, es).payments)
    decreases |es|
  {
    if es != [] {
      UniqueRecordsStep(c, mode, es[0]);
      InvStep(c, mode, es[0]);
      ReadableRunsChargeOnce(Next(c, mode, es[0]), mode, es[1..]);
    }
  }

  // ---------- redelivery ----------

  ghost function Deliver(c: Commerce, mode: Mode, e: Event): (Commerce, Outcome)
    requires e.PaymentSucceeded? && Enabled(c, e)
  {
    SucceededSpec(c, mode, e.intent, e.charge, e.foundOrder, e.found, e.payment, e.w)
  }

  lemma FirstDelivery(c: Commerce, mode: Mode, e: Event)
    requires e.PaymentSucceeded? && Enabled(c, e) && ChargedBy(c, mode, e).Some?
    ensures var p := ChargedBy(c, mode, e).value; var c1 := Next(c, mode, e);
      && p in c1.payments && c1.payments[p].status.Succeeded? && c1.payments[p].intent == e.intent
      && forall q :: q != p ==>
           (q in c1.payments <==> q in c.payments) && (q in c.payments ==> c1.payments[q] == c.payments[q])
  {
  }

  /** A success webhook that finds its order and a record, or none, or fails to. */
  lemma DeliveryIsNeutralIff(c: Commerce, mode: Mode, e: Event)
    requires e.PaymentSucceeded? && Enabled(c, e)
    ensures Deliver(c, mode, e) == (c, Done) <==>
      e.foundOrder.Found? && e.found.Found? && c.payments[e.found.value].status.Succeeded?
  {
    if ChargedBy(c, mode, e).Some? {
      SucceededCharges(c, mode, e);
    }
  }

  /** After a delivery that charged a record, even one that could not mark the order, a
      second delivery changes nothing and reports success if and only if its look-ups
      are answered, with that record or with one that had succeeded before. */
  lemma RedeliveryIff(c: Commerce, mode: Mode, e: Event, e2: Event)
    requires Inv(c) && e.PaymentSucceeded? && Enabled(c, e) && ChargedBy(c, mode, e).Some?
    requires e2.PaymentSucceeded? && e2.intent == e.intent && Enabled(Next(c, mode, e), e2)
    ensures Deliver(Next(c, mode, e), mode, e2) == (Next(c, mode, e), Done) <==>
      e2.foundOrder.Found? && e2.found.Found?
      && (Some(e2.found.value) == ChargedBy(c, mode, e)
          || (e2.found.value in c.payments && c.payments[e2.found.value].status.Succeeded?))
  {
    FirstDelivery(c, mode, e);
    DeliveryIsNeutralIff(Next(c, mode, e), mode, e2);
  }

  /** In particular, while look-ups of payments do not fail. */
  lemma RedeliveryIsNeutral(c: Commerce, mode: Mode, e: Event, e2: Event)
    requires Inv(c) && UniqueRecords(c.payments)
    requires e.PaymentSucceeded? && Enabled(c, e) && Readable(e) && ChargedBy(c, mode, e).Some?
    requires e2.PaymentSucceeded? && e2.intent == e.intent && Enabled(Next(c, mode, e), e2)
    requires Readable(e2) && e2.foundOrder.Found?
    ensures Deliver(Next(c, mode, e), mode, e2) == (Next(c, mode, e), Done)
  {
    FirstDelivery(c, mode, e);
    UniqueRecordsStep(c, mode, e);
    RedeliveryIff(c, mode, e, e2);
  }

  /** It is not neutral otherwise. A run from the empty store: a payment has been created;
      the look-up of the first delivery fails, that of the second succeeds. The intent
      then has two succeeded records, and with a publisher both are published. */
  lemma FailedLookUpChargesTwice(mode: Mode) returns (es: seq<Event>)
    ensures Legal(EMPTY, mode, es)
    ensures var c := Run(EMPTY, mode, es);
      && c.payments.Keys == {0, 1} && c.payments[0].intent == c.payments[1].intent == "pi"
      && c.payments[0].status.Succeeded? && c.payments[1].status.Succeeded?
      && (!mode.direct ==> c.published == [1, 0])
      && !UniqueCharged(c.payments)
  {
    var w := Writes(true, true, true, InvoicePort(true, true, 0), true);
    var w2 := w.(invoice := InvoicePort(true, true, 1));
    var first := PaymentSucceeded("pi", "ch", Found(0), Unreadable, 1, w);
    var second := PaymentSucceeded("pi", "ch", Found(0), Found(0), 2, w2);
    var c1 := Next(PREPARED, mode, first);
    assert c1.payments[0] == CARD && c1.payments[1].status.Succeeded?;
    var c2 := Next(c1, mode, second);
    Prepend(c1, mode, second, []);
    Prepend(PREPARED, mode, first, [second]);
    es := Prepare(mode, [first] + [second]);
  }

  // ---------- intents that were replaced ----------

  /** `o` is no new order, and keeps its intent. */
  ghost predicate KeepsIntent(b: OrderBook, b': OrderBook, o: OrderId) {
    o in b'.orders ==> o in b.orders && b'.orders[o].intent == b.orders[o].intent
  }

  lemma PaidKeepsIntents(b: OrderBook, id: OrderId, ok: bool, port: InvoicePort, o: OrderId)
    ensures KeepsIntent(b, PaidSpec(b, id, ok, port).0, o)
  {
  }

  lemma SucceededKeepsIntent(c: Commerce, mode: Mode, e: Event, o: OrderId)
    requires e.PaymentSucceeded? && Enabled(c, e)
    ensures KeepsIntent(c.book, Next(c, mode, e).book, o)
  {
    if e.foundOrder.Found? {
      PaidKeepsIntents(c.book, e.foundOrder.value, e.w.order, e.w.invoice, o);
    }
  }

  lemma NotifyKeepsIntent(c: Commerce, mode: Mode, e: Event, o: OrderId)
    requires e.Notify? && Enabled(c, e)
    ensures KeepsIntent(c.book, Next(c, mode, e).book, o)
  {
    if e.n.Some? && e.n.value.payment in c.payments {
      PaidKeepsIntents(c.book, c.payments[e.n.value.payment].order, e.w.order, e.w.invoice, o);
    }
  }

  lemma RefundKeepsIntent(c: Commerce, mode: Mode, e: Event, o: OrderId)
    requires e.RefundPayment? && Enabled(c, e)
    ensures KeepsIntent(c.book, Next(c, mode, e).book, o)
  {
  }

  /** The only step that gives an order an intent is CreateIntent. */
  lemma OrderIntentsStep(c: Commerce, mode: Mode, e: Event, o: OrderId)
    requires Enabled(c, e) && o in Next(c, mode, e).book.orders
    ensures var x := Next(c, mode, e).book.orders[o].intent;
      x == "" || (e.CreateIntent? && e.order == o && x == e.intent)
      || (o in c.book.orders && x == c.book.orders[o].intent)
  {
    match e
    case PaymentSucceeded(_, _, _, _, _, _) => SucceededKeepsIntent(c, mode, e, o);
    case Notify(_, _, _, _) => NotifyKeepsIntent(c, mode, e, o);
    case RefundPayment(_, _, _, _) => RefundKeepsIntent(c, mode, e, o);
    case _ =>
  }

  /** There is a payment of the intent, but its order has another intent now. */
  ghost predicate Replaced(c: Commerce, intent: string) {
    && intent != ""
    && (exists p :: p in c.payments && c.payments[p].intent == intent)
    && (forall o :: o in c.book.orders ==> c.book.orders[o].intent != intent)
  }

  /** A second CreatePaymentIntent replaces the intent of an order exactly if the new
      one is written to the order. */
  lemma ReplacedIff(c: Commerce, mode: Mode, e: Event, p: PaymentId)
    requires IntentsInv(c.book, c.payments) && e.CreateIntent? && Enabled(c, e) && e.order in c.book.orders
    requires p in c.payments && c.payments[p].intent == c.book.orders[e.order].intent != ""
    ensures var ord := c.book.orders[e.order];
      Replaced(Next(c, mode, e), ord.intent) <==>
        ord.user == e.user && ord.status.Pending? && e.providerOk && e.setOk
  {
    var c' := Next(c, mode, e);
    assert c'.payments[p] == c.payments[p];
  }

  lemma ReplacedStep(c: Commerce, mode: Mode, e: Event, intent: string)
    requires Inv(c) && Enabled(c, e) && Replaced(c, intent)
    ensures Replaced(Next(c, mode, e), intent)
  {
    var c' := Next(c, mode, e);
    var p :| p in c.payments && c.payments[p].intent == intent;
    ProceedsStep(c, mode, e);
    assert SamePayment(c.payments[p], c'.payments[p]);
    forall o | o in c'.book.orders ensures c'.book.orders[o].intent != intent {
      OrderIntentsStep(c, mode, e, o);
    }
  }

  lemma {:induction false} ReplacedForGood(c: Commerce, mode: Mode, es: seq<Event>, intent: string)
    requires Inv(c) && Legal(c, mode, es) && Replaced(c, intent)
    ensures Replaced(Run(c, mode, es), intent)
    decreases |es|
  {
    if es != [] {
      ReplacedStep(c, mode, es[0], intent);
      InvStep(c, mode, es[0]);
      ReplacedForGood(Next(c, mode, es[0]), mode, es[1..], intent);
    }
  }

  /** Once replaced, an intent settles nothing any more: in every later state each
      success webhook of it is rejected without any change, although the customer may
      have paid. */
  lemma ReplacedIntentIsDead(c: Commerce, mode: Mode, es: seq<Event>, e: Event)
    requires Inv(c) && Legal(c, mode, es)
    requires e.PaymentSucceeded? && Replaced(c, e.intent) && Enabled(Run(c, mode, es), e)
    ensures Deliver(Run(c, mode, es), mode, e) ==
      (Run(c, mode, es), Rejected(if e.foundOrder.Missing? then NotFound else StoreError))
  {
    ReplacedForGood(c, mode, es, e.intent);
  }

  lemma {:induction false} FreshId(ids: set<nat>) returns (n: nat)
    ensures forall i :: i in ids ==> i < n
    decreases |ids|
  {
    n := 0;
    if ids != {} {
      var x :| x in ids;
      var m := FreshId(ids - {x});
      n := if x < m then m else x + 1;
      assert forall i :: i in ids ==> i == x || i in ids - {x};
    }
  }

  /** A success webhook of `intent` would mark `o` as paid. */
  ghost predicate WouldSettle(c: Commerce, mode: Mode, intent: string, o: OrderId, e: Event) {
    && e.PaymentSucceeded? && e.intent == intent && Enabled(c, e)
    && o in Next(c, mode, e).book.orders && Next(c, mode, e).book.orders[o].status.Paid?
  }

  ghost predicate HasRecord(ps: map<PaymentId, Payment>, intent: string) {
    exists p :: p in ps && ps[p].intent == intent
  }

  predicate CanSucceed(p: Payment, intent: string) {
    p.intent == intent && Open(p.status)
  }

  /** A record of the intent that can still succeed, or none where the handler makes one. */
  ghost predicate Payable(c: Commerce, mode: Mode, intent: string) {
    (exists p :: p in c.payments && CanSucceed(c.payments[p], intent))
    || (mode.missingIsError && !HasRecord(c.payments, intent))
  }

  lemma SettlesOnlyOwn(c: Commerce, mode: Mode, intent: string, o: OrderId, e: Event)
    requires mode.direct && o in c.book.orders && !Settled(c.book.orders[o].status)
    requires WouldSettle(c, mode, intent, o, e)
    ensures intent != "" && c.book.orders[o].intent == intent && c.book.orders[o].status.Pending?
    ensures e.found.Unreadable? || Payable(c, mode, intent)
  {
  }

  lemma CanSettle(c: Commerce, mode: Mode, intent: string, o: OrderId, found: Lookup<PaymentId>) returns (e: Event)
    requires mode.direct && o in c.book.orders && intent != ""
    requires c.book.orders[o].intent == intent && c.book.orders[o].status.Pending?
    requires AnswersPayment(c.payments, intent, found)
    requires found.Found? ==> Open(c.payments[found.value].status)
    requires found.Missing? ==> mode.missingIsError
    ensures WouldSettle(c, mode, intent, o, e) && e.found == found
  {
    var p := FreshId(c.payments.Keys);
    var i := FreshId(c.book.invoices.Keys);
    e := PaymentSucceeded(intent, "ch", Found(o), found, p, Writes(true, true, true, InvoicePort(true, true, i), true));
  }

  /** Which intents can settle an order: exactly the one that was written to it last,
      while the order is pending, if a record of it can still succeed or is made anew.
      If look-ups may fail (`failing`) one is always made anew. */
  lemma SettlesIff(c: Commerce, mode: Mode, intent: string, o: OrderId, failing: bool)
    requires mode.direct && o in c.book.orders && !Settled(c.book.orders[o].status)
    ensures (exists e :: WouldSettle(c, mode, intent, o, e) && (e.found.Unreadable? ==> failing)) <==>
      intent != "" && c.book.orders[o].intent == intent && c.book.orders[o].status.Pending?
      && (failing || Payable(c, mode, intent))
  {
    if e :| WouldSettle(c, mode, intent, o, e) && (e.found.Unreadable? ==> failing) {
      SettlesOnlyOwn(c, mode, intent, o, e);
    }
    if intent != "" && c.book.orders[o].intent == intent && c.book.orders[o].status.Pending? {
      if failing {
        var e := CanSettle(c, mode, intent, o, Unreadable);
      } else if p :| p in c.payments && CanSucceed(c.payments[p], intent) {
        var e := CanSettle(c, mode, intent, o, Found(p));
      } else if mode.missingIsError && !HasRecord(c.payments, intent) {
        var e := CanSettle(c, mode, intent, o, Missing);
      }
    }
  }

  // ---------- stored events ----------

  lemma NotifySilentIff(c: Commerce, mode: Mode, provider: string, n: Notification, eventOk: bool, w: Writes)
    requires n.payment in c.payments
    ensures NotifySpec(c, mode, provider, Some(n), eventOk, w) == (c, Done) <==>
      c.payments[n.payment].status.Succeeded? || (provider, EventId(provider, n.tradeNo)) in c.events || !eventOk
  {
    var e := (provider, EventId(provider, n.tradeNo));
    if !(c.payments[n.payment].status.Succeeded? || e in c.events || !eventOk) {
      assert e in NotifySpec(c, mode, provider, Some(n), eventOk, w).0.events;
    }
  }

  lemma {:induction false} EventsGrow(c: Commerce, mode: Mode, es: seq<Event>)
    requires Legal(c, mode, es)
    ensures c.events <= Run(c, mode, es).events
    decreases |es|
  {
    if es != [] {
      EventsStep(c, mode, es[0]);
      EventsGrow(Next(c, mode, es[0]), mode, es[1..]);
    }
  }

  lemma EventsStep(c: Commerce, mode: Mode, e: Event)
    requires Enabled(c, e)
    ensures c.events <= Next(c, mode, e).events
  {
  }

  /** The event of a success notification is stored before the payment is written. So the
      first notification that gets its event stored charges a payment that can succeed if
      and only if the payment's write succeeds; and whether it did or not, in every later
      state each notification with this trade number is reported as done and changes
      nothing. */
  lemma StoredEventsAreFinal(c: Commerce, mode: Mode, provider: string, n: Notification, w: Writes,
                             es: seq<Event>, n2: Notification, eventOk2: bool, w2: Writes)
    requires Inv(c) && n.status.NotifySuccess? && n.payment in c.payments
    requires Open(c.payments[n.payment].status)
    requires (provider, EventId(provider, n.tradeNo)) !in c.events
    requires Enabled(c, Notify(provider, Some(n), true, w))
    requires Legal(Next(c, mode, Notify(provider, Some(n), true, w)), mode, es)
    requires n2.tradeNo == n.tradeNo
    requires n2.payment in Run(Next(c, mode, Notify(provider, Some(n), true, w)), mode, es).payments
    ensures var c1 := Next(c, mode, Notify(provider, Some(n), true, w));
      && n.payment in c1.payments && (Charged(c1.payments[n.payment].status) <==> w.payment)
    ensures var c2 := Run(Next(c, mode, Notify(provider, Some(n), true, w)), mode, es);
      NotifySpec(c2, mode, provider, Some(n2), eventOk2, w2) == (c2, Done)
  {
    var e := Notify(provider, Some(n), true, w);
    var c1 := Next(c, mode, e);
    NotifyCharges(c, mode, e);
    ProceedsStep(c, mode, e);
    assert (provider, EventId(provider, n.tradeNo)) in c1.events;
    EventsGrow(c1, mode, es);
    NotifySilentIff(Run(c1, mode, es), mode, provider, n2, eventOk2, w2);
  }
}
