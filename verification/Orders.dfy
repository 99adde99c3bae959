/** Orders and invoices (internal/domain/order/domain.go, internal/model/order.go).
    An OrderBook is the contents of the two tables; each operation is a function
    on books, proved of the method that carries it out. A Boolean `ok` is the
    outcome of a store write. */
module Orders {
  import opened Options

  type OrderId = nat
  type UserId = nat
  type InvoiceId = nat

  datatype OrderStatus = Pending | Paid | Canceled | Refunded | Failed
  {
    /** The table orderTransitions. */
    function Targets(): seq<OrderStatus> {
      match this
      case Pending => [Paid, Canceled, Failed]
      case Paid => [Refunded]
      case Canceled => []
      case Refunded => []
      case Failed => [Pending]
    }

    predicate CanTransitionTo(target: OrderStatus) {
      target in Targets()
    }
  }

  datatype OrderType = Subscription | Topup | Upgrade

  datatype Plan = Plan(active: bool, price: int)

  datatype Order = Order(
    user: UserId, kind: OrderType, status: OrderStatus,
    total: int, credits: int, intent: string)

  datatype Invoice = Invoice(order: OrderId, user: UserId, amount: int)

  datatype OrderBook = OrderBook(orders: map<OrderId, Order>, invoices: map<InvoiceId, Invoice>)

  datatype Error =
    | NotFound | InvalidTransition | NotCancelable | NotRefundable | NotPaid | StoreError | InvalidAmount
    | PlanInactive | FreePlan
    | Forbidden | NotPending | ProviderError | NotSucceeded | NoCharge | Unsupported
    | NoSubscription | InsufficientCredits | BadNotification | NilPayment

  datatype Outcome = Done | Rejected(error: Error)

  /** How the store answers while an order is being marked as paid. */
  datatype InvoicePort = InvoicePort(readOk: bool, writeOk: bool, newId: InvoiceId)

  // ---------- the operations as functions ----------

  function SetStatus(b: OrderBook, id: OrderId, status: OrderStatus): OrderBook
    requires id in b.orders
  {
    b.(orders := b.orders[id := b.orders[id].(status := status)])
  }

  /** The error of the method that moves an order to `status`. */
  function Refusal(status: OrderStatus): Error {
    match status
    case Canceled => NotCancelable
    case Refunded => NotRefundable
    case _ => InvalidTransition
  }

  /** The shape shared by MarkAsFailed, CancelOrder and MarkAsRefunded. */
  function MoveSpec(b: OrderBook, id: OrderId, status: OrderStatus, ok: bool): (OrderBook, Outcome) {
    if id !in b.orders then (b, Rejected(NotFound))
    else if !b.orders[id].status.CanTransitionTo(status) then (b, Rejected(Refusal(status)))
    else if !ok then (b, Rejected(StoreError))
    else (SetStatus(b, id, status), Done)
  }

  /** An invoice of `id`, if the query finds one. */
  ghost predicate HasInvoice(b: OrderBook, id: OrderId) {
    exists i :: i in b.invoices && b.invoices[i].order == id
  }

  ghost function InvoiceSpec(b: OrderBook, id: OrderId, port: InvoicePort): (OrderBook, Outcome) {
    if id !in b.orders then (b, Rejected(NotFound))
    else if b.orders[id].status != Paid then (b, Rejected(NotPaid))
    else if port.readOk && HasInvoice(b, id) then (b, Done)
    else if !port.writeOk then (b, Rejected(StoreError))
    else
      var o := b.orders[id];
      (b.(invoices := b.invoices[port.newId := Invoice(id, o.user, o.total)]), Done)
  }

  /** A failing invoice is only logged. */
  ghost function PaidSpec(b: OrderBook, id: OrderId, ok: bool, port: InvoicePort): (OrderBook, Outcome) {
    var (b1, r) := MoveSpec(b, id, Paid, ok);
    if r == Done then (InvoiceSpec(b1, id, port).0, Done) else (b1, r)
  }

  /** The adapter that the payment domain uses (app.go). */
  ghost function UpdateStatusSpec(b: OrderBook, id: OrderId, status: string, ok: bool, port: InvoicePort)
    : (OrderBook, Outcome)
  {
    if status == "paid" then PaidSpec(b, id, ok, port)
    else if status == "failed" then MoveSpec(b, id, Failed, ok)
    else if status == "canceled" then MoveSpec(b, id, Canceled, ok)
    else if status == "refunded" then MoveSpec(b, id, Refunded, ok)
    else (b, Rejected(Unsupported))
  }

  function SetIntentSpec(b: OrderBook, id: OrderId, intent: string, ok: bool): OrderBook {
    if id in b.orders && ok
    then b.(orders := b.orders[id := b.orders[id].(intent := intent)])
    else b
  }

  const MINIMUM_TOPUP := 100

  /** The order row is written before its item; if only the item fails, the order
      stays although the caller gets an error. */
  function CreateSpec(b: OrderBook, id: OrderId, o: Order, ok: bool, itemOk: bool): (OrderBook, Outcome) {
    if !ok then (b, Rejected(StoreError))
    else (b.(orders := b.orders[id := o]), if itemOk then Done else Rejected(StoreError))
  }

  function TopupSpec(b: OrderBook, id: OrderId, user: UserId, amount: int, ok: bool, itemOk: bool)
    : (OrderBook, Outcome)
  {
    if amount < MINIMUM_TOPUP then (b, Rejected(InvalidAmount))
    else CreateSpec(b, id, Order(user, Topup, Pending, amount, amount, ""), ok, itemOk)
  }

  function SubscriptionSpec(b: OrderBook, id: OrderId, user: UserId, plan: Lookup<Plan>, ok: bool, itemOk: bool)
    : (OrderBook, Outcome)
  {
    match plan
    case Unreadable => (b, Rejected(StoreError))
    case Missing => (b, Rejected(NotFound))
    case Found(p) =>
      if !p.active then (b, Rejected(PlanInactive))
      else if p.price <= 0 then (b, Rejected(FreePlan))
      else CreateSpec(b, id, Order(user, Subscription, Pending, p.price, 0, ""), ok, itemOk)
  }

  /** One order of ExpirePendingOrders' loop. */
  function ExpireOneSpec(b: OrderBook, id: OrderId, ok: bool): OrderBook {
    MoveSpec(b, id, Failed, ok).0
  }

  function ExpireSpec(b: OrderBook, ids: seq<OrderId>, ok: OrderId -> bool): OrderBook
    decreases |ids|
  {
    if ids == [] then b else ExpireSpec(ExpireOneSpec(b, ids[0], ok(ids[0])), ids[1..], ok)
  }

  // ---------- the operations as methods ----------

  class OrderDomain {
    var orders: map<OrderId, Order>
    var invoices: map<InvoiceId, Invoice>

    function Book(): OrderBook
      reads this
    {
      OrderBook(orders, invoices)
    }

    constructor ()
      ensures Book() == OrderBook(map[], map[])
    {
      orders, invoices := map[], map[];
    }

    method CreateTopupOrder(id: OrderId, user: UserId, amount: int, ok: bool, itemOk: bool) returns (r: Outcome)
      modifies this
      ensures (Book(), r) == TopupSpec(old(Book()), id, user, amount, ok, itemOk)
      ensures r == Done <==> amount >= 100 && ok && itemOk
      ensures r == Rejected(InvalidAmount) <==> amount < 100
      ensures orders == if amount >= 100 && ok then old(orders)[id := Order(user, Topup, Pending, amount, amount, "")]
                        else old(orders)
    {
      if amount < MINIMUM_TOPUP {
        return Rejected(InvalidAmount);
      }
      var order := Order(user, Topup, Pending, amount, amount, "");
      if !ok {
        return Rejected(StoreError);
      }
      orders := orders[id := order];
      if !itemOk {
        return Rejected(StoreError);
      }
      r := Done;
    }

    /** `plan` is the answer of the query for the plan. */
    method CreateSubscriptionOrder(id: OrderId, user: UserId, plan: Lookup<Plan>, ok: bool, itemOk: bool)
      returns (r: Outcome)
      modifies this
      ensures (Book(), r) == SubscriptionSpec(old(Book()), id, user, plan, ok, itemOk)
      ensures r == Rejected(NotFound) <==> plan.Missing?
      ensures r == Rejected(PlanInactive) <==> plan.Found? && !plan.value.active
      ensures r == Rejected(FreePlan) <==> plan.Found? && plan.value.active && plan.value.price <= 0
      ensures var sold := plan.Found? && plan.value.active && plan.value.price > 0;
        && (r == Done <==> sold && ok && itemOk)
        && orders == if sold && ok then old(orders)[id := Order(user, Subscription, Pending, plan.value.price, 0, "")]
                     else old(orders)
    {
      if plan.Unreadable? {
        return Rejected(StoreError);
      }
      if plan.Missing? {
        return Rejected(NotFound);
      }
      if !plan.value.active {
        return Rejected(PlanInactive);
      }
      if plan.value.price <= 0 {
        return Rejected(FreePlan);
      }
      var order := Order(user, Subscription, Pending, plan.value.price, 0, "");
      if !ok {
        return Rejected(StoreError);
      }
      orders := orders[id := order];
      if !itemOk {
        return Rejected(StoreError);
      }
      r := Done;
    }

    method Move(id: OrderId, status: OrderStatus, ok: bool) returns (r: Outcome)
      modifies this`orders
      ensures (Book(), r) == MoveSpec(old(Book()), id, status, ok)
    {
      if id !in orders {
        return Rejected(NotFound);
      }
      var order := orders[id];
      if !order.status.CanTransitionTo(status) {
        return Rejected(Refusal(status));
      }
      order := order.(status := status);
      if !ok {
        return Rejected(StoreError);
      }
      orders := orders[id := order];
      r := Done;
    }

    method MarkAsFailed(id: OrderId, ok: bool) returns (r: Outcome)
      modifies this`orders
      ensures (Book(), r) == MoveSpec(old(Book()), id, Failed, ok)
      ensures r == Done <==> id in old(orders) && old(orders)[id].status == Pending && ok
      ensures orders == if r == Done then old(orders)[id := old(orders)[id].(status := Failed)] else old(orders)
      ensures r == Rejected(NotFound) <==> id !in old(orders)
    {
      r := Move(id, Failed, ok);
    }

    method CancelOrder(id: OrderId, ok: bool) returns (r: Outcome)
      modifies this`orders
      ensures (Book(), r) == MoveSpec(old(Book()), id, Canceled, ok)
      ensures r == Done <==> id in old(orders) && old(orders)[id].status == Pending && ok
      ensures orders == if r == Done then old(orders)[id := old(orders)[id].(status := Canceled)] else old(orders)
      ensures r == Rejected(NotCancelable) <==> id in old(orders) && old(orders)[id].status != Pending
    {
      r := Move(id, Canceled, ok);
    }

    method MarkAsRefunded(id: OrderId, ok: bool) returns (r: Outcome)
      modifies this`orders
      ensures (Book(), r) == MoveSpec(old(Book()), id, Refunded, ok)
      ensures r == Done <==> id in old(orders) && old(orders)[id].status == Paid && ok
      ensures orders == if r == Done then old(orders)[id := old(orders)[id].(status := Refunded)] else old(orders)
      ensures r == Rejected(NotRefundable) <==> id in old(orders) && old(orders)[id].status != Paid
    {
      r := Move(id, Refunded, ok);
    }

    /** `existing` is the answer of GetByOrderID. */
    method GenerateInvoice(id: OrderId, existing: Option<InvoiceId>, port: InvoicePort) returns (r: Outcome)
      requires port.readOk ==>
        if existing.Some? then existing.value in invoices && invoices[existing.value].order == id
        else !HasInvoice(Book(), id)
      modifies this`invoices
      ensures (Book(), r) == InvoiceSpec(old(Book()), id, port)
      ensures var made := id in orders && orders[id].status == Paid && !(port.readOk && existing.Some?) && port.writeOk;
        invoices == if made then old(invoices)[port.newId := Invoice(id, orders[id].user, orders[id].total)]
                    else old(invoices)
      ensures r == Rejected(NotPaid) <==> id in orders && orders[id].status != Paid
    {
      if id !in orders {
        return Rejected(NotFound);
      }
      var order := orders[id];
      if order.status != Paid {
        return Rejected(NotPaid);
      }
      if port.readOk && existing.Some? {
        return Done;
      }
      if !port.writeOk {
        return Rejected(StoreError);
      }
      invoices := invoices[port.newId := Invoice(id, order.user, order.total)];
      r := Done;
    }

    method MarkAsPaid(id: OrderId, existing: Option<InvoiceId>, ok: bool, port: InvoicePort) returns (r: Outcome)
      requires port.readOk ==>
        if existing.Some? then existing.value in invoices && invoices[existing.value].order == id
        else !HasInvoice(Book(), id)
      modifies this
      ensures (Book(), r) == PaidSpec(old(Book()), id, ok, port)
      ensures r == Done <==> id in old(orders) && old(orders)[id].status == Pending && ok
      ensures orders == if r == Done then old(orders)[id := old(orders)[id].(status := Paid)] else old(orders)
      ensures invoices ==
        if r == Done && !(port.readOk && existing.Some?) && port.writeOk
        then old(invoices)[port.newId := Invoice(id, orders[id].user, orders[id].total)] else old(invoices)
    {
      r := Move(id, OrderStatus.Paid, ok);
      if r == Done {
        assert HasInvoice(Book(), id) <==> old(HasInvoice(Book(), id));
        var logged := GenerateInvoice(id, existing, port);
      }
    }

    method UpdateOrderStatus(id: OrderId, status: string, existing: Option<InvoiceId>, ok: bool, port: InvoicePort)
      returns (r: Outcome)
      requires port.readOk ==>
        if existing.Some? then existing.value in invoices && invoices[existing.value].order == id
        else !HasInvoice(Book(), id)
      modifies this
      ensures (Book(), r) == UpdateStatusSpec(old(Book()), id, status, ok, port)
      ensures r == Rejected(Unsupported) <==> status !in ["paid", "failed", "canceled", "refunded"]
      ensures r != Done ==> Book() == old(Book())
      ensures r == Done ==>
        id in old(orders)
        && orders == old(orders)[id := old(orders)[id].(status :=
             if status == "paid" then Paid else if status == "failed" then Failed
             else if status == "canceled" then Canceled else Refunded)]
    {
      if status == "paid" {
        r := MarkAsPaid(id, existing, ok, port);
      } else if status == "failed" {
        r := MarkAsFailed(id, ok);
      } else if status == "canceled" {
        r := CancelOrder(id, ok);
      } else if status == "refunded" {
        r := MarkAsRefunded(id, ok);
      } else {
        r := Rejected(Unsupported);
      }
    }

    method SetStripePaymentIntentID(id: OrderId, intent: string, ok: bool) returns (r: Outcome)
      modifies this`orders
      ensures Book() == SetIntentSpec(old(Book()), id, intent, ok)
      ensures orders == if id in old(orders) && ok then old(orders)[id := old(orders)[id].(intent := intent)]
                        else old(orders)
      ensures r == Done <==> id in old(orders) && ok
    {
      if id !in orders {
        return Rejected(NotFound);
      }
      if !ok {
        return Rejected(StoreError);
      }
      orders := orders[id := orders[id].(intent := intent)];
      r := Done;
    }

    /** `expired` is the answer of ListPendingExpired. */
    method ExpirePendingOrders(expired: seq<OrderId>, ok: OrderId -> bool)
      modifies this`orders
      ensures Book() == ExpireSpec(old(Book()), expired, ok)
    {
      var i := 0;
      while i < |expired|
        invariant 0 <= i <= |expired|
        invariant ExpireSpec(Book(), expired[i..], ok) == ExpireSpec(old(Book()), expired, ok)
      {
        assert expired[i..][1..] == expired[i + 1..];
        var logged := Move(expired[i], Failed, ok(expired[i]));
        i := i + 1;
      }
    }
  }

  /** Expiry fails each listed order whose write succeeds, and only pending ones;
      everything else stays as it was. */
  lemma {:induction false} ExpireExactly(b: OrderBook, ids: seq<OrderId>, ok: OrderId -> bool)
    ensures var b' := ExpireSpec(b, ids, ok);
      && b'.invoices == b.invoices && b'.orders.Keys == b.orders.Keys
      && (forall id :: id in b.orders ==>
            b'.orders[id] ==
              if id in ids && ok(id) && b.orders[id].status == Pending
              then b.orders[id].(status := Failed) else b.orders[id])
    decreases |ids|
  {
    if ids != [] {
      ExpireExactly(ExpireOneSpec(b, ids[0], ok(ids[0])), ids[1..], ok);
      assert ids == [ids[0]] + ids[1..];
    }
  }
}
