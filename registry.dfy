/**
 * The order lifecycle reconciler (`handle_order`): the registry maps an
 * order id to the order, and holds exactly the live orders.
 */
module Registry {
  import opened Wrappers
  import opened Entities
  import opened Events

  type Orders = map<Id, Order>

  /** Every registered order is filed under its own id and is live. */
  ghost predicate LiveRegistry(registry: Orders)
  {
    forall id :: id in registry ==> registry[id].id == id && IsLive(registry[id].status)
  }

  /** An id can be found: on the report itself, or on an enclosing message. */
  predicate IdResolvable(report: OrderReport, outer: Option<Envelope>)
  {
    |report.origClientId| > 0 || outer.Some?
  }

  /** The id `handle_order` resolves: the echoed `orig_client_id` when it is
      non-empty, otherwise the outer message's `client_id`. */
  function OrderId(report: OrderReport, outer: Option<Envelope>): Id
    requires IdResolvable(report, outer)
  {
    if |report.origClientId| > 0 then report.origClientId else outer.value.clientId
  }

  /** `create_order_from_message`: a new order, status and error code unset. */
  function NewOrder(report: OrderReport, id: Id, serial: nat): Order
  {
    Order(serial, id, report.price, report.quantity, report.side, report.orderType,
          report.duration, None, None)
  }

  /** The status `handle_order` gives the order; `prior` is its status before. */
  function SelectStatus(report: OrderReport, forced: Option<OrderStatus>, seen: bool,
                        prior: Option<OrderStatus>): Option<OrderStatus>
  {
    if report.status.Some? then report.status
    else if forced.Some? then forced
    else if !seen then
      // A new order's quantity is the report's, so this compares the two.
      (if report.origQuantity != report.quantity then Some(Partial) else Some(Accepted))
    else prior
  }

  /** The error code an outer message attaches, when it has a nonzero one. */
  function WithError(order: Order, outer: Option<Envelope>): Order
  {
    if outer.Some? && outer.value.errorCode != 0 then order.(errorCode := Some(outer.value.errorCode))
    else order
  }

  /** What reconciling one report gives: the order (registered or not), whether
      it was registered before, the new registry and the number of orders
      created so far. */
  datatype Reconciled = Reconciled(order: Order, seen: bool, registry: Orders, created: nat)

  function Reconcile(registry: Orders, report: OrderReport, outer: Option<Envelope>,
                     forced: Option<OrderStatus>, created: nat): Reconciled
    requires IdResolvable(report, outer)
  {
    var id := OrderId(report, outer);
    var seen := id in registry;
    var base := if seen then registry[id] else NewOrder(report, id, created);
    var order := WithError(base.(status := SelectStatus(report, forced, seen, base.status)), outer);
    var registry' :=
      if seen && !IsLive(order.status) then registry - {id}
      else if seen || IsLive(order.status) then registry[id := order]
      else registry;
    Reconciled(order, seen, registry', if seen then created else created + 1)
  }

  /**
   * Status priority: the report's own status, then the forced status, then
   * (for an order not seen before only) PARTIAL when the original quantity
   * differs from the quantity and ACCEPTED otherwise; an order seen before
   * with neither keeps its status.
   */
  lemma ReconcileStatusPriority(registry: Orders, report: OrderReport, outer: Option<Envelope>,
                                forced: Option<OrderStatus>, created: nat)
    requires IdResolvable(report, outer)
    ensures var r := Reconcile(registry, report, outer, forced, created);
            report.status.Some? ==> r.order.status == report.status
    ensures var r := Reconcile(registry, report, outer, forced, created);
            report.status.None? && forced.Some? ==> r.order.status == forced
    ensures var r := Reconcile(registry, report, outer, forced, created);
            report.status.None? && forced.None? && !r.seen ==>
              r.order.status == Some(if report.origQuantity != report.quantity then Partial else Accepted)
    ensures var r := Reconcile(registry, report, outer, forced, created);
            report.status.None? && forced.None? && r.seen ==>
              r.order.status == registry[OrderId(report, outer)].status
  {
  }

  /**
   * The reconciled order carries the resolved id; an order seen before keeps
   * its price and quantity, a new one takes them from the report; a nonzero
   * outer error code is attached and otherwise the error code is kept.
   */
  lemma ReconcileOrderFields(registry: Orders, report: OrderReport, outer: Option<Envelope>,
                             forced: Option<OrderStatus>, created: nat)
    requires IdResolvable(report, outer)
    ensures var r, id := Reconcile(registry, report, outer, forced, created), OrderId(report, outer);
            && r.seen == (id in registry)
            && (r.seen ==> r.order.id == registry[id].id && r.order.price == registry[id].price && r.order.quantity == registry[id].quantity
                           && r.order.serial == registry[id].serial && r.created == created)
            && (!r.seen ==> r.order.id == id && r.order.price == report.price && r.order.quantity == report.quantity
                            && r.order.serial == created && r.created == created + 1)
    ensures var r, id := Reconcile(registry, report, outer, forced, created), OrderId(report, outer);
            && (outer.Some? && outer.value.errorCode != 0 ==> r.order.errorCode == Some(outer.value.errorCode))
            && (outer.None? || outer.value.errorCode == 0 ==>
                  r.order.errorCode == (if r.seen then registry[id].errorCode else None))
  {
  }

  /**
   * Registry membership: a seen order that is no longer live is removed, an
   * unseen live one is added, an unseen terminal one is never inserted, and
   * no other id is touched. Afterwards the order is registered exactly when
   * it is live, and then the registry holds that very order.
   */
  lemma ReconcileMembership(registry: Orders, report: OrderReport, outer: Option<Envelope>,
                            forced: Option<OrderStatus>, created: nat)
    requires IdResolvable(report, outer)
    ensures var r, id := Reconcile(registry, report, outer, forced, created), OrderId(report, outer);
            && (r.seen && !IsLive(r.order.status) ==> id !in r.registry)
            && (!r.seen && IsLive(r.order.status) ==> id in r.registry)
            && (!r.seen && !IsLive(r.order.status) ==> id !in r.registry)
            && (id in r.registry <==> IsLive(r.order.status))
            && (id in r.registry ==> r.registry[id] == r.order)
    ensures var r, id := Reconcile(registry, report, outer, forced, created), OrderId(report, outer);
            forall k :: k != id ==> (k in r.registry <==> k in registry) && (k in registry ==> r.registry[k] == registry[k])
  {
  }

  /** Reconciling keeps "the registry holds exactly live orders". */
  lemma ReconcileKeepsLiveRegistry(registry: Orders, report: OrderReport, outer: Option<Envelope>,
                                   forced: Option<OrderStatus>, created: nat)
    requires IdResolvable(report, outer)
    requires LiveRegistry(registry)
    ensures LiveRegistry(Reconcile(registry, report, outer, forced, created).registry)
  {
  }

  /**
   * Re-delivery: reconciling the same report a second time leaves the
   * registry as the first time did and gives the order the same status.
   */
  lemma ReconcileTwiceIsOnce(registry: Orders, report: OrderReport, outer: Option<Envelope>,
                             forced: Option<OrderStatus>, created: nat)
    requires IdResolvable(report, outer)
    requires LiveRegistry(registry)
    ensures var r1 := Reconcile(registry, report, outer, forced, created);
            var r2 := Reconcile(r1.registry, report, outer, forced, r1.created);
            r2.registry == r1.registry && r2.order.status == r1.order.status
  {
    var id := OrderId(report, outer);
    var r1 := Reconcile(registry, report, outer, forced, created);
    ReconcileMembership(registry, report, outer, forced, created);
    if id in registry && id !in r1.registry {
      // The old status was live, so the terminal one came from the report or the caller.
      assert IsLive(registry[id].status);
      assert report.status.Some? || forced.Some?;
    }
  }

  /** A cancel report for a known order removes it, and the order keeps the
      price and quantity it had. */
  lemma CancelRemovesKnownOrder(registry: Orders, report: OrderReport, outer: Envelope, created: nat)
    requires report.status.None?
    requires OrderId(report, Some(outer)) in registry
    ensures var r, id := Reconcile(registry, report, Some(outer), Some(Canceled), created), OrderId(report, Some(outer));
            && id !in r.registry
            && r.order.status == Some(Canceled)
            && r.order.price == registry[id].price
            && r.order.quantity == registry[id].quantity
  {
  }

  /** Overwriting the quantity of a reconciled order that stayed registered
      keeps "the registry holds exactly live orders"; the order carries the
      id it is registered under. */
  lemma FilledWriteBackKeepsLiveRegistry(registry: Orders, report: OrderReport, outer: Envelope,
                                         created: nat, quantity: Decimal)
    requires LiveRegistry(registry)
    ensures var r := Reconcile(registry, report, Some(outer), None, created);
            && r.order.id == OrderId(report, Some(outer))
            && LiveRegistry(r.registry)
            && (r.order.id in r.registry ==> LiveRegistry(r.registry[r.order.id := r.order.(quantity := quantity)]))
  {
    ReconcileKeepsLiveRegistry(registry, report, Some(outer), None, created);
    ReconcileMembership(registry, report, Some(outer), None, created);
  }

  /** The registry, the creation counter and the pending hooks threaded
      through a loop of reconciliations. */
  datatype Batch = Batch(registry: Orders, created: nat, pending: seq<Event>)

  /** The `for order_msg in message.orders` loops: reconcile each report in
      turn and schedule its order's hook. */
  function ReconcileAll(start: Batch, reports: seq<OrderReport>, outer: Option<Envelope>,
                        forced: Option<OrderStatus>): Batch
    requires forall i :: 0 <= i < |reports| ==> IdResolvable(reports[i], outer)
    decreases |reports|
  {
    if reports == [] then start
    else
      var prev := ReconcileAll(start, reports[..|reports| - 1], outer, forced);
      var r := Reconcile(prev.registry, reports[|reports| - 1], outer, forced, prev.created);
      Batch(r.registry, r.created, Scheduled(prev.pending, OrderUpdated(r.order.serial)))
  }

  /**
   * Over any number of reconciliations the registry keeps holding exactly
   * live orders, the pending list stays free of repetitions and only grows
   * at its end, and the creation counter never decreases.
   */
  lemma {:induction false} ReconcileAllKeepsInvariants(start: Batch, reports: seq<OrderReport>,
                                                       outer: Option<Envelope>, forced: Option<OrderStatus>)
    requires forall i :: 0 <= i < |reports| ==> IdResolvable(reports[i], outer)
    requires LiveRegistry(start.registry) && NoDup(start.pending)
    ensures var b := ReconcileAll(start, reports, outer, forced);
            LiveRegistry(b.registry) && NoDup(b.pending) && start.pending <= b.pending && start.created <= b.created
    decreases |reports|
  {
    if reports != [] {
      var prev := ReconcileAll(start, reports[..|reports| - 1], outer, forced);
      ReconcileAllKeepsInvariants(start, reports[..|reports| - 1], outer, forced);
      var r := Reconcile(prev.registry, reports[|reports| - 1], outer, forced, prev.created);
      ReconcileKeepsLiveRegistry(prev.registry, reports[|reports| - 1], outer, forced, prev.created);
      ScheduleKeepsNoDup(prev.pending, OrderUpdated(r.order.serial));
    }
  }
}
