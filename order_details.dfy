/** The order-details component of `order-details-component.ts`: the status
    label table, the CSS class of a status, and the gated order load. */
module OrderDetails {
  import opened Common
  import opened Text

  /** The fields of an order reply that the model keeps. */
  datatype OrderDto = OrderDto(id: int, shippingAddress: string, status: int)

  /** `statusLabels`. */
  const StatusLabels: map<int, string> :=
    map[0 := "Pending", 1 := "Processing", 2 := "Shipped", 3 := "Delivered", 4 := "Cancelled"]

  /** The table covers exactly the codes 0 to 4 and gives each its own label. */
  lemma StatusLabelsTable()
    ensures StatusLabels.Keys == {0, 1, 2, 3, 4}
    ensures forall a, b :: a in StatusLabels && b in StatusLabels && a != b ==> StatusLabels[a] != StatusLabels[b]
  {
  }

  /** `getStatusClass`: `status-` followed by the status in lower case. */
  function StatusClass(status: string): (r: string)
    ensures |r| == 7 + |status|
    ensures StartsWith(r, "status-")
    ensures forall i :: 7 <= i < |r| ==> !('A' <= r[i] <= 'Z') && r[i] == LowerChar(status[i - 7])
  {
    "status-" + ToLower(status)
  }

  /** A class is unchanged by lower-casing the status first, and each label
      gives its lower-case class name. */
  lemma StatusClassOfLabels(status: string)
    ensures StatusClass(ToLower(status)) == StatusClass(status)
    ensures StatusClass(StatusLabels[0]) == "status-pending"
    ensures StatusClass(StatusLabels[4]) == "status-cancelled"
  {
    ToLowerIdempotent(status);
  }

  class OrderDetailsView {
    var order: Option<OrderDto>

    constructor()
      ensures order == None
    {
      order := None;
    }

    /** `loadOrder`: request the order; hold the reply's result only when it
        reports success. Returns the requested path. */
    method LoadOrder(id: string, reply: Delivery<ApiEnvelope<OrderDto>>) returns (path: string)
      modifies this
      ensures path == "api/order/" + id
      ensures reply.Delivered? && reply.value.isSuccess ==> order == reply.value.result
      ensures !(reply.Delivered? && reply.value.isSuccess) ==> order == old(order)
    {
      path := "api/order/" + id;
      if reply.Delivered? && reply.value.isSuccess {
        order := reply.value.result;
      }
    }

    /** `ngOnInit`: load only when the route carries a non-empty id. */
    method NgOnInit(routeId: Option<string>, reply: Delivery<ApiEnvelope<OrderDto>>) returns (path: Option<string>)
      modifies this
      ensures !TruthyText(routeId) ==> path == None && order == old(order)
      ensures TruthyText(routeId) ==> path == Some("api/order/" + routeId.value)
      ensures TruthyText(routeId) && reply.Delivered? && reply.value.isSuccess ==> order == reply.value.result
      ensures !(TruthyText(routeId) && reply.Delivered? && reply.value.isSuccess) ==> order == old(order)
    {
      path := None;
      if routeId.Some? && routeId.value != "" {
        var requested := LoadOrder(routeId.value, reply);
        path := Some(requested);
      }
    }
  }
}
