/** The admin's order dialog: the status badge colour, the five selectable statuses and
    the status-update handler with its empty-selection guard. */
module AdminOrderDetails {
  import opened Wrappers

  /** What the dialog reads of the order it shows. */
  datatype Order = Order(id: string, orderStatus: string)

  /** The statuses the badge knows, and their colours, in the same order. */
  const KnownStatuses: seq<string> := ["confirmed", "rejected", "pending", "inProcess", "inShipping", "delivered"]
  const KnownColours: seq<string> := ["bg-green-500", "bg-red-600", "bg-yellow-500", "bg-blue-500", "bg-purple-500", "bg-teal-500"]
  const Gray := "bg-gray-500"

  /** The chain of equality tests choosing the badge colour. */
  function BadgeColour(status: string): (c: string)
    ensures forall i :: 0 <= i < |KnownStatuses| && status == KnownStatuses[i] ==> c == KnownColours[i]
    ensures status !in KnownStatuses ==> c == Gray
  {
    if status == "confirmed" then "bg-green-500"
    else if status == "rejected" then "bg-red-600"
    else if status == "pending" then "bg-yellow-500"
    else if status == "inProcess" then "bg-blue-500"
    else if status == "inShipping" then "bg-purple-500"
    else if status == "delivered" then "bg-teal-500"
    else Gray
  }

  /** Each known status has a colour of its own, and none of them is gray. */
  lemma BadgeColoursDistinct(s: string, t: string)
    requires s in KnownStatuses && t in KnownStatuses && s != t
    ensures BadgeColour(s) != BadgeColour(t)
    ensures BadgeColour(s) != Gray
  {
  }

  /** The ids of the select's options. */
  function StatusOptions(): (opts: seq<string>)
    ensures |opts| == 5
    ensures forall i, j :: 0 <= i < j < |opts| ==> opts[i] != opts[j]
    ensures "confirmed" !in opts
    ensures forall s :: s in opts <==> s in KnownStatuses && s != "confirmed"
  {
    ["pending", "inProcess", "inShipping", "delivered", "rejected"]
  }

  /** With no order the dialog renders nothing, so its handler cannot run. */
  predicate Renders(orderDetails: Option<Order>)
  {
    orderDetails.Some?
  }

  /** `updateOrderStatus({ id, orderStatus })`. */
  datatype UpdateRequest = UpdateRequest(id: string, orderStatus: string)

  /** The request `handleUpdateStatus` dispatches: none for an empty selection, else the
      selected status for this order. */
  function UpdateFor(order: Order, selected: string): (r: Option<UpdateRequest>)
    ensures r.None? <==> selected == ""
    ensures r.Some? ==> r.value.id == order.id && r.value.orderStatus == selected
  {
    if selected == "" then None else Some(UpdateRequest(order.id, selected))
  }

  /** There is no transition table: the request does not depend on the order's current
      status, so a delivered order can be sent back to pending. */
  lemma NoTransitionCheck(id: string, current: string, other: string, selected: string)
    ensures UpdateFor(Order(id, current), selected) == UpdateFor(Order(id, other), selected)
    ensures UpdateFor(Order(id, "delivered"), "pending") == Some(UpdateRequest(id, "pending"))
  {
  }

  /** The dialog's form state, `formData.status`. */
  class OrderDetailsDialog {
    const order: Order
    var status: string

    /** The form holds nothing or one of the offered statuses. */
    predicate Valid()
      reads this
    {
      status == "" || status in StatusOptions()
    }

    constructor (order: Order)
      ensures Valid() && this.order == order && status == ""
    {
      this.order := order;
      status := "";
    }

    /** The select writes its choice, one of the offered options, into the form. */
    method Select(s: string)
      requires s in StatusOptions()
      modifies this
      ensures Valid() && status == s
    {
      status := s;
    }

    /** Only an offered status is ever sent, so never "confirmed". */
    method HandleUpdateStatus() returns (sent: Option<UpdateRequest>)
      requires Valid()
      ensures sent == UpdateFor(order, status)
      ensures sent.Some? ==> sent.value.orderStatus in StatusOptions() && sent.value.orderStatus != "confirmed"
    {
      if status == "" {
        sent := None;
      } else {
        sent := Some(UpdateRequest(order.id, status));
      }
    }

    /** The server answered: on success the form returns to its empty status. */
    method UpdateSettled(success: bool)
      requires Valid()
      modifies this
      ensures Valid()
      ensures status == (if success then "" else old(status))
    {
      if success {
        status := "";
      }
    }
  }
}
