/**
 * The details screen's aggregates over the event it shows (`None` while no
 * event is loaded): ticket and lead counts, total capacity, total sales and
 * the formatted venue address.
 */
module EventDetails {
  import opened Wrappers
  import opened EventModel

  function TicketCount(event: Option<Event>): (n: nat)
    ensures event.None? ==> n == 0
    ensures event.Some? ==> n == |event.value.tickets|
  {
    match event
    case None => 0
    case Some(e) => |e.tickets|
  }

  function LeadCount(event: Option<Event>): (n: nat)
    ensures event.None? ==> n == 0
    ensures event.Some? ==> n == |event.value.leads|
  {
    match event
    case None => 0
    case Some(e) => |e.leads|
  }

  // ---------------------------------------------------------------------------
  // Capacity: `tickets.reduce((total, t) => total + t.capacity, 0)`

  /** The left fold `reduce` performs, from accumulator `acc`. */
  function CapacityFold(acc: int, tickets: seq<Ticket>): (r: int)
    decreases |tickets|
  {
    if tickets == [] then acc else CapacityFold(acc + tickets[0].capacity, tickets[1..])
  }

  /** The sum of the capacities. */
  function SumCapacity(tickets: seq<Ticket>): (r: int) {
    if tickets == [] then 0 else tickets[0].capacity + SumCapacity(tickets[1..])
  }

  lemma {:induction false} CapacityFoldIsSum(acc: int, tickets: seq<Ticket>)
    ensures CapacityFold(acc, tickets) == acc + SumCapacity(tickets)
    decreases |tickets|
  {
    if tickets != [] {
      CapacityFoldIsSum(acc + tickets[0].capacity, tickets[1..]);
    }
  }

  lemma {:induction false} SumCapacityAppend(a: seq<Ticket>, b: seq<Ticket>)
    ensures SumCapacity(a + b) == SumCapacity(a) + SumCapacity(b)
  {
    if a == [] {
      assert a + b == b;
    } else {
      SumCapacityAppend(a[1..], b);
      assert (a + b)[1..] == a[1..] + b;
    }
  }

  lemma {:induction false} SumCapacityNonNegative(tickets: seq<Ticket>)
    requires forall t :: t in tickets ==> t.capacity >= 0
    ensures SumCapacity(tickets) >= 0
  {
    if tickets != [] {
      SumCapacityNonNegative(tickets[1..]);
    }
  }

  /** The sum of the ticket capacities; 0 without an event. */
  function TotalTicketCapacity(event: Option<Event>): (r: int)
    ensures event.None? ==> r == 0
    ensures event.Some? ==> r == SumCapacity(event.value.tickets)
  {
    match event
    case None => 0
    case Some(e) =>
      CapacityFoldIsSum(0, e.tickets);
      CapacityFold(0, e.tickets)
  }

  // ---------------------------------------------------------------------------
  // Sales: a fold over tickets of a fold over each ticket's purchases

  function QuantityFold(acc: int, purchases: seq<TicketPurchase>): (r: int)
    decreases |purchases|
  {
    if purchases == [] then acc else QuantityFold(acc + purchases[0].quantity, purchases[1..])
  }

  function SumQuantity(purchases: seq<TicketPurchase>): (r: int) {
    if purchases == [] then 0 else purchases[0].quantity + SumQuantity(purchases[1..])
  }

  lemma {:induction false} QuantityFoldIsSum(acc: int, purchases: seq<TicketPurchase>)
    ensures QuantityFold(acc, purchases) == acc + SumQuantity(purchases)
    decreases |purchases|
  {
    if purchases != [] {
      QuantityFoldIsSum(acc + purchases[0].quantity, purchases[1..]);
    }
  }

  lemma {:induction false} SumQuantityAppend(a: seq<TicketPurchase>, b: seq<TicketPurchase>)
    ensures SumQuantity(a + b) == SumQuantity(a) + SumQuantity(b)
  {
    if a == [] {
      assert a + b == b;
    } else {
      SumQuantityAppend(a[1..], b);
      assert (a + b)[1..] == a[1..] + b;
    }
  }

  function SalesFold(acc: int, tickets: seq<Ticket>): (r: int)
    decreases |tickets|
  {
    if tickets == [] then acc
    else SalesFold(acc + QuantityFold(0, tickets[0].ticketPurchases), tickets[1..])
  }

  /** Every purchase of every ticket, ticket by ticket. */
  function AllPurchases(tickets: seq<Ticket>): (r: seq<TicketPurchase>) {
    if tickets == [] then [] else tickets[0].ticketPurchases + AllPurchases(tickets[1..])
  }

  lemma {:induction false} SalesFoldIsSum(acc: int, tickets: seq<Ticket>)
    ensures SalesFold(acc, tickets) == acc + SumQuantity(AllPurchases(tickets))
    decreases |tickets|
  {
    if tickets != [] {
      var first := tickets[0].ticketPurchases;
      QuantityFoldIsSum(0, first);
      SalesFoldIsSum(acc + QuantityFold(0, first), tickets[1..]);
      SumQuantityAppend(first, AllPurchases(tickets[1..]));
    }
  }

  /** The quantities of all purchases across all tickets, added up; 0 without an event. */
  function TotalTicketSales(event: Option<Event>): (r: int)
    ensures event.None? ==> r == 0
    ensures event.Some? ==> r == SumQuantity(AllPurchases(event.value.tickets))
  {
    match event
    case None => 0
    case Some(e) =>
      SalesFoldIsSum(0, e.tickets);
      SalesFold(0, e.tickets)
  }

  lemma {:induction false} SumQuantityNonNegative(purchases: seq<TicketPurchase>)
    requires forall p :: p in purchases ==> p.quantity >= 0
    ensures SumQuantity(purchases) >= 0
  {
    if purchases != [] {
      SumQuantityNonNegative(purchases[1..]);
    }
  }

  /** A ticket of the given capacity with one purchase per listed quantity. */
  function SampleTicket(capacity: int, quantities: seq<int>): (r: Ticket) {
    Ticket("t", "", "", "General", 0.0, "USD", capacity, [],
      seq(|quantities|, i requires 0 <= i < |quantities| =>
        TicketPurchase("p", Purchaser("u", "A"), quantities[i], 0, 0.0)), 0)
  }

  /** Capacities 100 and 50 with purchases of 3 and 2 places: capacity 150, sales 5. */
  lemma WorkedExample(e: Event)
    requires e.tickets == [SampleTicket(100, [3, 2]), SampleTicket(50, [])]
    ensures TotalTicketCapacity(Some(e)) == 150
    ensures TotalTicketSales(Some(e)) == 5
  {
    var t := e.tickets;
    assert SumCapacity(t[1..]) == 50;
    var ps := AllPurchases(t);
    assert AllPurchases(t[1..][1..]) == [];
    assert AllPurchases(t[1..]) == [];
    assert ps == t[0].ticketPurchases;
    assert ps[1..][1..] == [];
    assert SumQuantity(ps[1..]) == 2;
  }

  // ---------------------------------------------------------------------------
  // Venue address

  /** `address1, city, state postalZip, country`; the empty string without an event. */
  function VenueFullAddress(event: Option<Event>): (r: string)
    ensures event.None? ==> r == ""
    ensures event.Some? ==>
              var v := event.value.venue;
              r == v.address1 + ", " + v.city + ", " + v.state + " " + v.postalZip + ", " + v.country
  {
    match event
    case None => ""
    case Some(e) =>
      var v := e.venue;
      v.address1 + ", " + v.city + ", " + v.state + " " + v.postalZip + ", " + v.country
  }
}
