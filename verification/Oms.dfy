/** The order management system of oms/oms.py: a dictionary of order objects whose status moves
    once, from NEW to one of three final states. */
module Oms {
  import opened Values

  datatype Status = New | Filled | Canceled | Rejected

  /** What an order holds besides its identifier. */
  datatype Ticket = Ticket(symbol: string, qty: real, status: Status, rejectReason: Option<string>)

  type Book = map<string, Ticket>

  datatype Error = UnknownOrder | InvalidTransition(was: Status, target: Status)

  function Submitted(book: Book, id: string, symbol: string, qty: real): Book {
    if id in book then book else book[id := Ticket(symbol, qty, New, None)]
  }

  function Moved(book: Book, id: string, target: Status): Book
    requires id in book
  {
    book[id := book[id].(status := target)]
  }

  class Order {
    const clientOrderId: string
    const symbol: string
    const qty: real
    var status: Status
    var rejectReason: Option<string>

    constructor (clientOrderId: string, symbol: string, qty: real)
      ensures this.clientOrderId == clientOrderId && View() == Ticket(symbol, qty, New, None)
    {
      this.clientOrderId, this.symbol, this.qty := clientOrderId, symbol, qty;
      status, rejectReason := New, None;
    }

    function View(): Ticket
      reads this
    {
      Ticket(symbol, qty, status, rejectReason)
    }
  }

  class OMS {
    var orders: map<string, Order>

    /** Orders are filed under their own identifier, so no object is filed twice. */
    ghost predicate Valid()
      reads this, orders.Values
    {
      forall id :: id in orders ==> orders[id].clientOrderId == id
    }

    ghost function Contents(): (book: Book)
      reads this, orders.Values
      ensures book.Keys == orders.Keys
    {
      map id | id in orders :: orders[id].View()
    }

    constructor ()
      ensures Valid() && Contents() == map[] && orders == map[]
    {
      orders := map[];
    }

    /** A known identifier returns the order on file, whatever symbol and quantity come with it. */
    method Submit(id: string, symbol: string, qty: real) returns (order: Order)
      requires Valid()
      modifies this
      ensures Valid() && fresh(orders.Values - old(orders.Values))
      ensures Contents() == Submitted(old(Contents()), id, symbol, qty)
      ensures id in orders && order == orders[id] && id in Contents() && order.status == Contents()[id].status
    {
      if id in orders {
        return orders[id];
      }
      order := new Order(id, symbol, qty);
      orders := orders[id := order];
    }

    method Fill(id: string) returns (r: Result<Order, Error>)
      requires Valid()
      modifies orders.Values
      ensures Transitioned(old(Contents()), id, Filled, r)
      ensures Valid() && orders == old(orders)
      ensures Contents() == if r.Ok? then Moved(old(Contents()), id, Filled) else old(Contents())
    {
      r := Transition(id, Filled);
    }

    method Cancel(id: string) returns (r: Result<Order, Error>)
      requires Valid()
      modifies orders.Values
      ensures Transitioned(old(Contents()), id, Canceled, r)
      ensures Valid() && orders == old(orders)
      ensures Contents() == if r.Ok? then Moved(old(Contents()), id, Canceled) else old(Contents())
    {
      r := Transition(id, Canceled);
    }

    method Reject(id: string, reason: string) returns (r: Result<Order, Error>)
      requires Valid()
      modifies orders.Values
      ensures Transitioned(old(Contents()), id, Rejected, r)
      ensures Valid() && orders == old(orders)
      ensures
        Contents() ==
          if r.Err? then old(Contents())
          else var book := Moved(old(Contents()), id, Rejected); book[id := book[id].(rejectReason := Some(reason))]
    {
      r := Transition(id, Rejected);
      if r.Ok? {
        r.value.rejectReason := Some(reason);
      }
    }

    /** When a transition succeeds, and the error otherwise. */
    ghost static predicate Transitioned<T>(book: Book, id: string, target: Status, r: Result<T, Error>) {
      && (r.Ok? <==> id in book && book[id].status == New)
      && (r.Err? ==> r.error == if id in book then InvalidTransition(book[id].status, target) else UnknownOrder)
    }

    method Transition(id: string, target: Status) returns (r: Result<Order, Error>)
      requires Valid()
      modifies orders.Values
      ensures Transitioned(old(Contents()), id, target, r)
      ensures r.Ok? ==> r.value == orders[id]
      ensures Valid() && orders == old(orders)
      ensures Contents() == if r.Ok? then Moved(old(Contents()), id, target) else old(Contents())
    {
      if id !in orders {
        return Err(UnknownOrder);
      }
      var order := orders[id];
      if order.status != New {
        return Err(InvalidTransition(order.status, target));
      }
      order.status := target;
      r := Ok(order);
    }
  }

  // ---------- the state machine over runs ----------

  datatype Op = Submit(id: string, symbol: string, qty: real) | Move(id: string, target: Status)

  /** One call: a submission, or a fill, cancellation or rejection. */
  function Step(book: Book, op: Op): Book {
    match op
    case Submit(id, symbol, qty) => Submitted(book, id, symbol, qty)
    case Move(id, target) => if id in book && book[id].status == New then Moved(book, id, target) else book
  }

  function Run(book: Book, ops: seq<Op>): Book {
    if |ops| == 0 then book else Step(Run(book, ops[..|ops| - 1]), ops[|ops| - 1])
  }

  /** Over every run of calls an order once submitted keeps its symbol and quantity, and a final
      status is kept for good: submitting again or moving again changes nothing. */
  lemma {:induction false} OrdersAreFinal(book: Book, ops: seq<Op>, id: string)
    requires id in book
    ensures id in Run(book, ops)
    ensures var was, now := book[id], Run(book, ops)[id];
      && now.symbol == was.symbol && now.qty == was.qty
      && (was.status != New ==> now == was)
  {
    if |ops| > 0 {
      OrdersAreFinal(book, ops[..|ops| - 1], id);
    }
  }
}
