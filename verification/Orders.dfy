/** Orders and their status machine (`order.hpp`).

    The broker stores orders by value in two vectors and copies them from one to
    the other, so an order is a value here and a transition returns the new value. */
module Orders {
  import opened Numbers

  datatype OrderType = Market | Limit | Stop | StopLimit | StopTrail | StopTrailLimit

  datatype OrderStatus =
    | Created | Submitted | Accepted | Partial
    | Completed | Canceled | Rejected | Expired | Margin

  datatype Side = Buy | Sell

  /** What is fixed when the order is submitted. */
  datatype Terms = Terms(
    typ: OrderType,
    side: Side,
    size: real,
    price: real,
    stopPrice: Option<real>,
    dataIndex: nat,
    candidateId: nat,
    validUntilBar: Option<nat>,
    trailAmount: real,
    trailPercent: real,
    ocoGroupId: nat,
    parentId: nat)

  /** What an execution writes. */
  datatype Execution = Execution(price: real, size: real, commission: real)

  const NOT_EXECUTED := Execution(0.0, 0.0, 0.0)

  datatype Order = Order(
    id: nat,
    terms: Terms,
    childIds: seq<nat>,
    status: OrderStatus,
    execution: Execution,
    trailStopPrice: real,
    transmit: bool)
  {
    predicate Alive() {
      status in {Created, Submitted, Accepted, Partial}
    }

    function Submit(): Order {
      if Alive() then this.(status := Submitted) else this
    }

    function Accept(): Order {
      if Alive() then this.(status := Accepted) else this
    }

    function Execute(fillPrice: real, fillSize: real, comm: real): Order {
      if Alive() then this.(execution := Execution(fillPrice, fillSize, comm), status := Completed) else this
    }

    function Cancel(): Order {
      if Alive() then this.(status := Canceled) else this
    }

    function Reject(): Order {
      if Alive() then this.(status := Rejected) else this
    }

    function Expire(): Order {
      if Alive() then this.(status := Expired) else this
    }

    function MarginCall(): Order {
      if Alive() then this.(status := Margin) else this
    }

    /** The size with the sign the position sees. */
    function SignedSize(): real {
      if terms.side == Sell then -terms.size else terms.size
    }

    predicate IsTrail() {
      terms.typ in {StopTrail, StopTrailLimit}
    }
  }

  /** Every transition leaves a terminal order alone, and sets the status of an alive one to one
      that tells it; only an execution writes more. */
  lemma Transitions(o: Order, price: real, size: real, comm: real)
    ensures !o.Alive() <==> o.status.Completed? || o.status.Canceled? || o.status.Rejected? || o.status.Expired? || o.status.Margin?
    ensures if !o.Alive() then
              o == o.Submit() == o.Accept() == o.Cancel() == o.Reject() == o.Expire() == o.MarginCall() == o.Execute(price, size, comm)
            else
              && o.Submit() == o.(status := Submitted) && o.Accept() == o.(status := Accepted)
              && o.Cancel() == o.(status := Canceled) && o.Reject() == o.(status := Rejected)
              && o.Expire() == o.(status := Expired) && o.MarginCall() == o.(status := Margin)
              && o.Execute(price, size, comm) == o.(status := Completed, execution := Execution(price, size, comm))
  {
  }

  /** Two copies of an order that agree on every field except `transmit`. */
  predicate Agree(a: Order, b: Order) {
    a.(transmit := b.transmit) == b
  }

  /** What one step of the broker may do to an order: a terminal order is frozen, the
      terms never change, and only the execution of an order writes its execution fields. */
  predicate Evolves(a: Order, b: Order) {
    && a.id == b.id && a.terms == b.terms && a.childIds == b.childIds
    && (!a.Alive() ==> b == a)
    && (b.status != Completed ==> b.execution == a.execution)
  }
}
