/** The order service: builds an order's lines from a request, totals them,
    stores the order and projects it into a response. */
module Service {
  import opened JavaLang
  import opened Dto
  import opened Entity
  import opened Persistence

  // ---------------------------------------------------------------------
  // Copying request lines into order lines (the stream map in create and
  // update) and back into response lines (toResponse).
  // ---------------------------------------------------------------------

  /** The order line the mapping lambda builds from a request line. */
  function ToItem(d: OrderItemDto): (it: OrderItem)
  {
    OrderItem(d.productId, d.quantity, d.unitPrice)
  }

  /** The response line toResponse builds from an order line. */
  function ToDto(it: OrderItem): (d: OrderItemDto)
  {
    OrderItemDto(it.productId, it.quantity, it.unitPrice)
  }

  /** Maps every request line to an order line, in order. A null element is
      dereferenced by the lambda and ends the stream with a
      NullPointerException. */
  function CopyItems(ds: seq<Nullable<OrderItemDto>>): (r: Result<seq<OrderItem>>)
    ensures r.Ok? <==> forall i :: 0 <= i < |ds| ==> ds[i].NonNull?
    ensures r.Err? ==> r.error == NullPointer
    ensures r.Ok? ==> |r.value| == |ds| && forall i :: 0 <= i < |ds| ==> r.value[i] == ToItem(ds[i].value)
  {
    if ds == [] then Ok([])
    else match ds[0]
      case Null => Err(NullPointer)
      case NonNull(d) =>
        match CopyItems(ds[1..])
        case Err(e) => Err(e)
        case Ok(rest) => Ok([ToItem(d)] + rest)
  }

  /** The order lines of a request: a null list fails on req.items().stream(),
      a null element in the mapping lambda; otherwise one line per element,
      in order. */
  function Lines(req: OrderRequest): (r: Result<seq<OrderItem>>)
    ensures r.Ok? <==> req.items.NonNull? && forall i :: 0 <= i < |req.items.value| ==> req.items.value[i].NonNull?
    ensures r.Err? ==> r.error == NullPointer
    ensures r.Ok? ==> |r.value| == |req.items.value|
    ensures r.Ok? ==> forall i :: 0 <= i < |r.value| ==> r.value[i] == ToItem(req.items.value[i].value)
  {
    if req.items.Null? then Err(NullPointer) else CopyItems(req.items.value)
  }

  /** The response lines of an order, one per order line, in order. */
  function ToDtos(items: seq<OrderItem>): (ds: seq<OrderItemDto>)
  {
    seq(|items|, i requires 0 <= i < |items| => ToDto(items[i]))
  }

  /** Copying a request's lines into an order and back out into a response
      gives the request's lines again, in the same order. */
  lemma ResponseLinesEchoRequest(ds: seq<Nullable<OrderItemDto>>)
    requires CopyItems(ds).Ok?
    ensures |ToDtos(CopyItems(ds).value)| == |ds|
    ensures forall i :: 0 <= i < |ds| ==> ToDtos(CopyItems(ds).value)[i] == ds[i].value
  {
  }

  // ---------------------------------------------------------------------
  // The total: map each line to unitPrice * quantity, reduce with add
  // starting from zero.
  // ---------------------------------------------------------------------

  /** A line whose amount can be computed: neither the price nor the boxed
      quantity is null. */
  predicate Priced(it: OrderItem)
  {
    it.unitPrice.NonNull? && it.quantity.NonNull?
  }

  predicate Payable(items: seq<OrderItem>)
  {
    forall i :: 0 <= i < |items| ==> Priced(items[i])
  }

  function LineAmount(it: OrderItem): (a: Money)
    requires Priced(it)
  {
    it.unitPrice.value * (it.quantity.value as real)
  }

  /** The reference total: the sum of unitPrice * quantity over the lines. */
  function Sum(items: seq<OrderItem>): (s: Money)
    requires Payable(items)
  {
    if items == [] then 0.0 else LineAmount(items[0]) + Sum(items[1..])
  }

  /** One step of the map stage: the line's amount, or the
      NullPointerException of multiplying a null price or unboxing a null
      quantity. */
  function Amount(it: OrderItem): (r: Result<Money>)
  {
    if it.unitPrice.Null? || it.quantity.Null? then Err(NullPointer)
    else Ok(it.unitPrice.value * (it.quantity.value as real))
  }

  /** reduce(acc, add) over the mapped lines, left to right. */
  function Reduce(acc: Money, items: seq<OrderItem>): (r: Result<Money>)
    ensures r.Ok? <==> Payable(items)
    ensures r.Err? ==> r.error == NullPointer
    ensures r.Ok? ==> r.value == acc + Sum(items)
    decreases |items|
  {
    if items == [] then Ok(acc)
    else match Amount(items[0])
      case Err(e) => Err(e)
      case Ok(a) => Reduce(acc + a, items[1..])
  }

  /** The order total computed by create and update: the sum of the lines'
      amounts, or a NullPointerException when some line lacks a price or a
      quantity. */
  function Total(items: seq<OrderItem>): (r: Result<Money>)
    ensures r == if Payable(items) then Ok(Sum(items)) else Err(NullPointer)
  {
    Reduce(0.0, items)
  }

  /** The total of no lines is zero. */
  lemma TotalOfNothing()
    ensures Total([]) == Ok(0.0)
  {
  }

  /** The total of two lists of lines laid end to end is the sum of their
      totals. */
  lemma {:induction false} SumAppend(a: seq<OrderItem>, b: seq<OrderItem>)
    requires Payable(a) && Payable(b)
    ensures Payable(a + b)
    ensures Sum(a + b) == Sum(a) + Sum(b)
  {
    if a == [] {
      assert a + b == b;
    } else {
      assert (a + b)[1..] == a[1..] + b;
      SumAppend(a[1..], b);
    }
  }

  /** With no negative price the total is not negative. Nothing checks the
      sign of a price, so this is as far as the service goes. */
  lemma {:induction false} SumNonNegative(items: seq<OrderItem>)
    requires Payable(items)
    requires forall i :: 0 <= i < |items| ==> items[i].unitPrice.value >= 0.0 && items[i].quantity.value >= 0
    ensures Sum(items) >= 0.0
  {
    if items != [] {
      SumNonNegative(items[1..]);
      var it := items[0];
      assert it.unitPrice.value * (it.quantity.value as real) >= 0.0;
    }
  }

  /** Two lines, 2 at 10.50 and 1 at 5.00, total 26.00. */
  lemma TotalExample()
    ensures Total([OrderItem(NonNull("a"), NonNull(2), NonNull(10.50)),
                   OrderItem(NonNull("b"), NonNull(1), NonNull(5.00))]) == Ok(26.00)
  {
  }

  // ---------------------------------------------------------------------
  // The projection into a response.
  // ---------------------------------------------------------------------

  /** toResponse: every scalar field copied as it is; the lines mapped one
      to one, in order. */
  function ToResponse(row: OrderRow): (r: OrderResponse)
    ensures r.id == row.id && r.customerId == row.customerId
    ensures r.totalAmount == row.totalAmount && r.status == row.status
    ensures r.createdAt == row.createdAt && r.updatedAt == row.updatedAt
    ensures |r.items| == |row.items|
    ensures forall i :: 0 <= i < |row.items| ==> r.items[i] == ToDto(row.items[i])
  {
    OrderResponse(row.id, row.customerId, ToDtos(row.items), row.totalAmount,
                  row.status, row.createdAt, row.updatedAt)
  }

  // ---------------------------------------------------------------------
  // Which requests create and update accept.
  // ---------------------------------------------------------------------

  /** A request create and update carry through: the lines can be copied
      and totalled, and customerId fills its NOT NULL column. */
  predicate Accepted(req: OrderRequest)
  {
    Lines(req).Ok? && Payable(Lines(req).value) && req.customerId.NonNull?
  }

  /** The exception a request that is not accepted ends with: a
      NullPointerException from the streams, else the store's refusal of a
      null customerId. */
  function Rejection(req: OrderRequest): (e: Failure)
  {
    if Lines(req).Err? || !Payable(Lines(req).value) then NullPointer else NotNullViolation
  }

  /** Every stored order's total is the sum over its lines. */
  ghost predicate TotalsConsistent(rows: map<nat, OrderRow>)
  {
    forall k :: k in rows ==>
      Payable(rows[k].items) && rows[k].totalAmount == NonNull(Sum(rows[k].items))
  }

  class OrderService {
    const repo: OrderRepository

    ghost predicate Valid()
      reads this, repo
    {
      repo.Valid() && TotalsConsistent(repo.rows)
    }

    constructor (repo: OrderRepository)
      requires repo.Valid() && TotalsConsistent(repo.rows)
      ensures this.repo == repo && Valid()
    {
      this.repo := repo;
    }

    /** create: a new order under a fresh id, status "NEW", the request's
        customer and lines, the total of those lines, and equal creation and
        update times. A rejected request stores nothing. */
    method Create(req: OrderRequest) returns (r: Result<OrderResponse>)
      requires Valid()
      modifies repo
      ensures Valid()
      ensures !Accepted(req) ==> r == Err(Rejection(req)) && unchanged(repo)
      ensures Accepted(req) ==>
        var id := old(repo.nextId);
        && id !in old(repo.rows)
        && repo.rows.Keys == old(repo.rows).Keys + {id}
        && (forall k :: k in old(repo.rows) ==> repo.rows[k] == old(repo.rows)[k])
        && repo.rows[id].id == NonNull(id)
        && repo.rows[id].customerId == req.customerId
        && repo.rows[id].status == NonNull("NEW")
        && repo.rows[id].items == Lines(req).value
        && repo.rows[id].totalAmount == NonNull(Sum(Lines(req).value))
        && repo.rows[id].createdAt == repo.rows[id].updatedAt == NonNull(old(repo.clock))
        && r == Ok(ToResponse(repo.rows[id]))
    {
      var o := new Order();
      o.SetCustomerId(req.customerId);
      o.SetStatus(NonNull("NEW"));
      var lines := Lines(req);
      if lines.Err? {
        return Err(NullPointer);
      }
      o.SetItems(lines.value);
      var total := Total(o.items);
      if total.Err? {
        return Err(NullPointer);
      }
      o.SetTotalAmount(NonNull(total.value));
      var saved := repo.Save(o);
      if saved.Fail? {
        return Err(saved.error);
      }
      r := Ok(ToResponse(o.Snapshot()));
    }

    /** get: the stored order under id, or EntityNotFound. */
    method Get(id: nat) returns (r: Result<OrderResponse>)
      requires Valid()
      ensures id in repo.rows ==> r == Ok(ToResponse(repo.rows[id]))
      ensures id !in repo.rows ==> r == Err(EntityNotFound)
    {
      var o := repo.FindById(id);
      if o == null {
        return Err(EntityNotFound);
      }
      r := Ok(ToResponse(o.Snapshot()));
    }

    /** update: the old lines are discarded; customer and lines are replaced
        by the request's and the total recomputed from the new lines alone;
        id, status and creation time stay; the update time moves forward.
        A missing id or a rejected request stores nothing. */
    method Update(id: nat, req: OrderRequest) returns (r: Result<OrderResponse>)
      requires Valid()
      modifies repo
      ensures Valid()
      ensures id !in old(repo.rows) ==> r == Err(EntityNotFound) && unchanged(repo)
      ensures id in old(repo.rows) && !Accepted(req) ==> r == Err(Rejection(req)) && unchanged(repo)
      ensures id in old(repo.rows) && Accepted(req) ==>
        && repo.rows.Keys == old(repo.rows).Keys
        && (forall k :: k in old(repo.rows) && k != id ==> repo.rows[k] == old(repo.rows)[k])
        && repo.nextId == old(repo.nextId)
        && var before, after := old(repo.rows)[id], repo.rows[id];
        && after.id == before.id && after.status == before.status
        && after.createdAt == before.createdAt
        && after.customerId == req.customerId
        && after.items == Lines(req).value
        && after.totalAmount == NonNull(Sum(Lines(req).value))
        && after.updatedAt == NonNull(old(repo.clock))
        && after.updatedAt.value > before.updatedAt.value
        && r == Ok(ToResponse(after))
    {
      var o := repo.FindById(id);
      if o == null {
        return Err(EntityNotFound);
      }
      o.ClearItems();
      o.SetCustomerId(req.customerId);
      var lines := Lines(req);
      if lines.Err? {
        return Err(NullPointer);
      }
      o.SetItems(lines.value);
      var total := Total(o.items);
      if total.Err? {
        return Err(NullPointer);
      }
      o.SetTotalAmount(NonNull(total.value));
      var saved := repo.Save(o);
      if saved.Fail? {
        return Err(saved.error);
      }
      r := Ok(ToResponse(o.Snapshot()));
    }

    /** delete: nothing remains under id and every other order is as it
        was; no check that id existed. */
    method Delete(id: nat)
      requires Valid()
      modifies repo
      ensures Valid()
      ensures repo.rows == old(repo.rows) - {id}
      ensures repo.nextId == old(repo.nextId) && repo.clock == old(repo.clock)
    {
      repo.DeleteById(id);
    }
  }

  // ---------------------------------------------------------------------
  // What a client of the service can rely on across calls.
  // ---------------------------------------------------------------------

  /** A created order reads back exactly as create returned it, and its
      lines are the request's lines. */
  method CreateThenGet(s: OrderService, req: OrderRequest)
    returns (created: Result<OrderResponse>, fetched: Result<OrderResponse>)
    requires s.Valid()
    modifies s.repo
    ensures s.Valid()
    ensures created.Ok? <==> Accepted(req)
    ensures created.Ok? ==> fetched == created
    ensures created.Ok? ==>
      && created.value.status == NonNull("NEW")
      && created.value.createdAt == created.value.updatedAt
      && |created.value.items| == |req.items.value|
      && forall i :: 0 <= i < |req.items.value| ==> created.value.items[i] == req.items.value[i].value
  {
    created := s.Create(req);
    if created.Ok? {
      ResponseLinesEchoRequest(req.items.value);
      fetched := s.Get(created.value.id.value);
    } else {
      fetched := created;
    }
  }

  /** After an update, reading the order gives exactly the new request's
      lines, however many lines it had before. */
  method UpdateThenGet(s: OrderService, id: nat, req: OrderRequest)
    returns (updated: Result<OrderResponse>, fetched: Result<OrderResponse>)
    requires s.Valid()
    modifies s.repo
    ensures s.Valid()
    ensures updated.Ok? <==> id in old(s.repo.rows) && Accepted(req)
    ensures updated.Ok? ==> fetched == updated
    ensures updated.Ok? ==>
      && |fetched.value.items| == |req.items.value|
      && forall i :: 0 <= i < |req.items.value| ==> fetched.value.items[i] == req.items.value[i].value
  {
    updated := s.Update(id, req);
    if updated.Ok? {
      ResponseLinesEchoRequest(req.items.value);
      fetched := s.Get(id);
    } else {
      fetched := updated;
    }
  }

  /** A deleted order can no longer be read. */
  method DeleteThenGet(s: OrderService, id: nat) returns (fetched: Result<OrderResponse>)
    requires s.Valid()
    modifies s.repo
    ensures s.Valid()
    ensures fetched == Err(EntityNotFound)
  {
    s.Delete(id);
    fetched := s.Get(id);
  }

  // ---------------------------------------------------------------------
  // Request validation against what the service accepts.
  // ---------------------------------------------------------------------

  /** Request validation as written lets through a request whose line has
      no price: create then fails with a NullPointerException instead of a
      validation error. */
  lemma ValidRequestWithoutPriceFails()
    ensures var req := OrderRequest(NonNull("c1"),
                                    NonNull([NonNull(OrderItemDto(NonNull("p1"), NonNull(1), Null))]));
            RequestValid(req) && !Accepted(req) && Rejection(req) == NullPointer
  {
    var d := OrderItemDto(NonNull("p1"), NonNull(1), Null);
    assert Trim("c1") == "c1";
  }

  /** Request validation as written lets through a line of quantity 0 and
      blank product, and create stores it. */
  lemma ValidRequestWithZeroQuantityStored()
    ensures var d := OrderItemDto(NonNull(" "), NonNull(0), NonNull(1.00));
            var req := OrderRequest(NonNull("c1"), NonNull([NonNull(d)]));
            RequestValid(req) && !ItemValid(d) && Accepted(req)
            && Lines(req).value[0].quantity == NonNull(0)
  {
    var d := OrderItemDto(NonNull(" "), NonNull(0), NonNull(1.00));
    assert Trim("c1") == "c1";
    assert StripLeading(" ") == [];
  }

  /** With the item constraints applied to every line, every admitted
      request is carried through by create and update, and every stored
      line has a non-blank product and a quantity of at least 1. */
  lemma CascadedValidationAdmitsOnlyAccepted(req: OrderRequest)
    requires RequestValidCascaded(req)
    ensures Accepted(req)
    ensures forall i :: 0 <= i < |Lines(req).value| ==>
      NotBlank(Lines(req).value[i].productId) && Lines(req).value[i].quantity.value >= 1
  {
  }
}
