/**
 * The request lifecycle of the procurement service: the statuses a request
 * moves through, the table of legal transitions, and the outcome each
 * operation of the request service decides on (success with a new status,
 * or NotFound / Conflict / InvalidInput), stated over plain values.
 *
 * `Step` applies one operation to a store of requests; `Run` applies a
 * sequence of them. The lemmas at the end show what every run keeps:
 * the single-supplier invariant, records that change only in their status,
 * and statuses that only move forward.
 */
module Lifecycle {

  type RequestId = nat
  type LogistId = string
  type SupplierId = string
  type ProductId = string

  datatype Option<T> = None | Some(value: T)

  /** The error taxonomy of the service: 404, 409 and 400 equivalents. */
  datatype Error = NotFound | Conflict | InvalidInput(message: string)

  datatype Result<T> = Ok(value: T) | Err(error: Error) {
    predicate IsFailure() { Err? }

    function PropagateFailure<U>(): Result<U>
      requires Err?
    {
      Err(error)
    }

    function Extract(): T
      requires Ok?
    {
      value
    }
  }

  /** The message `create` fails with when the products have several suppliers. */
  const MixedSuppliers: string := "All products must have the same supplier"

  datatype Status = InProcess | Confirmed | WaitingForPayment | Completed | Rejected

  datatype ProductLine = ProductLine(productId: ProductId, quantity: int)

  datatype Product = Product(id: ProductId, supplierId: SupplierId)

  datatype Request = Request(
    id: RequestId,
    status: Status,
    supplierId: SupplierId,
    logistId: LogistId,
    lines: seq<ProductLine>)

  /**
   * The lookup tables the service consults but never changes: the product
   * repository (each product with its owning supplier) and the logist and
   * supplier services (which only answer "exists" or NotFound here).
   */
  datatype Catalog = Catalog(
    products: map<ProductId, Product>,
    logists: set<LogistId>,
    suppliers: set<SupplierId>)

  // ---------------------------------------------------------------------
  // Statuses and transitions
  // ---------------------------------------------------------------------

  /** The canonical forward order an administrator may step a request along. */
  const ForwardOrder: seq<Status> := [InProcess, Confirmed, WaitingForPayment, Completed]

  /** The status right after `s` in the forward order, if any. */
  function NextStatus(s: Status): (r: Option<Status>)
    ensures r.Some? <==> exists i :: 0 <= i < |ForwardOrder| - 1 && ForwardOrder[i] == s
    ensures forall i :: 0 <= i < |ForwardOrder| - 1 && ForwardOrder[i] == s ==> r == Some(ForwardOrder[i + 1])
  {
    match s
    case InProcess => assert ForwardOrder[0] == s; Some(Confirmed)
    case Confirmed => assert ForwardOrder[1] == s; Some(WaitingForPayment)
    case WaitingForPayment => assert ForwardOrder[2] == s; Some(Completed)
    case _ => None
  }

  /** Who moves a request, and how. */
  datatype Action = SupplierConfirm | SupplierReject | AdminChange | LogistConfirm

  /** Every legal (current status, action, next status) triple; nothing else is allowed. */
  const Transitions: set<(Status, Action, Status)> := {
    (InProcess, SupplierConfirm, Confirmed),
    (InProcess, SupplierReject, Rejected),
    (InProcess, AdminChange, Confirmed),
    (Confirmed, AdminChange, WaitingForPayment),
    (WaitingForPayment, AdminChange, Completed),
    (WaitingForPayment, LogistConfirm, Completed)
  }

  predicate Terminal(s: Status) {
    s == Completed || s == Rejected
  }

  /** How far along its lifecycle a request in status `s` is. */
  function Progress(s: Status): nat {
    match s
    case InProcess => 0
    case Confirmed => 1
    case WaitingForPayment => 2
    case Completed => 3
    case Rejected => 3
  }

  /** A supplier's reply, read as an action. */
  function ReplyAction(confirm: bool): Action {
    if confirm then SupplierConfirm else SupplierReject
  }

  /** Every transition moves strictly forward, and none leaves a terminal status. */
  lemma TransitionsMakeProgress(from: Status, act: Action, to: Status)
    requires (from, act, to) in Transitions
    ensures Progress(from) < Progress(to)
    ensures !Terminal(from)
  {
  }

  /** The administrative entries of the table are exactly the forward-order successors. */
  lemma AdminChangeIsNextStatus(from: Status, to: Status)
    ensures (from, AdminChange, to) in Transitions <==> NextStatus(from) == Some(to)
  {
  }

  // ---------------------------------------------------------------------
  // Creation: resolving products and their shared supplier
  // ---------------------------------------------------------------------

  /** Looks every line's product up; any product that does not exist is NotFound. */
  function ResolveProducts(products: map<ProductId, Product>, lines: seq<ProductLine>): (r: Result<seq<Product>>)
    ensures r.Ok? <==> forall i :: 0 <= i < |lines| ==> lines[i].productId in products
    ensures r.Ok? ==> |r.value| == |lines|
    ensures r.Ok? ==> forall i :: 0 <= i < |lines| ==> r.value[i] == products[lines[i].productId]
    ensures r.Err? ==> r.error == NotFound
  {
    if |lines| == 0 then Ok([])
    else if lines[0].productId !in products then Err(NotFound)
    else match ResolveProducts(products, lines[1..])
      case Err(e) => Err(e)
      case Ok(rest) => Ok([products[lines[0].productId]] + rest)
  }

  /** The one supplier all of `ps` belong to; None when `ps` is empty or mixed. */
  function SharedSupplier(ps: seq<Product>): (r: Option<SupplierId>)
    ensures r.Some? ==> |ps| > 0 && forall i :: 0 <= i < |ps| ==> ps[i].supplierId == r.value
    ensures r.None? ==> |ps| == 0 || exists i :: 0 < i < |ps| && ps[i].supplierId != ps[0].supplierId
  {
    if |ps| == 0 then None
    else if |ps| == 1 then Some(ps[0].supplierId)
    else match SharedSupplier(ps[1..])
      case None =>
        assert exists i :: 0 < i < |ps| && ps[i].supplierId != ps[0].supplierId by {
          var j :| 0 < j < |ps[1..]| && ps[1..][j].supplierId != ps[1..][0].supplierId;
          if ps[1].supplierId == ps[0].supplierId {
            assert ps[j + 1].supplierId != ps[0].supplierId;
          }
        }
        None
      case Some(s) => if s == ps[0].supplierId then Some(s) else None
  }

  /** Every line names an existing product of supplier `s`, and there is at least one line. */
  ghost predicate OwnedBy(products: map<ProductId, Product>, lines: seq<ProductLine>, s: SupplierId) {
    && |lines| > 0
    && forall i :: 0 <= i < |lines| ==>
         lines[i].productId in products && products[lines[i].productId].supplierId == s
  }

  /** Two lines name existing products of different suppliers. */
  ghost predicate MixesSuppliers(products: map<ProductId, Product>, lines: seq<ProductLine>) {
    exists i, j :: 0 <= i < |lines| && 0 <= j < |lines| &&
      lines[i].productId in products && lines[j].productId in products &&
      products[lines[i].productId].supplierId != products[lines[j].productId].supplierId
  }

  /**
   * What `create(logistId, productInfo)` decides: the supplier of the new
   * request, or why it cannot be created. Checks run in the order logist,
   * products, shared supplier, supplier record.
   */
  function DecideCreate(cat: Catalog, logistId: LogistId, lines: seq<ProductLine>): (r: Result<SupplierId>)
    ensures logistId !in cat.logists ==> r == Err(NotFound)
    ensures r.Ok? ==> logistId in cat.logists && r.value in cat.suppliers && OwnedBy(cat.products, lines, r.value)
    ensures forall s :: logistId in cat.logists && OwnedBy(cat.products, lines, s) && s in cat.suppliers ==> r == Ok(s)
    ensures logistId in cat.logists && MixesSuppliers(cat.products, lines) ==> r.Err?
    ensures logistId in cat.logists && MixesSuppliers(cat.products, lines)
            && (forall i :: 0 <= i < |lines| ==> lines[i].productId in cat.products)
            ==> r == Err(InvalidInput(MixedSuppliers))
    ensures logistId in cat.logists && (exists i :: 0 <= i < |lines| && lines[i].productId !in cat.products)
            ==> r == Err(NotFound)
    ensures forall s ::
              logistId in cat.logists && OwnedBy(cat.products, lines, s) && s !in cat.suppliers ==> r == Err(NotFound)
    ensures logistId in cat.logists && |lines| == 0 ==> r == Err(InvalidInput(MixedSuppliers))
    ensures r.Err? ==> r.error == NotFound || r.error == InvalidInput(MixedSuppliers)
  {
    if logistId !in cat.logists then Err(NotFound)
    else match ResolveProducts(cat.products, lines)
      case Err(e) => Err(e)
      case Ok(ps) =>
        match SharedSupplier(ps)
        case None => Err(InvalidInput(MixedSuppliers))
        case Some(s) => if s in cat.suppliers then Ok(s) else Err(NotFound)
  }

  /** Some action of the transition table leads from `from` to `to`. */
  predicate CanMove(from: Status, to: Status) {
    || (from, SupplierConfirm, to) in Transitions
    || (from, SupplierReject, to) in Transitions
    || (from, AdminChange, to) in Transitions
    || (from, LogistConfirm, to) in Transitions
  }

  /** A chain of statuses in which each step is a row of the transition table. */
  ghost predicate IsPath(ss: seq<Status>) {
    forall i :: 0 <= i < |ss| - 1 ==> CanMove(ss[i], ss[i + 1])
  }

  /**
   * Along any chain of transitions the progress grows by at least one per
   * step, so no request passes through more than four statuses and none
   * ever returns to an earlier one.
   */
  lemma {:induction false} PathIsShort(ss: seq<Status>)
    requires IsPath(ss) && |ss| > 0
    ensures Progress(ss[0]) + |ss| - 1 <= Progress(ss[|ss| - 1])
    ensures |ss| <= 4
  {
    if |ss| > 1 {
      assert CanMove(ss[0], ss[1]);
      assert Progress(ss[0]) < Progress(ss[1]);
      assert IsPath(ss[1..]) by {
        forall i | 0 <= i < |ss[1..]| - 1
          ensures CanMove(ss[1..][i], ss[1..][i + 1])
        {
          assert ss[1..][i] == ss[i + 1] && ss[1..][i + 1] == ss[i + 2];
        }
      }
      PathIsShort(ss[1..]);
      assert ss[1..][|ss[1..]| - 1] == ss[|ss| - 1];
    }
  }

  // ---------------------------------------------------------------------
  // Operations on an existing request
  // ---------------------------------------------------------------------

  /**
   * What `supReplyToRequest(requestId, supplierId, {confirm})` decides: the
   * request must exist, belong to the acting supplier and still be in process.
   */
  function DecideReply(requests: map<RequestId, Request>, id: RequestId, supplierId: SupplierId, confirm: bool): (r: Result<Status>)
    ensures r == Err(NotFound) <==> id !in requests
    ensures r.Ok? <==> id in requests && requests[id].supplierId == supplierId
                       && exists to :: (requests[id].status, ReplyAction(confirm), to) in Transitions
    ensures r.Ok? ==> (requests[id].status, ReplyAction(confirm), r.value) in Transitions
    ensures id in requests && r.Err? ==> r.error == Conflict
  {
    if id !in requests then Err(NotFound)
    else if requests[id].supplierId != supplierId then Err(Conflict)
    else if requests[id].status != InProcess then Err(Conflict)
    else Ok(if confirm then Confirmed else Rejected)
  }

  /**
   * What `changeRequestStatus(requestId, {status})` decides: the target must
   * be the very next status of the forward order; anything else is a Conflict.
   */
  function DecideChange(requests: map<RequestId, Request>, id: RequestId, target: Status): (r: Result<Status>)
    ensures r == Err(NotFound) <==> id !in requests
    ensures r.Ok? <==> id in requests && (requests[id].status, AdminChange, target) in Transitions
    ensures r.Ok? ==> r.value == target
    ensures id in requests && r.Err? ==> r.error == Conflict
  {
    if id !in requests then Err(NotFound)
    else if NextStatus(requests[id].status) == Some(target) then Ok(target)
    else Err(Conflict)
  }

  /**
   * What `confirmRequest(logistId, requestId)` decides. The acting logist must
   * exist and must DIFFER from the logist recorded on the request; the
   * request must be waiting for payment.
   */
  function DecideConfirm(cat: Catalog, requests: map<RequestId, Request>, logistId: LogistId, id: RequestId): (r: Result<Status>)
    ensures r == Err(NotFound) <==> id !in requests || logistId !in cat.logists
    ensures r.Ok? <==> id in requests && logistId in cat.logists && requests[id].logistId != logistId
                       && (requests[id].status, LogistConfirm, Completed) in Transitions
    ensures r.Ok? ==> r.value == Completed
    ensures id in requests && logistId in cat.logists && r.Err? ==> r.error == Conflict
  {
    if id !in requests then Err(NotFound)
    else if logistId !in cat.logists then Err(NotFound)
    else if requests[id].logistId == logistId then Err(Conflict)
    else if requests[id].status != WaitingForPayment then Err(Conflict)
    else Ok(Completed)
  }

  // ---------------------------------------------------------------------
  // The store of requests and the effect of each operation on it
  // ---------------------------------------------------------------------

  /** The request repository: stored requests by id, and the id the next save assigns. */
  datatype Store = Store(requests: map<RequestId, Request>, nextId: RequestId)

  datatype Command =
    | CreateRequest(logistId: LogistId, lines: seq<ProductLine>)
    | SupplierReply(requestId: RequestId, supplierId: SupplierId, confirm: bool)
    | ChangeStatus(requestId: RequestId, target: Status)
    | ConfirmDelivery(actorId: LogistId, requestId: RequestId)

  /** The action of the transition table a command on an existing request performs. */
  function ActionOf(c: Command): Action
    requires !c.CreateRequest?
  {
    match c
    case SupplierReply(_, _, confirm) => ReplyAction(confirm)
    case ChangeStatus(_, _) => AdminChange
    case ConfirmDelivery(_, _) => LogistConfirm
  }

  /** Persists a decided status for request `id`; a failed decision writes nothing. */
  function Settle(st: Store, id: RequestId, d: Result<Status>): (r: Store)
    requires d.Ok? ==> id in st.requests
    ensures r.nextId == st.nextId && r.requests.Keys == st.requests.Keys
    ensures forall k :: k in st.requests && k != id ==> r.requests[k] == st.requests[k]
    ensures d.Ok? ==> SameButStatus(st.requests[id], r.requests[id]) && r.requests[id].status == d.value
    ensures d.Err? ==> r == st
  {
    if d.Ok? then Store(st.requests[id := st.requests[id].(status := d.value)], st.nextId) else st
  }

  /** The store after one operation of the request service. */
  function Step(cat: Catalog, st: Store, c: Command): (r: Store)
    ensures st.requests.Keys <= r.requests.Keys
    ensures !c.CreateRequest? ==> r.nextId == st.nextId && r.requests.Keys == st.requests.Keys
    ensures !c.CreateRequest? ==> forall id :: id in st.requests && r.requests[id] != st.requests[id] ==>
              id == c.requestId && SameButStatus(st.requests[id], r.requests[id])
    ensures c.CreateRequest? && DecideCreate(cat, c.logistId, c.lines).Ok? ==>
              && r.nextId == st.nextId + 1
              && r.requests.Keys == st.requests.Keys + {st.nextId}
              && r.requests[st.nextId] == Request(st.nextId, InProcess, DecideCreate(cat, c.logistId, c.lines).value, c.logistId, c.lines)
              && forall id :: id in st.requests && id != st.nextId ==> r.requests[id] == st.requests[id]
    ensures c.CreateRequest? && DecideCreate(cat, c.logistId, c.lines).Err? ==> r == st
  {
    match c
    case CreateRequest(logistId, lines) =>
      (match DecideCreate(cat, logistId, lines)
       case Ok(s) => Store(st.requests[st.nextId := Request(st.nextId, InProcess, s, logistId, lines)], st.nextId + 1)
       case Err(_) => st)
    case SupplierReply(id, supplierId, confirm) => Settle(st, id, DecideReply(st.requests, id, supplierId, confirm))
    case ChangeStatus(id, target) => Settle(st, id, DecideChange(st.requests, id, target))
    case ConfirmDelivery(logistId, id) => Settle(st, id, DecideConfirm(cat, st.requests, logistId, id))
  }

  /** The store after a sequence of operations, applied in order. */
  function Run(cat: Catalog, st: Store, cs: seq<Command>): Store
    decreases |cs|
  {
    if |cs| == 0 then st else Run(cat, Step(cat, st, cs[0]), cs[1..])
  }

  /** A stored request whose actors exist and whose products all belong to its supplier. */
  ghost predicate WellFormed(cat: Catalog, r: Request) {
    && r.logistId in cat.logists
    && r.supplierId in cat.suppliers
    && OwnedBy(cat.products, r.lines, r.supplierId)
  }

  /** The store invariant: ids are keys below the next id, and every request is well formed. */
  ghost predicate Inv(cat: Catalog, st: Store) {
    forall id :: id in st.requests ==>
      id < st.nextId && st.requests[id].id == id && WellFormed(cat, st.requests[id])
  }

  /** `b` is `a` with (possibly) another status and nothing else changed. */
  predicate SameButStatus(a: Request, b: Request) {
    a.(status := b.status) == b
  }

  /**
   * Every request of `before` is still in `after`, with the same fields but
   * the status, a status no earlier in the lifecycle, and a terminal status kept.
   */
  ghost predicate Evolves(before: map<RequestId, Request>, after: map<RequestId, Request>) {
    forall id :: id in before ==>
      && id in after
      && SameButStatus(before[id], after[id])
      && Progress(before[id].status) <= Progress(after[id].status)
      && (Terminal(before[id].status) ==> after[id].status == before[id].status)
  }

  /**
   * One operation keeps every stored request, changes at most the status of
   * the request it names, and only along a row of the transition table;
   * a creation adds exactly one fresh request, in process.
   */
  lemma StepFollowsTable(cat: Catalog, st: Store, c: Command)
    requires Inv(cat, st)
    ensures var st' := Step(cat, st, c);
      && st.requests.Keys <= st'.requests.Keys
      && forall id :: id in st.requests && st'.requests[id] != st.requests[id] ==>
           && !c.CreateRequest?
           && id == c.requestId
           && SameButStatus(st.requests[id], st'.requests[id])
           && (st.requests[id].status, ActionOf(c), st'.requests[id].status) in Transitions
    ensures var st' := Step(cat, st, c);
      c.CreateRequest? && DecideCreate(cat, c.logistId, c.lines).Ok? ==>
        && st.nextId !in st.requests
        && st'.requests.Keys == st.requests.Keys + {st.nextId}
        && st'.requests[st.nextId].status == InProcess
    ensures var st' := Step(cat, st, c);
      c.CreateRequest? && DecideCreate(cat, c.logistId, c.lines).Err? ==> st' == st
  {
    if c.CreateRequest? && DecideCreate(cat, c.logistId, c.lines).Ok? {
      assert st.nextId !in st.requests;
    }
  }

  /** Every operation keeps the store invariant, in particular the single-supplier rule. */
  lemma StepPreservesInv(cat: Catalog, st: Store, c: Command)
    requires Inv(cat, st)
    ensures Inv(cat, Step(cat, st, c))
  {
    StepFollowsTable(cat, st, c);
  }

  lemma StepEvolves(cat: Catalog, st: Store, c: Command)
    requires Inv(cat, st)
    ensures Evolves(st.requests, Step(cat, st, c).requests)
  {
    var st' := Step(cat, st, c);
    StepFollowsTable(cat, st, c);
    forall id | id in st.requests && st'.requests[id] != st.requests[id]
      ensures Progress(st.requests[id].status) < Progress(st'.requests[id].status)
      ensures !Terminal(st.requests[id].status)
    {
      TransitionsMakeProgress(st.requests[id].status, ActionOf(c), st'.requests[id].status);
    }
  }

  lemma EvolvesTransitive(a: map<RequestId, Request>, b: map<RequestId, Request>, c: map<RequestId, Request>)
    requires Evolves(a, b) && Evolves(b, c)
    ensures Evolves(a, c)
  {
  }

  /** No sequence of operations breaks the store invariant. */
  lemma {:induction false} RunPreservesInv(cat: Catalog, st: Store, cs: seq<Command>)
    requires Inv(cat, st)
    ensures Inv(cat, Run(cat, st, cs))
    decreases |cs|
  {
    if |cs| > 0 {
      StepPreservesInv(cat, st, cs[0]);
      RunPreservesInv(cat, Step(cat, st, cs[0]), cs[1..]);
    }
  }

  /**
   * No sequence of operations deletes a request, changes anything of it but
   * its status, moves a status backward, or leaves a terminal status.
   */
  lemma {:induction false} RunEvolves(cat: Catalog, st: Store, cs: seq<Command>)
    requires Inv(cat, st)
    ensures Evolves(st.requests, Run(cat, st, cs).requests)
    decreases |cs|
  {
    if |cs| == 0 {
    } else {
      var st1 := Step(cat, st, cs[0]);
      StepEvolves(cat, st, cs[0]);
      StepPreservesInv(cat, st, cs[0]);
      RunEvolves(cat, st1, cs[1..]);
      EvolvesTransitive(st.requests, st1.requests, Run(cat, st1, cs[1..]).requests);
    }
  }

  /**
   * A supplier's reply succeeds at most once: right after a successful
   * reply, any second reply to the same request is a Conflict that writes
   * nothing, and the first reply's status stands.
   */
  lemma ReplyIsFinal(cat: Catalog, st: Store, id: RequestId, supplierId: SupplierId, first: bool, second: bool)
    requires DecideReply(st.requests, id, supplierId, first).Ok?
    ensures var st1 := Step(cat, st, SupplierReply(id, supplierId, first));
      && st1.requests[id].status == (if first then Confirmed else Rejected)
      && DecideReply(st1.requests, id, supplierId, second) == Err(Conflict)
      && Step(cat, st1, SupplierReply(id, supplierId, second)) == st1
  {
  }

  /**
   * The whole lifecycle: a request created by one logist, confirmed by its
   * supplier, moved to waiting-for-payment by an administrator and confirmed
   * by another logist ends completed.
   */
  lemma HappyPath(cat: Catalog, st: Store, creator: LogistId, lines: seq<ProductLine>, confirmer: LogistId)
    requires Inv(cat, st)
    requires DecideCreate(cat, creator, lines).Ok?
    requires confirmer in cat.logists && confirmer != creator
    ensures var id := st.nextId;
      var s := DecideCreate(cat, creator, lines).value;
      var end := Run(cat, st, [CreateRequest(creator, lines), SupplierReply(id, s, true),
                               ChangeStatus(id, WaitingForPayment), ConfirmDelivery(confirmer, id)]);
      id in end.requests && end.requests[id].status == Completed
  {
    var id := st.nextId;
    var s := DecideCreate(cat, creator, lines).value;
    var cs := [CreateRequest(creator, lines), SupplierReply(id, s, true),
               ChangeStatus(id, WaitingForPayment), ConfirmDelivery(confirmer, id)];
    var st1 := Step(cat, st, cs[0]);
    assert st1.requests[id].status == InProcess;
    var st2 := Step(cat, st1, cs[1]);
    assert st2.requests[id].status == Confirmed;
    var st3 := Step(cat, st2, cs[2]);
    assert st3.requests[id].status == WaitingForPayment;
    var st4 := Step(cat, st3, cs[3]);
    assert st4.requests[id].status == Completed;
    assert Run(cat, st3, cs[3..]) == st4;
    assert Run(cat, st2, cs[2..]) == st4;
    assert Run(cat, st1, cs[1..]) == st4;
  }
}
