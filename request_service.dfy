/**
 * The request service as an object. Its request repository is a map field
 * that the operations update in place; the product repository and the
 * logist and supplier services are a catalog fixed at construction.
 *
 * Each operation reads, validates, and writes only when every check has
 * passed. Its postcondition ties the outcome to the decision functions of
 * `Lifecycle` and the new state to `Lifecycle.Step`, so every lemma proved
 * there about steps and runs applies to this object.
 */
module Requests {
  import opened Lifecycle

  /** What a supplier's reply returns on success. */
  datatype ReplyResult = ReplyResult(newStatus: Status)

  class RequestService {
    /** The request repository: stored requests by id. */
    var requests: map<RequestId, Request>
    /** The id the repository assigns to the next saved request. */
    var nextId: RequestId
    /** Products with their owning suppliers, known logists and suppliers. */
    const catalog: Catalog

    function State(): Store
      reads this
    {
      Store(requests, nextId)
    }

    ghost predicate Valid()
      reads this
    {
      Inv(catalog, State())
    }

    constructor (catalog: Catalog)
      ensures Valid()
      ensures this.catalog == catalog && requests == map[] && nextId == 0
    {
      this.catalog := catalog;
      requests := map[];
      nextId := 0;
    }

    /** `findOne(id)`: the stored request, or NotFound. */
    method FindOne(id: RequestId) returns (r: Result<Request>)
      ensures r.Ok? <==> id in requests
      ensures r.Ok? ==> r.value == requests[id]
      ensures r.Err? ==> r.error == NotFound
    {
      if id !in requests {
        return Err(NotFound);
      }
      return Ok(requests[id]);
    }

    /**
     * `create(logistId, {productInfo})`: resolves the logist, the products
     * and their one shared supplier, then saves a new request in process.
     */
    method Create(logistId: LogistId, lines: seq<ProductLine>) returns (r: Result<Request>)
      requires Valid()
      modifies this
      ensures Valid()
      ensures State() == Step(catalog, old(State()), CreateRequest(logistId, lines))
      ensures r.Ok? <==> DecideCreate(catalog, logistId, lines).Ok?
      ensures r.Ok? ==>
        && r.value == Request(old(nextId), InProcess, DecideCreate(catalog, logistId, lines).value, logistId, lines)
        && old(nextId) !in old(requests)
        && requests == old(requests)[old(nextId) := r.value]
      ensures r.Err? ==> r.error == DecideCreate(catalog, logistId, lines).error && unchanged(this)
    {
      ghost var before := State();
      if logistId !in catalog.logists {
        return Err(NotFound);
      }
      var products :- ResolveProducts(catalog.products, lines);
      var shared := SharedSupplier(products);
      if shared.None? {
        return Err(InvalidInput(MixedSuppliers));
      }
      if shared.value !in catalog.suppliers {
        return Err(NotFound);
      }
      var request := Request(nextId, InProcess, shared.value, logistId, lines);
      requests := requests[nextId := request];
      nextId := nextId + 1;
      StepFollowsTable(catalog, before, CreateRequest(logistId, lines));
      StepPreservesInv(catalog, before, CreateRequest(logistId, lines));
      r := Ok(request);
    }

    /**
     * `supReplyToRequest(requestId, supplierId, {confirm})`: the owning
     * supplier confirms or rejects a request still in process; only the
     * status is written.
     */
    method SupReplyToRequest(id: RequestId, supplierId: SupplierId, confirm: bool) returns (r: Result<ReplyResult>)
      requires Valid()
      modifies this
      ensures Valid()
      ensures State() == Step(catalog, old(State()), SupplierReply(id, supplierId, confirm))
      ensures r.Ok? <==> DecideReply(old(requests), id, supplierId, confirm).Ok?
      ensures r.Ok? ==>
        && r.value.newStatus == DecideReply(old(requests), id, supplierId, confirm).value
        && requests == old(requests)[id := old(requests)[id].(status := r.value.newStatus)]
      ensures r.Err? ==> r.error == DecideReply(old(requests), id, supplierId, confirm).error && unchanged(this)
    {
      ghost var before := State();
      var request :- FindOne(id);
      if request.supplierId != supplierId {
        return Err(Conflict);
      }
      if request.status != InProcess {
        return Err(Conflict);
      }
      var status := if confirm then Confirmed else Rejected;
      requests := requests[id := request.(status := status)];
      StepPreservesInv(catalog, before, SupplierReply(id, supplierId, confirm));
      r := Ok(ReplyResult(status));
    }

    /**
     * `changeRequestStatus(requestId, {status})`: an administrator moves a
     * request one step along the forward order; answers true.
     */
    method ChangeRequestStatus(id: RequestId, target: Status) returns (r: Result<bool>)
      requires Valid()
      modifies this
      ensures Valid()
      ensures State() == Step(catalog, old(State()), ChangeStatus(id, target))
      ensures r.Ok? <==> DecideChange(old(requests), id, target).Ok?
      ensures r.Ok? ==> r.value && requests == old(requests)[id := old(requests)[id].(status := target)]
      ensures r.Err? ==> r.error == DecideChange(old(requests), id, target).error && unchanged(this)
    {
      ghost var before := State();
      var request :- FindOne(id);
      if NextStatus(request.status) != Some(target) {
        return Err(Conflict);
      }
      requests := requests[id := request.(status := target)];
      StepPreservesInv(catalog, before, ChangeStatus(id, target));
      r := Ok(true);
    }

    /**
     * `confirmRequest(logistId, requestId)`: a logist other than the one
     * recorded on the request completes a request waiting for payment;
     * answers true.
     */
    method ConfirmRequest(logistId: LogistId, id: RequestId) returns (r: Result<bool>)
      requires Valid()
      modifies this
      ensures Valid()
      ensures State() == Step(catalog, old(State()), ConfirmDelivery(logistId, id))
      ensures r.Ok? <==> DecideConfirm(catalog, old(requests), logistId, id).Ok?
      ensures r.Ok? ==> r.value && requests == old(requests)[id := old(requests)[id].(status := Completed)]
      ensures r.Err? ==> r.error == DecideConfirm(catalog, old(requests), logistId, id).error && unchanged(this)
    {
      ghost var before := State();
      if logistId !in catalog.logists {
        return Err(NotFound);
      }
      var request :- FindOne(id);
      if request.logistId == logistId {
        return Err(Conflict);
      }
      if request.status != WaitingForPayment {
        return Err(Conflict);
      }
      requests := requests[id := request.(status := Completed)];
      StepPreservesInv(catalog, before, ConfirmDelivery(logistId, id));
      r := Ok(true);
    }
  }

  /** The catalog of the documented scenarios: two products of supplier1, one of supplier2. */
  function ScenarioCatalog(): Catalog {
    Catalog(map["1" := Product("1", "supplier1"), "2" := Product("2", "supplier1"), "3" := Product("3", "supplier2")],
            {"1", "2"}, {"supplier1", "supplier2"})
  }

  /** A creation refused for mixed suppliers, relying on the method contracts alone. */
  method MixedSuppliersScenario() {
    var cat := ScenarioCatalog();
    var service := new RequestService(cat);

    var mixedLines := [ProductLine("1", 10), ProductLine("3", 5)];
    assert MixesSuppliers(cat.products, mixedLines) by {
      assert mixedLines[0].productId == "1" && mixedLines[1].productId == "3";
    }
    var mixed := service.Create("1", mixedLines);
    assert mixed == Err(InvalidInput(MixedSuppliers));

  }

  /** Creations refused for an unknown logist, an empty list or an unknown product, relying on the method contracts alone. */
  method RefusedCreateScenarios() {
    var cat := ScenarioCatalog();
    var service := new RequestService(cat);

    var unknown := service.Create("9", [ProductLine("1", 10)]);
    assert unknown == Err(NotFound);

    var noLines := service.Create("1", []);
    assert noLines == Err(InvalidInput(MixedSuppliers));

    var ghostProduct := service.Create("1", [ProductLine("7", 1)]);
    assert ghostProduct == Err(NotFound);
  }

  /** A successful creation and lookups, relying on the method contracts alone. */
  method CreateScenarios() {
    var cat := ScenarioCatalog();
    var service := new RequestService(cat);

    var lines := [ProductLine("1", 10), ProductLine("2", 5)];
    assert OwnedBy(cat.products, lines, "supplier1");
    var created := service.Create("1", lines);
    assert created.Ok? && created.value.status == InProcess && created.value.supplierId == "supplier1";
    var found := service.FindOne(created.value.id);
    assert found == created;
    var missing := service.FindOne(created.value.id + 1);
    assert missing == Err(NotFound);
  }

  /** One request through its whole lifecycle, with the refused steps along the way. */
  method LifecycleScenario(service: RequestService, id: RequestId)
    requires service.Valid() && service.catalog == ScenarioCatalog()
    requires id in service.requests && service.requests[id].status == InProcess
    requires service.requests[id].supplierId == "supplier1" && service.requests[id].logistId == "1"
    modifies service
  {
    var stranger := service.SupReplyToRequest(id, "supplier2", true);
    assert stranger == Err(Conflict);
    var reply := service.SupReplyToRequest(id, "supplier1", true);
    assert reply == Ok(ReplyResult(Confirmed));
    var again := service.SupReplyToRequest(id, "supplier1", true);
    assert again == Err(Conflict);

    var back := service.ChangeRequestStatus(id, InProcess);
    assert back == Err(Conflict);
    var skip := service.ChangeRequestStatus(id, Completed);
    assert skip == Err(Conflict);
    var forward := service.ChangeRequestStatus(id, WaitingForPayment);
    assert forward == Ok(true);

    var own := service.ConfirmRequest("1", id);
    assert own == Err(Conflict);
    var other := service.ConfirmRequest("2", id);
    assert other == Ok(true);
    assert service.requests[id].status == Completed;
  }
}
