/**
 * The index service: a default worker and named tenant workers, lookup of
 * the worker for a tenant, and fan-out of index operations to every worker.
 * The workers' own work is not visible here: their answers to queries are a
 * parameter, and the calls made to them are recorded in order.
 */
module IndexService {
  import opened Wrappers
  import opened PhpArray
  import opened PhpString

  /** An index worker (`IWorker`), known only by identity. */
  class Worker {
  }

  datatype IndexError =
    | WorkerNotFound(message: string)
    | DefaultWorkerNotFound(message: string)
      /** Registering an integer array key as a tenant name under strict typing. */
    | TypeError(key: string)

  /** The questions the service forwards to a worker. */
  datatype Query =
    | GeneralSearchAttributes
    | IndexAttributes(considerHideInFieldList: bool)
    | AllFilterGroups
    | IndexAttributesByFilterGroup(filterType: string)

  /** The operations the service fans out to every worker. */
  datatype IndexOperation =
    | CreateOrUpdateIndexStructures
    | DeleteFromIndex(objectId: int)
    | UpdateIndex(objectId: int)

  /** A string array key that PHP stores as an integer: canonical decimal notation. */
  predicate IsIntegerKey(s: string) {
    s == "0"
    || (s != [] && '1' <= s[0] <= '9' && AllDigits(s))
    || (|s| > 1 && s[0] == '-' && '1' <= s[1] <= '9' && AllDigits(s[1..]))
  }

  function NotFoundMessage(tenant: string): string {
    "Tenant \"" + tenant + "\" doesn't exist"
  }

  const NoDefaultMessage: string := "Could not load worker as no tenant is set and no default worker is defined"

  /** The workers of a registry, in registration order. */
  function WorkersOf(tenantWorkers: seq<(string, Worker)>): (ws: seq<Worker>)
    ensures |ws| == |tenantWorkers|
    ensures forall i :: 0 <= i < |ws| ==> ws[i] == tenantWorkers[i].1
  {
    seq(|tenantWorkers|, i requires 0 <= i < |tenantWorkers| => tenantWorkers[i].1)
  }

  /** `getTenantWorker`: the worker registered under the name, or WorkerNotFound. */
  function TenantWorker(tenantWorkers: seq<(string, Worker)>, tenant: string): (r: Result<Worker, IndexError>)
    ensures r.Ok? <==> tenant in Keys(tenantWorkers)
    ensures r.Ok? ==> Get(tenantWorkers, tenant) == Some(r.value) && r.value in WorkersOf(tenantWorkers)
    ensures r.Err? ==> r.error == WorkerNotFound(NotFoundMessage(tenant))
  {
    GetSome(tenantWorkers, tenant);
    match Get(tenantWorkers, tenant)
    case Some(w) =>
      GetMember(tenantWorkers, tenant);
      Ok(w)
    case None => Err(WorkerNotFound(NotFoundMessage(tenant)))
  }

  /** A value found under a key is one of the array's values. */
  lemma {:induction false} GetMember<V>(a: seq<(string, V)>, k: string)
    requires Get(a, k).Some?
    ensures exists i :: 0 <= i < |a| && a[i] == (k, Get(a, k).value)
  {
    if a[0].0 != k {
      GetMember(a[1..], k);
      var i :| 0 <= i < |a[1..]| && a[1..][i] == (k, Get(a, k).value);
      assert a[i + 1] == a[1..][i];
    }
  }

  /**
   * `resolveTenantWorker`: a null tenant stands for the environment's
   * assortment tenant; a truthy tenant must be registered; otherwise the
   * default worker answers, if there is one.
   */
  function ResolveTenantWorker(defaultWorker: Worker?, tenantWorkers: seq<(string, Worker)>,
                               tenant: Option<string>, environmentTenant: Option<string>): (r: Result<Worker, IndexError>)
    ensures var t := if tenant.Some? then tenant else environmentTenant;
      && (r.Ok? ==> (t.Some? && !Falsy(t.value) && Get(tenantWorkers, t.value) == Some(r.value))
                    || ((t.None? || Falsy(t.value)) && r.value == defaultWorker))
      && (r.Err? && r.error.WorkerNotFound? <==> t.Some? && !Falsy(t.value) && t.value !in Keys(tenantWorkers))
      && (r.Err? && r.error.DefaultWorkerNotFound? <==> (t.None? || Falsy(t.value)) && defaultWorker == null)
      && !(r.Err? && r.error.TypeError?)
  {
    var t := if tenant.Some? then tenant else environmentTenant;
    if t.Some? && !Falsy(t.value) then TenantWorker(tenantWorkers, t.value)
    else if defaultWorker == null then Err(DefaultWorkerNotFound(NoDefaultMessage))
    else Ok(defaultWorker)
  }

  /** A registered, truthy tenant name resolves to the worker registered under it, whatever the environment says. */
  lemma ResolveRegistered(defaultWorker: Worker?, tenantWorkers: seq<(string, Worker)>, i: int, environmentTenant: Option<string>)
    requires UniqueKeys(tenantWorkers) && 0 <= i < |tenantWorkers| && !Falsy(tenantWorkers[i].0)
    ensures ResolveTenantWorker(defaultWorker, tenantWorkers, Some(tenantWorkers[i].0), environmentTenant)
            == Ok(tenantWorkers[i].1)
  {
    GetAt(tenantWorkers, i);
  }

  /** A falsy tenant (`""` or `"0"`) is not looked up, not even when registered, and does not defer to the environment. */
  lemma ResolveFalsyTenant(defaultWorker: Worker?, tenantWorkers: seq<(string, Worker)>, tenant: string, environmentTenant: Option<string>)
    requires Falsy(tenant)
    ensures ResolveTenantWorker(defaultWorker, tenantWorkers, Some(tenant), environmentTenant)
            == if defaultWorker == null then Err(DefaultWorkerNotFound(NoDefaultMessage)) else Ok(defaultWorker)
  {
  }

  /**
   * The attribute and filter-group getters: the resolved worker answers the
   * query; a missing default worker gives an empty list; a missing tenant
   * worker is an error.
   */
  function AskWorker(defaultWorker: Worker?, tenantWorkers: seq<(string, Worker)>, tenant: Option<string>,
                     environmentTenant: Option<string>, answers: (Worker, Query) -> seq<string>, q: Query): (r: Result<seq<string>, IndexError>)
    ensures var resolved := ResolveTenantWorker(defaultWorker, tenantWorkers, tenant, environmentTenant);
      && (resolved.Ok? ==> r == Ok(answers(resolved.value, q)))
      && (resolved.Err? && resolved.error.DefaultWorkerNotFound? ==> r == Ok([]))
      && (resolved.Err? && resolved.error.WorkerNotFound? ==> r == Err(resolved.error))
  {
    match ResolveTenantWorker(defaultWorker, tenantWorkers, tenant, environmentTenant)
    case Ok(w) => Ok(answers(w, q))
    case Err(DefaultWorkerNotFound(_)) => Ok([])
    case Err(e) => Err(e)
  }

  /** With no default worker and no tenant anywhere, every query answers the empty list. */
  lemma NoWorkerEmptyAnswer(tenantWorkers: seq<(string, Worker)>, answers: (Worker, Query) -> seq<string>, q: Query)
    ensures AskWorker(null, tenantWorkers, None, None, answers, q) == Ok([])
  {
  }

  /** The workers an operation reaches: the default worker first, if any, then each tenant worker in order. */
  function Recipients(defaultWorker: Worker?, tenantWorkers: seq<(string, Worker)>): (ws: seq<Worker>)
    ensures |ws| == |tenantWorkers| + (if defaultWorker == null then 0 else 1)
    ensures defaultWorker != null ==> ws[0] == defaultWorker
    ensures var offset := if defaultWorker == null then 0 else 1;
      forall i :: 0 <= i < |tenantWorkers| ==> ws[offset + i] == tenantWorkers[i].1
  {
    (if defaultWorker == null then [] else [defaultWorker]) + WorkersOf(tenantWorkers)
  }

  /** A worker registered under one tenant name, and not as the default worker, is called exactly once per operation. */
  lemma CalledOnce(defaultWorker: Worker?, tenantWorkers: seq<(string, Worker)>, op: IndexOperation, i: int)
    requires 0 <= i < |tenantWorkers|
    requires tenantWorkers[i].1 != defaultWorker
    requires forall j :: 0 <= j < |tenantWorkers| && j != i ==> tenantWorkers[j].1 != tenantWorkers[i].1
    ensures var cs := Calls(Recipients(defaultWorker, tenantWorkers), op);
      var at := i + if defaultWorker == null then 0 else 1;
      && cs[at] == (tenantWorkers[i].1, op)
      && forall k :: 0 <= k < |cs| && cs[k].0 == tenantWorkers[i].1 ==> k == at
  {
    var ws := Recipients(defaultWorker, tenantWorkers);
    var offset := if defaultWorker == null then 0 else 1;
    forall k | 0 <= k < |ws| && ws[k] == tenantWorkers[i].1 ensures k == offset + i {
      if k >= offset {
        assert ws[offset + (k - offset)] == tenantWorkers[k - offset].1;
      }
    }
  }

  /** The calls of a broadcast: the default worker's, if any, then the tenant workers'. */
  lemma RecipientCalls(defaultWorker: Worker?, tenantWorkers: seq<(string, Worker)>, op: IndexOperation)
    ensures Calls(Recipients(defaultWorker, tenantWorkers), op)
         == (if defaultWorker == null then [] else [(defaultWorker, op)]) + Calls(WorkersOf(tenantWorkers), op)
  {
    var rest := WorkersOf(tenantWorkers);
    if defaultWorker == null {
      assert Recipients(defaultWorker, tenantWorkers) == [] + rest;
      CallsAppend([], rest, op);
    } else {
      assert Recipients(defaultWorker, tenantWorkers) == [defaultWorker] + rest;
      CallsAppend([defaultWorker], rest, op);
      assert Calls([defaultWorker], op) == [(defaultWorker, op)];
    }
  }

  class IndexService {
    var defaultWorker: Worker?
    var tenantWorkers: seq<(string, Worker)>
    /** The calls made to the workers so far, in order. */
    var dispatched: seq<(Worker, IndexOperation)>

    constructor Init(defaultWorker: Worker?)
      ensures this.defaultWorker == defaultWorker && tenantWorkers == [] && dispatched == []
    {
      this.defaultWorker := defaultWorker;
      tenantWorkers := [];
      dispatched := [];
    }

    /**
     * `__construct`: registers each tenant worker under its name, in order;
     * an integer array key fails the `string` parameter of
     * `registerTenantWorker` and aborts construction.
     */
    static method Create(defaultWorker: Worker?, tenantWorkers: seq<(string, Worker)>) returns (r: Result<IndexService, IndexError>)
      requires UniqueKeys(tenantWorkers)
      ensures r.Err? <==> exists i :: 0 <= i < |tenantWorkers| && IsIntegerKey(tenantWorkers[i].0)
      ensures r.Err? ==> exists i :: 0 <= i < |tenantWorkers| && r.error == TypeError(tenantWorkers[i].0)
                                     && IsIntegerKey(tenantWorkers[i].0)
                                     && forall j :: 0 <= j < i ==> !IsIntegerKey(tenantWorkers[j].0)
      ensures r.Ok? ==> fresh(r.value) && r.value.defaultWorker == defaultWorker
                        && r.value.tenantWorkers == tenantWorkers && r.value.dispatched == []
    {
      var service := new IndexService.Init(defaultWorker);
      var i := 0;
      while i < |tenantWorkers|
        invariant 0 <= i <= |tenantWorkers|
        invariant fresh(service) && service.defaultWorker == defaultWorker && service.dispatched == []
        invariant service.tenantWorkers == tenantWorkers[..i]
        invariant forall j :: 0 <= j < i ==> !IsIntegerKey(tenantWorkers[j].0)
      {
        var (name, worker) := tenantWorkers[i];
        if IsIntegerKey(name) {
          return Err(TypeError(name));
        }
        assert name !in Keys(tenantWorkers[..i]) by {
          forall j | 0 <= j < i ensures Keys(tenantWorkers[..i])[j] != name {
            assert tenantWorkers[..i][j] == tenantWorkers[j];
          }
        }
        service.RegisterTenantWorker(name, worker);
        assert tenantWorkers[..i + 1] == tenantWorkers[..i] + [(name, worker)];
        i := i + 1;
      }
      assert tenantWorkers[..i] == tenantWorkers;
      r := Ok(service);
    }

    /** `registerTenantWorker`. */
    method RegisterTenantWorker(tenant: string, worker: Worker)
      modifies this
      ensures tenantWorkers == Put(old(tenantWorkers), tenant, worker)
      ensures defaultWorker == old(defaultWorker) && dispatched == old(dispatched)
    {
      tenantWorkers := Put(tenantWorkers, tenant, worker);
    }

    method GetTenantWorker(tenant: string) returns (r: Result<Worker, IndexError>)
      ensures r == TenantWorker(tenantWorkers, tenant)
    {
      r := TenantWorker(tenantWorkers, tenant);
    }

    method GetCurrentTenantWorker(environmentTenant: Option<string>) returns (r: Result<Worker, IndexError>)
      ensures r == ResolveTenantWorker(defaultWorker, tenantWorkers, None, environmentTenant)
    {
      r := ResolveTenantWorker(defaultWorker, tenantWorkers, None, environmentTenant);
    }

    /** `getProductListForTenant`: the worker whose product list is returned. */
    method GetProductListWorker(tenant: string, environmentTenant: Option<string>) returns (r: Result<Worker, IndexError>)
      ensures r == ResolveTenantWorker(defaultWorker, tenantWorkers, Some(tenant), environmentTenant)
    {
      r := ResolveTenantWorker(defaultWorker, tenantWorkers, Some(tenant), environmentTenant);
    }

    method GetGeneralSearchAttributes(tenant: Option<string>, environmentTenant: Option<string>,
                                      answers: (Worker, Query) -> seq<string>) returns (r: Result<seq<string>, IndexError>)
      ensures r == AskWorker(defaultWorker, tenantWorkers, tenant, environmentTenant, answers, GeneralSearchAttributes)
    {
      r := AskWorker(defaultWorker, tenantWorkers, tenant, environmentTenant, answers, GeneralSearchAttributes);
    }

    /** Deprecated `getGeneralSearchColumns`. */
    method GetGeneralSearchColumns(tenant: Option<string>, environmentTenant: Option<string>,
                                   answers: (Worker, Query) -> seq<string>) returns (r: Result<seq<string>, IndexError>)
      ensures r == AskWorker(defaultWorker, tenantWorkers, tenant, environmentTenant, answers, GeneralSearchAttributes)
    {
      r := GetGeneralSearchAttributes(tenant, environmentTenant, answers);
    }

    method GetIndexAttributes(considerHideInFieldList: bool, tenant: Option<string>, environmentTenant: Option<string>,
                              answers: (Worker, Query) -> seq<string>) returns (r: Result<seq<string>, IndexError>)
      ensures r == AskWorker(defaultWorker, tenantWorkers, tenant, environmentTenant, answers,
                             IndexAttributes(considerHideInFieldList))
    {
      r := AskWorker(defaultWorker, tenantWorkers, tenant, environmentTenant, answers,
                     IndexAttributes(considerHideInFieldList));
    }

    /** Deprecated `getIndexColumns`. */
    method GetIndexColumns(considerHideInFieldList: bool, tenant: Option<string>, environmentTenant: Option<string>,
                           answers: (Worker, Query) -> seq<string>) returns (r: Result<seq<string>, IndexError>)
      ensures r == AskWorker(defaultWorker, tenantWorkers, tenant, environmentTenant, answers,
                             IndexAttributes(considerHideInFieldList))
    {
      r := GetIndexAttributes(considerHideInFieldList, tenant, environmentTenant, answers);
    }

    method GetAllFilterGroups(tenant: Option<string>, environmentTenant: Option<string>,
                              answers: (Worker, Query) -> seq<string>) returns (r: Result<seq<string>, IndexError>)
      ensures r == AskWorker(defaultWorker, tenantWorkers, tenant, environmentTenant, answers, AllFilterGroups)
    {
      r := AskWorker(defaultWorker, tenantWorkers, tenant, environmentTenant, answers, AllFilterGroups);
    }

    method GetIndexAttributesByFilterGroup(filterType: string, tenant: Option<string>, environmentTenant: Option<string>,
                                           answers: (Worker, Query) -> seq<string>) returns (r: Result<seq<string>, IndexError>)
      ensures r == AskWorker(defaultWorker, tenantWorkers, tenant, environmentTenant, answers,
                             IndexAttributesByFilterGroup(filterType))
    {
      r := AskWorker(defaultWorker, tenantWorkers, tenant, environmentTenant, answers,
                     IndexAttributesByFilterGroup(filterType));
    }

    /** Deprecated `getIndexColumnsByFilterGroup`. */
    method GetIndexColumnsByFilterGroup(filterType: string, tenant: Option<string>, environmentTenant: Option<string>,
                                        answers: (Worker, Query) -> seq<string>) returns (r: Result<seq<string>, IndexError>)
      ensures r == AskWorker(defaultWorker, tenantWorkers, tenant, environmentTenant, answers,
                             IndexAttributesByFilterGroup(filterType))
    {
      r := GetIndexAttributesByFilterGroup(filterType, tenant, environmentTenant, answers);
    }

    /** Sends `op` to the default worker, if any, and then to each tenant worker in registration order. */
    method Broadcast(op: IndexOperation)
      modifies this
      ensures dispatched == old(dispatched) + Calls(Recipients(defaultWorker, tenantWorkers), op)
      ensures defaultWorker == old(defaultWorker) && tenantWorkers == old(tenantWorkers)
    {
      var d, tw := defaultWorker, tenantWorkers;
      ghost var before := dispatched;
      ghost var head: seq<(Worker, IndexOperation)> := if d == null then [] else [(d, op)];
      if d != null {
        dispatched := dispatched + [(d, op)];
      }
      assert dispatched == before + head;
      var tail := Calls(WorkersOf(tw), op);
      Send(WorkersOf(tw), op);
      assert dispatched == before + head + tail;
      RecipientCalls(d, tw, op);
      AppendAssoc(before, head, tail);
    }

    /** Calls each worker of `ws` in turn. */
    method Send(ws: seq<Worker>, op: IndexOperation)
      modifies this
      ensures dispatched == old(dispatched) + Calls(ws, op)
      ensures defaultWorker == old(defaultWorker) && tenantWorkers == old(tenantWorkers)
    {
      for i := 0 to |ws|
        invariant defaultWorker == old(defaultWorker) && tenantWorkers == old(tenantWorkers)
        invariant dispatched == old(dispatched) + Calls(ws[..i], op)
      {
        assert ws[..i + 1] == ws[..i] + [ws[i]];
        CallsAppend(ws[..i], [ws[i]], op);
        dispatched := dispatched + [(ws[i], op)];
      }
      assert ws[..|ws|] == ws;
    }

    method CreateOrUpdateIndexStructures()
      modifies this
      ensures dispatched == old(dispatched) + Calls(Recipients(defaultWorker, tenantWorkers), IndexOperation.CreateOrUpdateIndexStructures)
      ensures defaultWorker == old(defaultWorker) && tenantWorkers == old(tenantWorkers)
    {
      Broadcast(IndexOperation.CreateOrUpdateIndexStructures);
    }

    /** Deprecated `createOrUpdateTable`. */
    method CreateOrUpdateTable()
      modifies this
      ensures dispatched == old(dispatched) + Calls(Recipients(defaultWorker, tenantWorkers), IndexOperation.CreateOrUpdateIndexStructures)
      ensures defaultWorker == old(defaultWorker) && tenantWorkers == old(tenantWorkers)
    {
      CreateOrUpdateIndexStructures();
    }

    method DeleteFromIndex(objectId: int)
      modifies this
      ensures dispatched == old(dispatched) + Calls(Recipients(defaultWorker, tenantWorkers), IndexOperation.DeleteFromIndex(objectId))
      ensures defaultWorker == old(defaultWorker) && tenantWorkers == old(tenantWorkers)
    {
      Broadcast(IndexOperation.DeleteFromIndex(objectId));
    }

    method UpdateIndex(objectId: int)
      modifies this
      ensures dispatched == old(dispatched) + Calls(Recipients(defaultWorker, tenantWorkers), IndexOperation.UpdateIndex(objectId))
      ensures defaultWorker == old(defaultWorker) && tenantWorkers == old(tenantWorkers)
    {
      Broadcast(IndexOperation.UpdateIndex(objectId));
    }
  }
}
