/** The service registry: an ordered list of service entries held in one state cell, replaced
    by `addService` (append with a generated id), `removeService` (filter by id) and
    `updateService` (shallow merge into the entries carrying an id). */
module ServicesContext {
  import opened JsRuntime
  import IdLists

  /** Every status any part of the flow uses: the registry's own three values and the
      card's `error` and `configuring`. */
  datatype Status = Connected | Disconnected | Pending | Error | Configuring

  /** A registry entry. The source's `type` field is called `serviceType` here; `credentials`,
      `config` and `error` are the optional keys the other components read or write. */
  datatype Service = Service(
    id: string,
    name: string,
    serviceType: string,
    provider: string,
    status: Status,
    lastSync: Option<string>,
    credentials: Option<StringRecord>,
    config: Option<StringRecord>,
    error: Option<string>)

  /** The argument of `addService`: a service without its id. */
  datatype NewService = NewService(
    name: string,
    serviceType: string,
    provider: string,
    status: Status,
    lastSync: Option<string>,
    credentials: Option<StringRecord>,
    config: Option<StringRecord>,
    error: Option<string>)

  /** A `Partial<Service>`: `None` leaves the key out of the update; for the optional keys
      `Some(None)` is a key explicitly set to undefined. */
  datatype ServicePatch = ServicePatch(
    id: Option<string>,
    name: Option<string>,
    serviceType: Option<string>,
    provider: Option<string>,
    status: Option<Status>,
    lastSync: Option<Option<string>>,
    credentials: Option<Option<StringRecord>>,
    config: Option<Option<StringRecord>>,
    error: Option<Option<string>>)

  /** The empty partial `{}`. */
  const NoChanges := ServicePatch(None, None, None, None, None, None, None, None, None)

  /** `{ ...service, id }`: the new entry carries the given id and, apart from it, exactly
      the fields it was given. */
  function WithId(s: NewService, id: string): (r: Service)
    ensures r.id == id && WithoutId(r) == s
  {
    Service(id, s.name, s.serviceType, s.provider, s.status, s.lastSync, s.credentials, s.config, s.error)
  }

  /** The fields of an entry other than its id. */
  function WithoutId(r: Service): NewService {
    NewService(r.name, r.serviceType, r.provider, r.status, r.lastSync, r.credentials, r.config, r.error)
  }

  function IdOf(s: Service): string { s.id }

  /** `{ ...service, ...updates }`: keys present in the partial win, all other keys are kept. */
  function Merge(s: Service, p: ServicePatch): (r: Service)
    ensures p.id.None? ==> r.id == s.id
  {
    Service(
      p.id.GetOr(s.id),
      p.name.GetOr(s.name),
      p.serviceType.GetOr(s.serviceType),
      p.provider.GetOr(s.provider),
      p.status.GetOr(s.status),
      p.lastSync.GetOr(s.lastSync),
      p.credentials.GetOr(s.credentials),
      p.config.GetOr(s.config),
      p.error.GetOr(s.error))
  }

  /** The partial that applies `p` and then `q`: `q`'s keys win over `p`'s. */
  function Then(p: ServicePatch, q: ServicePatch): ServicePatch {
    ServicePatch(
      if q.id.Some? then q.id else p.id,
      if q.name.Some? then q.name else p.name,
      if q.serviceType.Some? then q.serviceType else p.serviceType,
      if q.provider.Some? then q.provider else p.provider,
      if q.status.Some? then q.status else p.status,
      if q.lastSync.Some? then q.lastSync else p.lastSync,
      if q.credentials.Some? then q.credentials else p.credentials,
      if q.config.Some? then q.config else p.config,
      if q.error.Some? then q.error else p.error)
  }

  /** Two successive merges are one merge of the combined partial. */
  lemma MergeThen(s: Service, p: ServicePatch, q: ServicePatch)
    ensures Merge(Merge(s, p), q) == Merge(s, Then(p, q))
  {
  }

  /** Merging the same partial twice is merging it once; the empty partial changes nothing. */
  lemma MergeIdempotent(s: Service, p: ServicePatch)
    ensures Merge(Merge(s, p), p) == Merge(s, p)
    ensures Merge(s, NoChanges) == s
  {
  }

  /** `update(id, {name: X})` then read: the name is X and every other field is unchanged. */
  lemma MergeNameOnly(s: Service, x: string)
    ensures Merge(s, NoChanges.(name := Some(x))) == s.(name := x)
  {
  }

  /** The transform `updateService` applies to the list. */
  function UpdatedById(services: seq<Service>, id: string, p: ServicePatch): (r: seq<Service>)
    ensures |r| == |services|
    ensures forall i :: 0 <= i < |services| ==>
              r[i] == if services[i].id == id then Merge(services[i], p) else services[i]
  {
    IdLists.UpdateById(services, IdOf, id, s => Merge(s, p))
  }

  /** The transform `removeService` applies to the list. */
  function RemovedById(services: seq<Service>, id: string): (r: seq<Service>)
    ensures forall s :: s in r <==> s in services && s.id != id
  {
    IdLists.RemoveById(services, IdOf, id)
  }

  /** `removeService` keeps the other entries in their order: removing from a concatenation
      removes from each part. */
  lemma RemoveServiceKeepsOrder(a: seq<Service>, b: seq<Service>, id: string)
    ensures RemovedById(a + b, id) == RemovedById(a, id) + RemovedById(b, id)
  {
    IdLists.RemoveByIdAppend(a, b, IdOf, id);
  }

  /** A second `removeService` with the same id, or one with an absent id, changes nothing. */
  lemma RemoveServiceIdempotent(services: seq<Service>, id: string)
    ensures RemovedById(RemovedById(services, id), id) == RemovedById(services, id)
    ensures (forall s :: s in services ==> s.id != id) ==> RemovedById(services, id) == services
  {
    IdLists.RemoveByIdIdempotent(services, IdOf, id);
    if forall s :: s in services ==> s.id != id {
      IdLists.RemoveAbsentId(services, IdOf, id);
    }
  }

  /** Applying the same `updateService` twice is applying it once. */
  lemma UpdateServiceIdempotent(services: seq<Service>, id: string, p: ServicePatch)
    ensures UpdatedById(UpdatedById(services, id, p), id, p) == UpdatedById(services, id, p)
  {
    var f := (s: Service) => Merge(s, p);
    forall x ensures f(f(x)) == f(x) { MergeIdempotent(x, p); }
    IdLists.UpdateByIdIdempotent(services, IdOf, id, f);
  }

  /** Adding an entry and removing its id drops it again, together with every earlier entry
      that happened to draw the same id: ids are not unique. */
  lemma AddThenRemove(services: seq<Service>, s: NewService, id: string)
    ensures RemovedById(services + [WithId(s, id)], id) == RemovedById(services, id)
  {
    RemoveServiceKeepsOrder(services, [WithId(s, id)], id);
    assert RemovedById([WithId(s, id)], id) == [];
  }

  /** The registry state cell. */
  class ServicesStore {
    var services: seq<Service>

    /** `useState<Service[]>([])`: the registry starts empty. */
    constructor ()
      ensures services == []
    {
      services := [];
    }

    /** `addService`: `newId` stands for the `Math.random()` token, an arbitrary string that is
        not checked against the ids already present. */
    method AddService(s: NewService, newId: string)
      modifies this
      ensures services == old(services) + [WithId(s, newId)]
    {
      services := services + [WithId(s, newId)];
    }

    method RemoveService(id: string)
      modifies this
      ensures services == RemovedById(old(services), id)
    {
      services := RemovedById(services, id);
    }

    method UpdateService(id: string, updates: ServicePatch)
      modifies this
      ensures services == UpdatedById(old(services), id, updates)
    {
      services := UpdatedById(services, id, updates);
    }
  }
}
