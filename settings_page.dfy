/** The settings page: the registry's entries in registry order, each with a remove button and
    a name input that writes straight into the registry, and the "Add Service" button that
    opens the modal whose `onAdd` appends a connected entry. */
module SettingsPage {
  import opened JsRuntime
  import opened ServicesContext
  import ServiceCard
  import AddServiceModal

  /** The entry `handleAddService` passes to `addService`; `now` stands for
      `new Date().toISOString()`. */
  function AddedRecord(serviceType: string, provider: string, name: string, config: StringRecord,
                       now: string): (r: NewService)
    ensures r.name == name && r.serviceType == serviceType && r.provider == provider
    ensures r.status == Connected && r.lastSync == Some(now) && r.config == Some(config)
    ensures r.credentials == None && r.error == None
  {
    NewService(name, serviceType, provider, Connected, Some(now), None, Some(config), None)
  }

  /** An entry added from the page is shown as connected (check icon, no alert, no error
      banner), with a last-synced line whenever the timestamp is non-empty. */
  lemma AddedEntryShowsConnected(serviceType: string, provider: string, name: string,
                                 config: StringRecord, now: string, id: string)
    ensures var shown := ServiceCard.IndicatorsOf(WithId(AddedRecord(serviceType, provider, name, config, now), id));
            shown.checkIcon && !shown.alertIcon && !shown.errorBanner && (shown.lastSyncLine <==> now != "")
  {
  }

  /** The text of the status badge; the badge is green exactly for connected. */
  function StatusText(status: Status): (text: string)
    ensures text != ""
  {
    match status
    case Connected => "connected"
    case Disconnected => "disconnected"
    case Pending => "pending"
    case Error => "error"
    case Configuring => "configuring"
  }

  /** Distinct statuses show distinct badge texts. */
  lemma StatusTextInjective(a: Status, b: Status)
    ensures StatusText(a) == StatusText(b) ==> a == b
  {
  }

  predicate BadgeGreen(status: Status) {
    status == Connected
  }

  /** One row of the list: name, "provider - type", the badge and the optional last-synced
      line. */
  datatype Row = Row(name: string, subtitle: string, badge: string, green: bool, lastSynced: bool)

  function RowOf(s: Service): Row {
    Row(s.name, s.provider + " - " + s.serviceType, StatusText(s.status), BadgeGreen(s.status), Truthy(s.lastSync))
  }

  /** `services.map(...)`: one row per entry, in registry order. */
  function Rows(services: seq<Service>): (rows: seq<Row>)
    ensures |rows| == |services|
    ensures forall i :: 0 <= i < |services| ==> rows[i] == RowOf(services[i])
  {
    seq(|services|, i requires 0 <= i < |services| => RowOf(services[i]))
  }

  /** Adding an entry appends exactly one row, at the end, for the new entry. */
  lemma AddAppendsOneRow(services: seq<Service>, s: NewService, id: string)
    ensures Rows(services + [WithId(s, id)]) == Rows(services) + [RowOf(WithId(s, id))]
  {
  }

  class Page {
    const store: ServicesStore
    var isModalOpen: bool

    constructor (store: ServicesStore)
      ensures this.store == store && !isModalOpen
    {
      this.store := store;
      isModalOpen := false;
    }

    /** The "Add Service" button. */
    method OpenModal()
      modifies this
      ensures isModalOpen
    {
      isModalOpen := true;
    }

    /** `handleAddService`: appends one connected entry under the fresh id `newId`. */
    method HandleAddService(serviceType: string, provider: string, name: string, config: StringRecord,
                            now: string, newId: string)
      modifies store
      ensures store.services == old(store.services) + [WithId(AddedRecord(serviceType, provider, name, config, now), newId)]
    {
      store.AddService(AddedRecord(serviceType, provider, name, config, now), newId);
    }

    /** Delivers one callback of the modal: `onAdd` goes to `handleAddService`, `onClose`
        closes the modal. */
    method Deliver(call: AddServiceModal.Call, now: string, newId: string)
      modifies this, store
      ensures call.OnAdd? ==>
                && isModalOpen == old(isModalOpen)
                && store.services == old(store.services) +
                     [WithId(AddedRecord(call.serviceType, call.provider, call.name, call.config, now), newId)]
      ensures call.OnClose? ==> !isModalOpen && store.services == old(store.services)
    {
      match call
      case OnAdd(t, p, n, c) =>
        HandleAddService(t, p, n, c, now, newId);
      case OnClose =>
        isModalOpen := false;
    }

    /** The Remove button of row `i`: the registry becomes the filter of the old list by that
        row's id, so every entry carrying it leaves and the others keep their order. */
    method RemoveClicked(i: nat)
      requires i < |store.services|
      modifies store
      ensures store.services == RemovedById(old(store.services), old(store.services)[i].id)
      ensures old(store.services)[i] !in store.services
    {
      var id := store.services[i].id;
      store.RemoveService(id);
    }

    /** Typing `name` in the name input of row `i`: the entries carrying that row's id take the
        new name, the row itself among them, and nothing else of them or of any other entry
        changes. */
    method NameEdited(i: nat, name: string)
      requires i < |store.services|
      modifies store
      ensures store.services == UpdatedById(old(store.services), old(store.services)[i].id, NoChanges.(name := Some(name)))
      ensures |store.services| == |old(store.services)|
      ensures store.services[i] == old(store.services)[i].(name := name)
      ensures forall k :: 0 <= k < |store.services| ==>
                store.services[k] == if old(store.services)[k].id == old(store.services)[i].id
                                     then old(store.services)[k].(name := name)
                                     else old(store.services)[k]
    {
      var id := store.services[i].id;
      store.UpdateService(id, NoChanges.(name := Some(name)));
      forall s: Service ensures Merge(s, NoChanges.(name := Some(name))) == s.(name := name) {
        MergeNameOnly(s, name);
      }
    }
  }
}
