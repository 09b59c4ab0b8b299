// The in-memory token storage, the storage that announces its writes with data-update objects, the
// mapping of such an object to the token it is about, and the reconciler that consumes it
// (pkg/spi-shared/tokenstorage/memorystorage/memory.go, notifyingtokenstorage.go,
// controllers/enqueue.go, controllers/spiaccesstokendataupdate_controller.go).
module DataUpdates {
  import opened Core
  import opened Cluster

  const GROUP := "appstudio.redhat.com"
  const TOKEN_KIND := "SPIAccessToken"

  /** `held` says that somebody put a finalizer on the object. */
  datatype DataUpdate = DataUpdate(group: Option<string>, kind: string, owner: string, deleting: bool, held: bool)

  datatype ClusterObject = UpdateObject(ns: string, update: DataUpdate) | OtherObject(ns: string)

  datatype Op = Store(data: Data) | Delete

  // ----- the two halves of a notifying write -----

  function Written(data: map<Key, Data>, owner: Key, op: Op): map<Key, Data> {
    match op
    case Store(d) => data[owner := d]
    case Delete => data - {owner}
  }

  /** What createDataUpdate posts for an owner. */
  function UpdateFor(owner: Key): DataUpdate {
    DataUpdate(Some(GROUP), TOKEN_KIND, owner.name, false, false)
  }

  /** requestForDataUpdateOwner. */
  function RequestForDataUpdateOwner(o: ClusterObject, ownerKind: string): (requests: seq<Key>)
    ensures |requests| <= 1
    ensures forall k :: k in requests <==>
              && o.UpdateObject? && o.update.group == Some(GROUP) && o.update.kind == ownerKind
              && k.ns == o.ns && k.name == o.update.owner
  {
    if o.OtherObject? || o.update.group != Some(GROUP) || o.update.kind != ownerKind then []
    else [Key(o.ns, o.update.owner)]
  }

  /** What is posted for an owner is mapped to exactly that owner, and nothing else is mapped to it. */
  lemma UpdateReachesItsOwner(o: ClusterObject, owner: Key)
    ensures RequestForDataUpdateOwner(UpdateObject(owner.ns, UpdateFor(owner)), TOKEN_KIND) == [owner]
    ensures owner in RequestForDataUpdateOwner(o, TOKEN_KIND)
            <==> o.UpdateObject? && o.ns == owner.ns
                 && o.update.(deleting := false, held := false) == UpdateFor(owner)
  {
  }

  class MemoryTokenStorage {
    var tokens: map<Key, Data>
    var errorOnStore: bool
    var errorOnGet: bool
    var errorOnDelete: bool

    constructor ()
      ensures tokens == map[] && !errorOnStore && !errorOnGet && !errorOnDelete
    {
      tokens, errorOnStore, errorOnGet, errorOnDelete := map[], false, false, false;
    }

    method Store(owner: Key, data: Data) returns (ok: bool)
      modifies `tokens
      ensures ok == !errorOnStore
      ensures tokens == if ok then Written(old(tokens), owner, Op.Store(data)) else old(tokens)
    {
      if errorOnStore {
        return false;
      }
      tokens := tokens[owner := data];
      ok := true;
    }

    method Get(owner: Key) returns (found: Result<Option<Data>, ()>)
      ensures found == if errorOnGet then Err(()) else Ok(if owner in tokens then Some(tokens[owner]) else None)
    {
      if errorOnGet {
        return Err(());
      }
      found := Ok(if owner in tokens then Some(tokens[owner]) else None);
    }

    method Delete(owner: Key) returns (ok: bool)
      modifies `tokens
      ensures ok == !errorOnDelete
      ensures tokens == if ok then Written(old(tokens), owner, Op.Delete) else old(tokens)
    {
      if errorOnDelete {
        return false;
      }
      tokens := tokens - {owner};
      ok := true;
    }
  }

  /** The data-update objects in the cluster. */
  class DataUpdateClient {
    var updates: map<Key, DataUpdate>

    constructor ()
      ensures updates == map[]
    {
      updates := map[];
    }

    /** `name` is the generated name; `None` when the server did not answer. */
    method Create(ns: string, name: Option<string>, update: DataUpdate) returns (ok: bool)
      modifies this
      ensures ok == name.Some?
      ensures updates == if ok then old(updates)[Key(ns, name.value) := update] else old(updates)
    {
      ok := name.Some?;
      if ok {
        updates := updates[Key(ns, name.value) := update];
      }
    }
  }

  class NotifyingTokenStorage {
    const storage: MemoryTokenStorage
    const client: DataUpdateClient

    constructor (storage: MemoryTokenStorage, client: DataUpdateClient)
      ensures this.storage == storage && this.client == client
    {
      this.storage, this.client := storage, client;
    }

    method CreateDataUpdate(owner: Key, name: Option<string>) returns (ok: bool)
      modifies client
      ensures ok == name.Some?
      ensures client.updates
              == if ok then old(client.updates)[Key(owner.ns, name.value) := UpdateFor(owner)] else old(client.updates)
    {
      ok := client.Create(owner.ns, name, DataUpdate(Some(GROUP), TOKEN_KIND, owner.name, false, false));
    }

    /** The data may be written although the call fails, but nothing is posted before the write. */
    method Store(owner: Key, data: Data, name: Option<string>) returns (ok: bool)
      modifies storage`tokens, client
      ensures ok == (!storage.errorOnStore && name.Some?)
      ensures storage.tokens
              == if storage.errorOnStore then old(storage.tokens)
                 else Written(old(storage.tokens), owner, Op.Store(data))
      ensures client.updates
              == if ok then old(client.updates)[Key(owner.ns, name.value) := UpdateFor(owner)] else old(client.updates)
    {
      ok := storage.Store(owner, data);
      if ok {
        ok := CreateDataUpdate(owner, name);
      }
    }

    method Get(owner: Key) returns (found: Result<Option<Data>, ()>)
      ensures found == if storage.errorOnGet then Err(())
                       else Ok(if owner in storage.tokens then Some(storage.tokens[owner]) else None)
    {
      found := storage.Get(owner);
    }

    method Delete(owner: Key, name: Option<string>) returns (ok: bool)
      modifies storage`tokens, client
      ensures ok == (!storage.errorOnDelete && name.Some?)
      ensures storage.tokens
              == if storage.errorOnDelete then old(storage.tokens) else Written(old(storage.tokens), owner, Op.Delete)
      ensures client.updates
              == if ok then old(client.updates)[Key(owner.ns, name.value) := UpdateFor(owner)] else old(client.updates)
    {
      ok := storage.Delete(owner);
      if ok {
        ok := CreateDataUpdate(owner, name);
      }
    }
  }

  // ----- what is read back -----

  datatype Access = Access(owner: Key, op: Op)

  /** What the storage holds after some writes and deletions, by any owners. */
  function WrittenBy(data: map<Key, Data>, accesses: seq<Access>): map<Key, Data> {
    if accesses == [] then data
    else
      var last := accesses[|accesses| - 1];
      Written(WrittenBy(data, accesses[..|accesses| - 1]), last.owner, last.op)
  }

  /** Nothing was done for the owner from i on. */
  predicate UntouchedFrom(accesses: seq<Access>, i: nat, owner: Key) {
    forall j :: i <= j < |accesses| ==> accesses[j].owner != owner
  }

  /** What is done for other owners makes no difference. */
  lemma {:induction false} UntouchedIsKept(data: map<Key, Data>, accesses: seq<Access>, owner: Key)
    requires UntouchedFrom(accesses, 0, owner)
    ensures var after := WrittenBy(data, accesses);
            (owner in after <==> owner in data) && (owner in data ==> after[owner] == data[owner])
  {
    if accesses != [] {
      UntouchedIsKept(data, accesses[..|accesses| - 1], owner);
    }
  }

  /** What is read for an owner is the data that was stored for it last, and nothing once it was deleted. */
  lemma {:induction false} LastWriteIsRead(data: map<Key, Data>, accesses: seq<Access>, i: nat)
    requires i < |accesses| && UntouchedFrom(accesses, i + 1, accesses[i].owner)
    ensures var after, owner := WrittenBy(data, accesses), accesses[i].owner;
            match accesses[i].op
            case Store(d) => owner in after && after[owner] == d
            case Delete => owner !in after
  {
    var before := accesses[..|accesses| - 1];
    if i < |before| {
      LastWriteIsRead(data, before, i);
      assert accesses[|before|].owner != accesses[i].owner;
    }
  }

  // ----- the reconciler of the data updates -----

  datatype Consumed = Consumed(updates: map<Key, DataUpdate>, done: bool)

  /** An update is deleted as soon as it is seen; it stays, marked, for as long as it is held. */
  function Consume(updates: map<Key, DataUpdate>, k: Key, getOk: bool, deleteOk: bool): Consumed {
    if !getOk then Consumed(updates, false)
    else if k !in updates || updates[k].deleting then Consumed(updates, true)
    else if !deleteOk then Consumed(updates, false)
    else if updates[k].held then Consumed(updates[k := updates[k].(deleting := true)], true)
    else Consumed(updates - {k}, true)
  }

  /** Consuming takes an update away or marks it, and changes no other. */
  lemma ConsumeOnlyMarks(updates: map<Key, DataUpdate>, k: Key, getOk: bool, deleteOk: bool)
    ensures var after := Consume(updates, k, getOk, deleteOk).updates;
            && after - {k} == updates - {k}
            && forall j :: j in after ==> j in updates && after[j] == updates[j].(deleting := after[j].deleting)
  {
  }

  class DataUpdateReconciler {
    const client: DataUpdateClient

    constructor (client: DataUpdateClient)
      ensures this.client == client
    {
      this.client := client;
    }

    method Reconcile(k: Key, getOk: bool, deleteOk: bool) returns (done: bool)
      modifies client
      ensures Consumed(client.updates, done) == Consume(old(client.updates), k, getOk, deleteOk)
    {
      if !getOk {
        return false;
      }
      if k !in client.updates {
        return true;
      }
      var update := client.updates[k];
      if update.deleting {
        return true;
      }
      if !deleteOk {
        return false;
      }
      if update.held {
        client.updates := client.updates[k := update.(deleting := true)];
      } else {
        client.updates := client.updates - {k};
      }
      done := true;
    }
  }

  // ----- which bindings an update wakes up -----

  /** A binding as it is listed: its key and the linked token in its status. */
  datatype Listed = Listed(key: Key, linked: string)

  /** filteredBindingsAsRequests, for the bindings that are linked to a token. */
  method FilteredBindingsAsRequests(items: seq<Listed>, token: string) returns (requests: seq<Key>)
    ensures forall k :: k in requests <==> exists i :: 0 <= i < |items| && items[i].linked == token && items[i].key == k
    ensures |requests| <= |items|
  {
    requests := [];
    for i := 0 to |items|
      invariant |requests| <= i
      invariant forall k :: k in requests <==> exists j :: 0 <= j < i && items[j].linked == token && items[j].key == k
    {
      if items[i].linked == token {
        requests := requests + [items[i].key];
      }
    }
  }
}
