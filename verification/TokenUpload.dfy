// The upload controller (controllers/tokenupload_controller.go): a labelled secret carries token
// data that is moved to the token storage. Reading the token and storing its data is one step.
module TokenUpload {
  import opened Core
  import opened Cluster
  import Perms = Permissions

  datatype UploadEnv = UploadEnv(
    getOk: bool, deleteOk: bool, tokenGetOk: bool, createOk: bool, newName: string,
    storeOk: bool, notifyOk: bool, eventGetOk: bool, eventDeleteOk: bool, eventCreateOk: bool)

  const NO_PERMISSIONS := Perms.Permissions([], [])

  datatype Uploaded = Uploaded(world: World, ok: bool)

  /** Deleting a secret leaves it there, marked, for as long as somebody's finalizer is on it. */
  function WithoutSecret(w: World, k: Key): World
    requires k in w.uploads
  {
    if w.uploads[k].held then w.(uploads := w.uploads[k := w.uploads[k].(deleting := true)])
    else w.(uploads := w.uploads - {k})
  }

  /** A notifying store: the data may be written although the notification, and so the call, fails. */
  function StoreData(w: World, token: Key, data: Data, e: UploadEnv): Uploaded {
    Uploaded(if e.storeOk then w.(storage := w.storage[token := data]) else w, e.storeOk && e.notifyOk)
  }

  /** The token the secret names, or one with a generated name. */
  function TargetOf(k: Key, u: UploadSecret, e: UploadEnv): Key {
    Key(k.ns, if u.tokenName == "" then e.newName else u.tokenName)
  }

  function UploadToken(w: World, k: Key, u: UploadSecret, e: UploadEnv): Uploaded {
    var token := TargetOf(k, u, e);
    if u.tokenName != "" && !e.tokenGetOk then Uploaded(w, false)
    else if u.tokenName != "" && token in w.tokens then StoreData(w, token, u.data, e)
    else if !e.createOk then Uploaded(w, false)
    else
      StoreData(w.(tokens := w.tokens[token := NewToken(w.now, u.url, NO_PERMISSIONS)]), token, u.data, e)
  }

  /** Only secrets labelled as token uploads are understood. */
  function Process(w: World, k: Key, u: UploadSecret, e: UploadEnv): Uploaded {
    if u.isToken then UploadToken(w, k, u, e) else Uploaded(w, false)
  }

  function TryDeleteEvent(w: World, k: Key, e: UploadEnv): World {
    if e.eventGetOk && e.eventDeleteOk then w.(events := w.events - {k}) else w
  }

  function CreateErrorEvent(w: World, k: Key, e: UploadEnv): World {
    var w1 := TryDeleteEvent(w, k, e);
    if e.eventCreateOk then w1.(events := w1.events + {k}) else w1
  }

  function Report(up: Uploaded, k: Key, e: UploadEnv): World {
    if up.ok then TryDeleteEvent(up.world, k, e) else CreateErrorEvent(up.world, k, e)
  }

  /** One atomic reconcile of the upload secret k. */
  function ReconcileUpload(w: World, k: Key, e: UploadEnv): Reconciled {
    if !e.getOk then Reconciled(w, Retry)
    else if k !in w.uploads || w.uploads[k].deleting then Reconciled(w, Finished)
    else if !e.deleteOk then Reconciled(w, Retry)
    else
      Reconciled(Report(Process(WithoutSecret(w, k), k, w.uploads[k], e), k, e), Finished)
  }

  class TokenUploadReconciler {
    const api: ApiServer

    constructor (api: ApiServer)
      ensures this.api == api
    {
      this.api := api;
    }

    method DeleteEvent(k: Key, e: UploadEnv)
      modifies api`events
      ensures api.View() == TryDeleteEvent(old(api.View()), k, e)
    {
      if e.eventGetOk && k in api.events && e.eventDeleteOk {
        api.events := api.events - {k};
      }
      assert e.eventGetOk && e.eventDeleteOk ==> api.events == old(api.events) - {k};
    }

    method FailWithEvent(k: Key, e: UploadEnv)
      modifies api`events
      ensures api.View() == CreateErrorEvent(old(api.View()), k, e)
    {
      DeleteEvent(k, e);
      if e.eventCreateOk {
        api.events := api.events + {k};
      }
    }

    /** findSpiAccessToken: an error, no token, or the token. */
    method FindSpiAccessToken(k: Key, u: UploadSecret, e: UploadEnv) returns (found: Result<Option<Key>, ()>)
      ensures found == if u.tokenName == "" then Ok(None)
                       else if !e.tokenGetOk then Err(())
                       else if Key(k.ns, u.tokenName) in api.tokens then Ok(Some(Key(k.ns, u.tokenName)))
                       else Ok(None)
    {
      if u.tokenName == "" {
        return Ok(None);
      }
      if !e.tokenGetOk {
        return Err(());
      }
      found := Ok(if Key(k.ns, u.tokenName) in api.tokens then Some(Key(k.ns, u.tokenName)) else None);
    }

    method ReconcileToken(k: Key, u: UploadSecret, e: UploadEnv) returns (ok: bool)
      modifies api`tokens, api`storage
      ensures Uploaded(api.View(), ok) == UploadToken(old(api.View()), k, u, e)
    {
      var found := FindSpiAccessToken(k, u, e);
      if found.Err? {
        return false;
      }
      var token := TargetOf(k, u, e);
      if found.value.None? {
        if !e.createOk {
          return false;
        }
        api.tokens := api.tokens[token := NewToken(api.now, u.url, NO_PERMISSIONS)];
      }
      if !e.storeOk {
        return false;
      }
      api.storage := api.storage[token := u.data];
      ok := e.notifyOk;
    }

    method Reconcile(k: Key, e: UploadEnv) returns (result: Ending)
      modifies api
      ensures Reconciled(api.View(), result) == ReconcileUpload(old(api.View()), k, e)
    {
      if !e.getOk {
        return Retry;
      }
      if k !in api.uploads || api.uploads[k].deleting {
        return Finished;
      }
      if !e.deleteOk {
        return Retry;
      }
      var u := api.uploads[k];
      if u.held {
        api.uploads := api.uploads[k := u.(deleting := true)];
      } else {
        api.uploads := api.uploads - {k};
      }
      var ok := false;
      if u.isToken {
        ok := ReconcileToken(k, u, e);
      }
      if ok {
        DeleteEvent(k, e);
      } else {
        FailWithEvent(k, e);
      }
      result := Finished;
    }
  }

  // ----- what the upload promises -----

  /** Did this pass take the secret up? */
  predicate TakesUp(w: World, k: Key, e: UploadEnv) {
    e.getOk && k in w.uploads && !w.uploads[k].deleting && e.deleteOk
  }

  /** Nothing but the token and its data changes, and the token is only created, never altered. */
  predicate OnlyConcerns(w: World, w': World, token: Key) {
    && (token in w.tokens ==> w'.tokens == w.tokens)
    && (token !in w.tokens ==> w'.tokens - {token} == w.tokens)
    && w'.storage - {token} == w.storage - {token}
    && w'.bindings == w.bindings && w'.dependents == w.dependents
  }

  /** Data that got through is what the storage holds for a token that exists. */
  lemma ProcessEffect(w: World, k: Key, u: UploadSecret, e: UploadEnv)
    requires e.newName != "" && Key(k.ns, e.newName) !in w.tokens
    ensures var up := Process(w, k, u, e);
            var token := TargetOf(k, u, e);
            && OnlyConcerns(w, up.world, token) && up.world.events == w.events && up.world.uploads == w.uploads
            && (up.ok ==> token in up.world.tokens && token in up.world.storage && up.world.storage[token] == u.data)
  {
    var token := TargetOf(k, u, e);
    assert token !in w.tokens ==>
             w.tokens[token := NewToken(w.now, u.url, NO_PERMISSIONS)] - {token} == w.tokens;
    assert w.storage[token := u.data] - {token} == w.storage - {token};
  }

  lemma ReportEffect(up: Uploaded, k: Key, e: UploadEnv)
    ensures var w' := Report(up, k, e);
            && w' == up.world.(events := w'.events) && w'.events - {k} == up.world.events - {k}
            && (e.eventGetOk && e.eventDeleteOk && e.eventCreateOk ==> (k in w'.events <==> !up.ok))
  {
  }

  lemma TakenUpSecretIsIgnored(w: World, k: Key, e: UploadEnv)
    requires k !in w.uploads || w.uploads[k].deleting
    ensures ReconcileUpload(w, k, e).world == w
  {
  }

  lemma OnlyConcernsExtends(w: World, w1: World, w2: World, w': World, token: Key)
    requires w1 == w.(uploads := w1.uploads) && OnlyConcerns(w1, w2, token) && w' == w2.(events := w'.events)
    ensures OnlyConcerns(w, w', token)
  {
  }

  /** The secret is understood, its token is there or can be created, and storing and announcing succeed. */
  predicate GetsThrough(w: World, u: UploadSecret, token: Key, e: UploadEnv) {
    && u.isToken && e.storeOk && e.notifyOk && (u.tokenName != "" ==> e.tokenGetOk)
    && (u.tokenName == "" || token !in w.tokens ==> e.createOk)
  }

  /** A token that the upload created is for the URL of the secret and asks for no permissions. */
  predicate CreatedFor(w: World, w': World, u: UploadSecret, token: Key) {
    token !in w.tokens && token in w'.tokens ==>
      var t := w'.tokens[token];
      && t.url == u.url && t.permissions.required == [] && t.permissions.additionalScopes == []
      && t.created == w.now && !t.deleting && t.status == NEW_TOKEN_STATUS
  }

  lemma ProcessGetsThrough(w: World, k: Key, u: UploadSecret, e: UploadEnv)
    requires e.newName != "" && Key(k.ns, e.newName) !in w.tokens
    ensures var up, token := Process(w, k, u, e), TargetOf(k, u, e);
            (up.ok <==> GetsThrough(w, u, token, e)) && CreatedFor(w, up.world, u, token)
  {
  }

  /**
   Main result: a secret is taken up at most once, whatever fails; the pass that takes it up leaves
   an event for it exactly when the data did not get through, if events can be written; and data
   that got through is what the storage holds for a token that exists, the one named or a new one.
   No other token and no other data is touched.
   */
  lemma UploadOnce(w: World, k: Key, e: UploadEnv)
    requires e.newName != "" && Key(k.ns, e.newName) !in w.tokens
    requires TakesUp(w, k, e)
    ensures var u, w' := w.uploads[k], ReconcileUpload(w, k, e).world;
            var token := Key(k.ns, if u.tokenName == "" then e.newName else u.tokenName);
            var through := GetsThrough(w, u, token, e);
            && (k !in w'.uploads || w'.uploads[k].deleting)
            && (e.eventGetOk && e.eventDeleteOk && e.eventCreateOk ==> (k in w'.events <==> !through))
            && w'.events - {k} == w.events - {k}
            && (through ==> token in w'.tokens && token in w'.storage && w'.storage[token] == u.data)
            && OnlyConcerns(w, w', token) && CreatedFor(w, w', u, token)
  {
    var w1 := WithoutSecret(w, k);
    var up := Process(w1, k, w.uploads[k], e);
    ProcessEffect(w1, k, w.uploads[k], e);
    ProcessGetsThrough(w1, k, w.uploads[k], e);
    ReportEffect(up, k, e);
    OnlyConcernsExtends(w, w1, up.world, Report(up, k, e), TargetOf(k, w.uploads[k], e));
  }
}
