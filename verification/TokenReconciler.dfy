// The SPIAccessToken controller (controllers/spiaccesstoken_controller.go): first what one atomic
// reconcile does to the world, stage by stage, then the reconciler that does it in place.
module TokenReconciler {
  import opened Core
  import opened MetadataCache
  import opened Cluster

  /** Everything a reconcile of a token meets. The `Ok` flags say which calls succeed. */
  datatype TokenEnv = TokenEnv(
    getOk: bool, listOk: bool, storageDeleteOk: bool, finalizersOk: bool, deleteOk: bool,
    storageGetOk: bool, provider: ProviderOutcome, validation: Validation,
    policy: Policy, encounter: Encounter, labelsOk: bool, oauthUrl: Option<string>, statusOk: bool,
    refreshGetOk: bool, refreshed: Option<Data>, storeOk: bool, unlabelOk: bool)

  // ----- finalizers -----

  /** Does the pass over the registered finalizers succeed for a token being deleted? */
  predicate FinalizersSucceed(w: World, k: Key, e: TokenEnv)
    requires k in w.tokens
  {
    && (LinkedBindings in w.tokens[k].finalizers ==> e.listOk && !HasLinkedBindings(w, k))
    && (TokenStorage in w.tokens[k].finalizers ==> e.storageDeleteOk)
  }

  /** The data deletion runs whether or not the link check succeeds. */
  function AfterFinalizers(w: World, k: Key, e: TokenEnv): World
    requires k in w.tokens
  {
    if TokenStorage in w.tokens[k].finalizers && e.storageDeleteOk then w.(storage := w.storage - {k}) else w
  }

  function FinalizeDeleted(w: World, k: Key, e: TokenEnv): Reconciled
    requires k in w.tokens
  {
    var t := w.tokens[k];
    var w1 := AfterFinalizers(w, k, e);
    if !FinalizersSucceed(w, k, e) then Reconciled(w1, Retry)
    else if t.finalizers * TOKEN_FINALIZERS == {} then Reconciled(w1, Finished)
    else if e.finalizersOk then
      Reconciled(UpdateToken(w1, k, t.(finalizers := t.finalizers - TOKEN_FINALIZERS)), Finished)
    else Reconciled(w1, Retry)
  }

  // ----- status -----

  function UploadUrl(c: Configuration, k: Key): string {
    c.baseUrl + "/token/" + k.ns + "/" + k.name
  }

  predicate HasUser(s: TokenStatus) {
    s.metadata.Some? && s.metadata.value.username != ""
  }

  /** fillInStatus followed by clearing the error. */
  function SuccessStatus(c: Configuration, k: Key, s: TokenStatus, oauthUrl: string): TokenStatus {
    TokenStatus(if HasUser(s) then Ready else AwaitingTokenData, NoTokenReason,
                if HasUser(s) then "" else oauthUrl, UploadUrl(c, k), s.metadata)
  }

  /** flipToExceptionalPhase: the rest of the status in memory is written along. */
  function Flip(w: World, k: Key, s: TokenStatus, phase: TokenPhase, reason: TokenReason, e: TokenEnv,
      r: Ending): Reconciled
    requires k in w.tokens
  {
    if e.statusOk then Reconciled(UpdateTokenStatus(w, k, s.(phase := phase, reason := reason)), r)
    else Reconciled(w, Retry)
  }

  // ----- the stages of a reconcile, last to first -----

  function RequeueDelay(w: World, c: Configuration, created: int): int {
    created + c.tokenTtl + c.grace - w.now
  }

  /** A token labelled for it gets its data refreshed; then the next visit is scheduled. */
  function RefreshAndFinish(w: World, c: Configuration, k: Key, e: TokenEnv): Reconciled
    requires k in w.tokens && !w.tokens[k].deleting
  {
    var t := w.tokens[k];
    if t.refreshLabel != "true" then Reconciled(w, RequeueAfter(RequeueDelay(w, c, t.created)))
    else if !e.refreshGetOk || e.refreshed.None? || !e.storeOk then Reconciled(w, Retry)
    else
      var w1 := w.(storage := w.storage[k := e.refreshed.value]);
      if !e.unlabelOk then Reconciled(w1, Retry)
      else Reconciled(UpdateToken(w1, k, t.(refreshLabel := "")), RequeueAfter(RequeueDelay(w, c, t.created)))
  }

  function EnsuredLabels(c: Configuration, t: Token, providerName: string): Token {
    var t1 := t.(providerLabel := providerName);
    if t.url == "" || c.host(t.url).None? then t1 else t1.(hostLabel := c.host(t.url).value)
  }

  function SucceedWith(w: World, c: Configuration, k: Key, s: TokenStatus, e: TokenEnv): Reconciled
    requires k in w.tokens && !w.tokens[k].deleting
  {
    if !HasUser(s) && e.oauthUrl.None? then Reconciled(w, Retry)
    else if !e.statusOk then Reconciled(w, Retry)
    else
      var oauthUrl := if e.oauthUrl.Some? then e.oauthUrl.value else "";
      RefreshAndFinish(UpdateTokenStatus(w, k, SuccessStatus(c, k, s, oauthUrl)), c, k, e)
  }

  /**
   When the labels change, the update brings the stored status back into memory, so what the
   success status is filled from is the stored metadata.
   */
  function LabelAndSucceed(w: World, c: Configuration, k: Key, s: TokenStatus, providerName: string,
      e: TokenEnv): Reconciled
    requires k in w.tokens && !w.tokens[k].deleting
  {
    var t := w.tokens[k];
    var labelled := EnsuredLabels(c, t, providerName);
    if labelled == t then SucceedWith(w, c, k, s, e)
    else if !e.labelsOk then Reconciled(w, Retry)
    else
      SucceedWith(UpdateToken(w, k, labelled), c, k, t.status, e)
  }

  /** PersistMetadata: the status in memory has no metadata once it is found stale. */
  function Persist(w: World, c: Configuration, k: Key, s: TokenStatus, providerName: string, e: TokenEnv): Reconciled
    requires k in w.tokens && !w.tokens[k].deleting
  {
    match Decide(e.policy, s.metadata, e.encounter)
    case Serve => LabelAndSucceed(w, c, k, s, providerName, e)
    case NothingThere => LabelAndSucceed(w, c, k, s.(metadata := None), providerName, e)
    case FetchFailed(InvalidAccessToken) =>
      Flip(w, k, s.(metadata := None), Invalid, MetadataFailure, e, Finished)
    case FetchFailed(OtherError) =>
      Flip(w, k, s.(metadata := None), Error, MetadataFailure, e, Retry)
    case Write(m) =>
      var s1 := s.(metadata := m);
      if e.encounter.persistOk then LabelAndSucceed(UpdateTokenStatus(w, k, s1), c, k, s1, providerName, e)
      else Flip(w, k, s1, Error, MetadataFailure, e, Retry)
  }

  function CheckProvider(w: World, c: Configuration, k: Key, s: TokenStatus, e: TokenEnv): Reconciled
    requires k in w.tokens && !w.tokens[k].deleting
  {
    match e.provider
    case InvalidConfiguration => Flip(w, k, s, Error, UnsupportedServiceProviderConfiguration, e, Finished)
    case Unknown => Flip(w, k, s, Error, UnknownServiceProvider, e, Finished)
    case Found(name, _) =>
      match e.validation
      case ValidationFailed => Reconciled(w, Retry)
      case InvalidScopes => Flip(w, k, s, Invalid, UnsupportedTokenPermissions, e, Finished)
      case Valid => Persist(w, c, k, s, name, e)
  }

  /** reconcileTokenData: metadata of a Ready token without data is cleared in memory. */
  function CheckData(w: World, c: Configuration, k: Key, e: TokenEnv): Reconciled
    requires k in w.tokens && !w.tokens[k].deleting
  {
    var s := w.tokens[k].status;
    if s.metadata.Some? && s.phase == Ready then
      if !e.storageGetOk then Reconciled(w, Retry)
      else CheckProvider(w, c, k, if k in w.storage then s else s.(metadata := None), e)
    else CheckProvider(w, c, k, s, e)
  }

  predicate Overdue(w: World, c: Configuration, k: Key)
    requires k in w.tokens
  {
    var t := w.tokens[k];
    var age := w.now - t.created;
    age > c.tokenTtl || (t.status.phase == AwaitingTokenData && age > c.grace)
  }

  function CheckLifetime(w: World, c: Configuration, k: Key, e: TokenEnv): Reconciled
    requires k in w.tokens && !w.tokens[k].deleting
  {
    if !Overdue(w, c, k) then CheckData(w, c, k, e)
    else if !e.listOk then Reconciled(w, Retry)
    else if HasLinkedBindings(w, k) then CheckData(w, c, k, e)
    else if e.deleteOk then Reconciled(DeleteToken(w, k), Finished)
    else Reconciled(w, Retry)
  }

  /** One atomic reconcile of the token k. */
  function ReconcileToken(w: World, c: Configuration, k: Key, e: TokenEnv): Reconciled {
    if !e.getOk then Reconciled(w, Retry)
    else if k !in w.tokens then Reconciled(w, Finished)
    else if w.tokens[k].deleting then FinalizeDeleted(w, k, e)
    else if TOKEN_FINALIZERS <= w.tokens[k].finalizers then CheckLifetime(w, c, k, e)
    else if !e.finalizersOk then Reconciled(w, Retry)
    else
      var t := w.tokens[k];
      CheckLifetime(UpdateToken(w, k, t.(finalizers := t.finalizers + TOKEN_FINALIZERS)), c, k, e)
  }

  // ----- the reconciler -----

  class Reconciler {
    const api: ApiServer
    const config: Configuration

    constructor (api: ApiServer, config: Configuration)
      ensures this.api == api && this.config == config
    {
      this.api, this.config := api, config;
    }

    /** The pass over the registered finalizers. */
    method Finalize(k: Key, at: TokenObject, e: TokenEnv) returns (ok: bool, updated: bool)
      requires k in api.tokens && api.tokens[k] == at.it
      modifies api, at
      ensures !old(at.it).deleting ==>
                && ok && api.View() == old(api.View())
                && at.it == old(at.it).(finalizers := old(at.it).finalizers + TOKEN_FINALIZERS)
                && updated == !(TOKEN_FINALIZERS <= old(at.it).finalizers)
      ensures old(at.it).deleting ==>
                && ok == FinalizersSucceed(old(api.View()), k, e)
                && api.View() == AfterFinalizers(old(api.View()), k, e)
                && (ok ==> at.it == old(at.it).(finalizers := old(at.it).finalizers - TOKEN_FINALIZERS))
                && (ok ==> updated == (old(at.it).finalizers * TOKEN_FINALIZERS != {}))
    {
      ok, updated := true, false;
      if !at.it.deleting {
        if LinkedBindings !in at.it.finalizers {
          at.it := at.it.(finalizers := at.it.finalizers + {LinkedBindings});
          updated := true;
        }
        if TokenStorage !in at.it.finalizers {
          at.it := at.it.(finalizers := at.it.finalizers + {TokenStorage});
          updated := true;
        }
      } else {
        if LinkedBindings in at.it.finalizers {
          var linked := api.ListHasLinkedBindings(k);
          if e.listOk && !linked {
            at.it := at.it.(finalizers := at.it.finalizers - {LinkedBindings});
            updated := true;
          } else {
            ok := false;
          }
        }
        if TokenStorage in at.it.finalizers {
          if e.storageDeleteOk {
            api.storage := api.storage - {k};
            at.it := at.it.(finalizers := at.it.finalizers - {TokenStorage});
            updated := true;
          } else {
            ok := false;
          }
        }
      }
    }

    method FlipToExceptionalPhase(k: Key, at: TokenObject, phase: TokenPhase, reason: TokenReason, e: TokenEnv)
      returns (ok: bool)
      requires k in api.tokens
      modifies api, at
      ensures ok == e.statusOk
      ensures Reconciled(api.View(), Finished)
              == (if ok then Flip(old(api.View()), k, old(at.it.status), phase, reason, e, Finished)
                  else Reconciled(old(api.View()), Finished))
    {
      at.it := at.it.(status := at.it.status.(phase := phase, reason := reason));
      ok := api.SendTokenStatus(k, at, e.statusOk);
    }

    /** Only asks the storage when the status leads to expect data there. */
    method ReconcileTokenData(k: Key, at: TokenObject, e: TokenEnv) returns (ok: bool)
      modifies at
      ensures var s := old(at.it.status);
              var expected := s.metadata.Some? && s.phase == Ready;
              && ok == (expected ==> e.storageGetOk)
              && (ok ==> at.it == old(at.it).(status :=
                    if expected && k !in api.storage then s.(metadata := None) else s))
    {
      if at.it.status.metadata.Some? && at.it.status.phase == Ready {
        if !e.storageGetOk {
          return false;
        }
        if k !in api.storage {
          at.it := at.it.(status := at.it.status.(metadata := None));
        }
      }
      ok := true;
    }

    /** sp.PersistMetadata by way of MetadataCache.Ensure. */
    method EnsureMetadata(k: Key, at: TokenObject, e: TokenEnv) returns (failure: Option<FetchError>)
      requires k in api.tokens
      modifies api, at
      ensures var s := old(at.it.status);
              match Decide(e.policy, s.metadata, e.encounter)
              case Serve => failure == None && api.View() == old(api.View()) && at.it == old(at.it)
              case NothingThere =>
                && failure == None && api.View() == old(api.View())
                && at.it == old(at.it).(status := s.(metadata := None))
              case FetchFailed(error) =>
                && failure == Some(error) && api.View() == old(api.View())
                && at.it == old(at.it).(status := s.(metadata := None))
              case Write(m) =>
                if e.encounter.persistOk then
                  && failure == None
                  && api.View() == UpdateTokenStatus(old(api.View()), k, s.(metadata := m))
                  && at.it == old(api.tokens[k]).(status := s.(metadata := m))
                else
                  && failure == Some(OtherError) && api.View() == old(api.View())
                  && at.it == old(at.it).(status := s.(metadata := m))
    {
      var metadata := at.it.status.metadata;
      var cell := new TokenMetadataCell.Of(metadata, api.tokens[k].status.metadata);
      var cache := new Cache(e.policy);
      var ok := cache.Ensure(cell, e.encounter);
      at.it := at.it.(status := at.it.status.(metadata := cell.memory));
      match Decide(e.policy, metadata, e.encounter)
      case Write(_) =>
        // the write of the cache is one of the whole status
        ok := api.SendTokenStatus(k, at, ok);
        failure := if ok then None else Some(OtherError);
      case FetchFailed(error) => failure := Some(error);
      case _ => failure := None;
    }

    method EnsureLabels(at: TokenObject, providerName: string) returns (changed: bool)
      modifies at
      ensures at.it == EnsuredLabels(config, old(at.it), providerName)
      ensures changed == (at.it != old(at.it))
    {
      changed := false;
      if at.it.providerLabel != providerName {
        at.it := at.it.(providerLabel := providerName);
        changed := true;
      }
      if |at.it.url| > 0 {
        var host := config.host(at.it.url);
        if host.Some? && at.it.hostLabel != host.value {
          at.it := at.it.(hostLabel := host.value);
          changed := true;
        }
      }
    }

    method UpdateTokenStatusSuccess(k: Key, at: TokenObject, e: TokenEnv) returns (ok: bool)
      requires k in api.tokens
      modifies api, at
      ensures var s := old(at.it.status);
              && ok == ((HasUser(s) || e.oauthUrl.Some?) && e.statusOk)
              && (if ok then
                    var oauthUrl := if e.oauthUrl.Some? then e.oauthUrl.value else "";
                    && api.View() == UpdateTokenStatus(old(api.View()), k, SuccessStatus(config, k, s, oauthUrl))
                    && at.it == api.tokens[k]
                  else api.View() == old(api.View()))
    {
      var s := at.it.status;
      if s.metadata.None? || s.metadata.value.username == "" {
        if e.oauthUrl.None? {
          return false;
        }
        s := s.(oauthUrl := e.oauthUrl.value, phase := AwaitingTokenData);
      } else {
        s := s.(phase := Ready, oauthUrl := "");
      }
      s := s.(uploadUrl := UploadUrl(config, k));
      at.it := at.it.(status := s.(reason := NoTokenReason));
      ok := api.SendTokenStatus(k, at, e.statusOk);
    }

    method RefreshToken(k: Key, e: TokenEnv) returns (ok: bool)
      modifies api`storage
      ensures ok == (e.refreshGetOk && e.refreshed.Some? && e.storeOk)
      ensures api.storage == if ok then old(api.storage)[k := e.refreshed.value] else old(api.storage)
    {
      if !e.refreshGetOk || e.refreshed.None? || !e.storeOk {
        return false;
      }
      api.storage := api.storage[k := e.refreshed.value];
      ok := true;
    }

    /** The tail of Reconcile, once the metadata is persisted. */
    method FinishReconcile(k: Key, at: TokenObject, providerName: string, e: TokenEnv) returns (result: Ending)
      requires k in api.tokens && !at.it.deleting
      requires at.it == api.tokens[k].(status := at.it.status)
      modifies api, at
      ensures Reconciled(api.View(), result)
              == LabelAndSucceed(old(api.View()), config, k, old(at.it.status), providerName, e)
    {
      var changed := EnsureLabels(at, providerName);
      if changed {
        assert EnsuredLabels(config, api.tokens[k], providerName) == UpdatedToken(api.View(), k, at.it);
        var ok := api.SendToken(k, at, e.labelsOk);
        if !ok {
          return Retry;
        }
      }
      var ok := UpdateTokenStatusSuccess(k, at, e);
      if !ok {
        return Retry;
      }
      if at.it.refreshLabel == "true" {
        ok := RefreshToken(k, e);
        if !ok {
          return Retry;
        }
        at.it := at.it.(refreshLabel := "");
        ok := api.SendToken(k, at, e.unlabelOk);
        if !ok {
          return Retry;
        }
      }
      result := RequeueAfter(at.it.created + config.tokenTtl + config.grace - api.now);
    }

    /** Reconcile from the token data check on. */
    method ReconcileLiveToken(k: Key, at: TokenObject, e: TokenEnv) returns (result: Ending)
      requires k in api.tokens && !at.it.deleting && at.it == api.tokens[k]
      modifies api, at
      ensures Reconciled(api.View(), result) == CheckData(old(api.View()), config, k, e)
    {
      var ok := ReconcileTokenData(k, at, e);
      if !ok {
        return Retry;
      }
      match e.provider
      case InvalidConfiguration =>
        ok := FlipToExceptionalPhase(k, at, Error, UnsupportedServiceProviderConfiguration, e);
        return if ok then Finished else Retry;
      case Unknown =>
        ok := FlipToExceptionalPhase(k, at, Error, UnknownServiceProvider, e);
        return if ok then Finished else Retry;
      case Found(name, _) =>
        if e.validation == ValidationFailed {
          return Retry;
        }
        if e.validation == InvalidScopes {
          ok := FlipToExceptionalPhase(k, at, Invalid, UnsupportedTokenPermissions, e);
          return if ok then Finished else Retry;
        }
        var failure := EnsureMetadata(k, at, e);
        if failure == Some(InvalidAccessToken) {
          ok := FlipToExceptionalPhase(k, at, Invalid, MetadataFailure, e);
          return if ok then Finished else Retry;
        } else if failure.Some? {
          ok := FlipToExceptionalPhase(k, at, Error, MetadataFailure, e);
          return Retry;
        }
        result := FinishReconcile(k, at, name, e);
    }

    method Reconcile(k: Key, e: TokenEnv) returns (result: Ending)
      modifies api
      ensures Reconciled(api.View(), result) == ReconcileToken(old(api.View()), config, k, e)
    {
      if !e.getOk {
        return Retry;
      }
      if k !in api.tokens {
        return Finished;
      }
      var at := new TokenObject(api.tokens[k]);
      var ok, updated := Finalize(k, at, e);
      if !ok {
        return Retry;
      }
      if updated {
        ok := api.SendToken(k, at, e.finalizersOk);
        if !ok {
          return Retry;
        }
      }
      if at.it.deleting {
        return Finished;
      }
      var age := api.now - at.it.created;
      if age > config.tokenTtl || (at.it.status.phase == AwaitingTokenData && age > config.grace) {
        if !e.listOk {
          return Retry;
        }
        var linked := api.ListHasLinkedBindings(k);
        if !linked {
          ok := api.RemoveToken(k, e.deleteOk);
          return if ok then Finished else Retry;
        }
      }
      result := ReconcileLiveToken(k, at, e);
    }
  }
}
