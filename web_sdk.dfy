/**
 * The `WebSdk` coordinator of sdk/src/web_sdk/index.ts: it links a wallet provider to an
 * Sdk, owns one `AppInitStatus` record and emits a snapshot of it on every transition.
 *
 * The wallet, the `EthProvider` wrapping it and the Sdk are abstract state: the wallet's
 * current chain id and account, whether an `EthProvider` and an Sdk object have been made and
 * are still alive, the accounts the Sdk has users for, and the Sdk's local chain id. Each
 * event handler runs as one atomic step.
 */
module WebSdk {
  import opened Wrappers
  import opened AppInit
  import opened InitSpec

  /** The result of `accountChanged`: resolved, or rejected with its error. */
  datatype Outcome = Ok | Err(error: InitError)

  class WebSdk {
    /** `initStatus` and the snapshots emitted as APPEVENT_UPDATED_INIT_STATE, oldest first. */
    var initStatus: AppInitStatus
    var events: seq<AppInitStatus>

    /** The wallet given to the constructor, as `ethProvider.getChainId()`/`getAccount()` see it. */
    var providerChainId: int
    var providerAccount: Option<EthAddress>

    /** `this.ethProvider` is set / not yet destroyed / carries the account and network listeners. */
    var hasEthProvider: bool
    var ethProviderAlive: bool
    var listening: bool

    /** `this.sdk` is set (with its event handlers) / not yet destroyed; its users and chain id. */
    var hasSdk: bool
    var sdkAlive: bool
    var users: set<EthAddress>
    var localChainId: int

    /** `chainIdToNetwork`, the name of a chain. */
    const chainIdToNetwork: int -> string

    ghost predicate Valid()
      reads this
    {
      (sdkAlive ==> hasSdk) &&
      (ethProviderAlive ==> hasEthProvider) &&
      (listening ==> hasSdk && hasEthProvider) &&
      Reflects(initStatus, events)
    }

    constructor (chainId: int, account: Option<EthAddress>, chainIdToNetwork: int -> string)
      ensures Valid()
      ensures initStatus == InitialStatus && events == []
      ensures providerChainId == chainId && providerAccount == account
      ensures !hasEthProvider && !ethProviderAlive && !listening && !hasSdk && !sdkAlive && users == {}
      ensures this.chainIdToNetwork == chainIdToNetwork
    {
      initStatus := InitialStatus;
      events := [];
      providerChainId, providerAccount := chainId, account;
      hasEthProvider, ethProviderAlive, listening := false, false, false;
      hasSdk, sdkAlive, users, localChainId := false, false, {}, 0;
      this.chainIdToNetwork := chainIdToNetwork;
    }

    /** `updateInitStatus`: the only transition of the status that emits. */
    method UpdateInitStatus(state: AppInitState, action: Option<AppInitAction>, message: Option<string>)
      requires Valid()
      modifies this`initStatus, this`events
      ensures Valid()
      ensures initStatus.initState == state && initStatus.initAction == action && initStatus.message == message
      ensures initStatus.account == old(initStatus.account) && initStatus.network == old(initStatus.network)
      ensures events == old(events) + [initStatus]
    {
      initStatus := Updated(initStatus, state, action, message);
      events := events + [initStatus];
    }

    /** `accountChanged`; `addUserSucceeds` is whether `sdk.addUser` resolves. */
    method AccountChanged(account: Option<EthAddress>, addUserSucceeds: bool) returns (r: Outcome)
      requires Valid() && hasSdk
      modifies this`initStatus, this`events, this`users
      ensures Valid()
      ensures initStatus.account == account && initStatus.network == old(initStatus.network)
      ensures account.None? ==>
        r == Err(AccountAccessWithdrawn) && events == old(events) && users == old(users) &&
        initStatus == old(initStatus).(account := None)
      ensures account.Some? && account.value in old(users) ==>
        r == Ok && users == old(users) &&
        events == old(events) + [AppInitStatus(Initialized, None, account, old(initStatus.network), None)]
      ensures account.Some? && account.value !in old(users) && addUserSucceeds ==>
        r == Ok && users == old(users) + {account.value} &&
        events == old(events) + [AppInitStatus(Initializing, Some(LinkAztecAccount), account, old(initStatus.network), None),
                                 AppInitStatus(Initialized, None, account, old(initStatus.network), None)]
      ensures account.Some? && account.value !in old(users) && !addUserSucceeds ==>
        r == Err(StepFailed(AddUser)) && users == old(users) &&
        events == old(events) + [AppInitStatus(Initializing, Some(LinkAztecAccount), account, old(initStatus.network), None)]
      ensures account.Some? ==> initStatus == Last(events)
      ensures r == Ok ==> GetUser() == account
    {
      initStatus := initStatus.(account := account);
      if account.None? {
        return Err(AccountAccessWithdrawn);
      }
      if account.value !in users {
        UpdateInitStatus(Initializing, Some(LinkAztecAccount), None);
        if !addUserSucceeds {
          return Err(StepFailed(AddUser));
        }
        users := users + {account.value};
        UpdateInitStatus(Initialized, None, None);
      } else {
        UpdateInitStatus(Initialized, None, None);
      }
      r := Ok;
    }

    /** `networkChanged`: a provider that left the Sdk's chain ends the session. */
    method NetworkChanged()
      requires Valid() && hasSdk && hasEthProvider
      modifies this`initStatus, this`events, this`sdkAlive, this`ethProviderAlive
      ensures Valid()
      ensures providerChainId == localChainId ==>
        initStatus == old(initStatus) && events == old(events) &&
        sdkAlive == old(sdkAlive) && ethProviderAlive == old(ethProviderAlive)
      ensures providerChainId != localChainId ==>
        initStatus == Destroyed(old(initStatus)) && events == old(events) + [initStatus] &&
        !sdkAlive && !ethProviderAlive
      ensures IsCorrectNetwork() || initStatus.initState == Uninitialized
    {
      if !IsCorrectNetwork() {
        Destroy();
      }
    }

    /**
     * `destroy`: tears down the Sdk and the provider when they exist and emits UNINITIALIZED.
     * The account and the network are kept.
     */
    method Destroy()
      requires Valid()
      modifies this`initStatus, this`events, this`sdkAlive, this`ethProviderAlive
      ensures Valid()
      ensures initStatus == AppInitStatus(Uninitialized, None, old(initStatus.account), old(initStatus.network), None)
      ensures initStatus == Destroyed(old(initStatus))
      ensures events == old(events) + [initStatus]
      ensures !sdkAlive && !ethProviderAlive
    {
      sdkAlive := false;
      ethProviderAlive := false;
      UpdateInitStatus(Uninitialized, None, None);
    }

    function IsInitialized(): (r: bool)
      reads this
      requires Valid()
      ensures r <==> initStatus.initState == Initialized
      ensures r ==> events != [] && Last(events).initState == Initialized
    {
      GetInitStatus().initState == Initialized
    }

    function IsCorrectNetwork(): (r: bool)
      reads this
      requires hasSdk && hasEthProvider
      ensures r <==> providerChainId == localChainId
    {
      providerChainId == localChainId
    }

    /** `getInitStatus`; the model hands out the value, not the live record. */
    function GetInitStatus(): (st: AppInitStatus)
      reads this
      requires Valid()
      ensures st == initStatus
      ensures events == [] ==> st.initState == Uninitialized
    {
      initStatus
    }

    /** `getUser`: the Sdk's user for the linked account, undefined when there is none. */
    function GetUser(): (user: Option<EthAddress>)
      reads this
      requires hasSdk
      ensures user.Some? <==> initStatus.account.Some? && initStatus.account.value in users
      ensures user.Some? ==> user == initStatus.account
    {
      match initStatus.account
      case Some(a) => if a in users then Some(a) else None
      case None => None
    }

    /** The Sdk's UPDATED_INIT_STATE handler: only the Sdk's INITIALIZING state is surfaced. */
    method OnSdkInitState(update: SdkInitUpdate)
      requires Valid() && hasSdk
      modifies this`initStatus, this`events
      ensures Valid()
      ensures update.state == SdkInitializing ==>
        initStatus == Updated(old(initStatus), Initializing, None, update.message) &&
        events == old(events) + [initStatus]
      ensures update.state != SdkInitializing ==> initStatus == old(initStatus) && events == old(events)
    {
      if update.state == SdkInitializing {
        UpdateInitStatus(Initializing, None, update.message);
      }
    }

    /** `await this.sdk.init()`, during which the Sdk emits `updates` to the handler above. */
    method RunSdkInit(updates: seq<SdkInitUpdate>)
      requires Valid() && hasSdk
      modifies this`initStatus, this`events
      ensures Valid()
      ensures events == old(events) + SdkInitEvents(old(initStatus), updates)
      ensures initStatus == SdkInformed(old(initStatus), updates)
    {
      ghost var st0, e0 := initStatus, events;
      var i := 0;
      while i < |updates|
        invariant 0 <= i <= |updates|
        invariant Valid()
        invariant initStatus.account == st0.account && initStatus.network == st0.network
        invariant events == e0 + SdkInitEvents(st0, updates[..i])
        invariant initStatus == SdkInformed(st0, updates[..i])
      {
        SdkInitEventsSnoc(st0, updates[..i], updates[i]);
        SdkInformedSnoc(st0, updates[..i], updates[i]);
        assert updates[..i + 1] == updates[..i] + [updates[i]];
        OnSdkInitState(updates[i]);
        i := i + 1;
      }
      assert updates[..i] == updates;
    }

    /**
     * The poll of `init`: while the provider is not on chain `target`, wait and look again;
     * `polls` are the chain ids the successive looks see. `reached` is false when every look
     * disagreed, that is, `init` is still waiting.
     */
    method AwaitChainId(target: int, polls: seq<int>) returns (reached: bool)
      modifies this`providerChainId
      ensures reached <==> old(providerChainId) == target || target in polls
      ensures reached ==> providerChainId == target
      ensures !reached ==> providerChainId == if polls == [] then old(providerChainId) else Last(polls)
    {
      var i := 0;
      while providerChainId != target && i < |polls|
        invariant 0 <= i <= |polls|
        invariant providerChainId == if i == 0 then old(providerChainId) else polls[i - 1]
        invariant i > 0 ==> old(providerChainId) != target
        invariant forall k | 0 <= k < i - 1 :: polls[k] != target
        decreases |polls| - i
      {
        providerChainId := polls[i];
        i := i + 1;
      }
      reached := providerChainId == target;
      if !reached {
        assert forall k | 0 <= k < |polls| :: polls[k] != target;
      }
    }

    /**
     * `init`: link the provider, wait for it to reach the rollup provider's chain, create and
     * start the Sdk, link the provider's account, attach the listeners and check the network
     * once more. A rejection of any step destroys everything before it is passed on.
     */
    method Init(env: InitEnv) returns (outcome: InitOutcome)
      requires Valid()
      modifies this
      ensures Valid()
      ensures outcome == InitOutcomeOf(old(providerChainId), providerAccount, env)
      ensures events == old(events) + InitTrace(old(initStatus), old(providerChainId), providerAccount, env,
                                                 chainIdToNetwork(env.rollupChainId))
      ensures initStatus == Last(events)
      ensures providerAccount == old(providerAccount)
      ensures hasEthProvider && (listening <==> outcome == Done)
      ensures ethProviderAlive <==> initStatus.initState != Uninitialized
      ensures !ethProviderAlive ==> !sdkAlive
      ensures PassesNetworkWait(old(providerChainId), env) ==>
        providerChainId == if outcome == Done then env.closingChainId else env.rollupChainId
      ensures !PassesNetworkWait(old(providerChainId), env) ==>
        providerChainId == if !ReachesNetworkCheck(env) || env.polls == [] then old(providerChainId) else Last(env.polls)
      ensures CreatesSdk(old(providerChainId), env) ==>
        hasSdk && localChainId == env.sdkChainId && sdkAlive == ethProviderAlive &&
        users == if env.failAt != Some(SdkInit) && NewUser(providerAccount, env) then env.sdkUsers + {providerAccount.value} else env.sdkUsers
      ensures !CreatesSdk(old(providerChainId), env) ==>
        hasSdk == old(hasSdk) && localChainId == old(localChainId) && users == old(users) &&
        sdkAlive == (old(sdkAlive) && outcome == WaitingForNetwork)
    {
      ghost var st0, e0, chain0 := initStatus, events, providerChainId;
      ghost var network := chainIdToNetwork(env.rollupChainId);
      var proceed := LinkProvider(env);
      if !proceed {
        if ReachesNetworkCheck(env) {
          InitTraceStillWaiting(e0, st0, chain0, providerAccount, env, network);
          return WaitingForNetwork;
        }
        InitTraceEarlyFailure(e0, st0, chain0, providerAccount, env, network);
        return Failed(StepFailed(env.failAt.value));
      }
      InitTraceAfterWait(e0, st0, chain0, providerAccount, env, network);
      outcome := StartSdk(env);
    }

    /**
     * The part of `init` up to the network poll: emit LINK_PROVIDER_ACCOUNT, make and start
     * the `EthProvider`, fetch the rollup provider's chain, record its network and, when the
     * provider is on another chain, emit CHANGE_NETWORK and poll. `proceed` is whether `init`
     * goes on to create the Sdk; a rejected step has destroyed everything.
     */
    method LinkProvider(env: InitEnv) returns (proceed: bool)
      requires Valid()
      modifies this`initStatus, this`events, this`hasEthProvider, this`ethProviderAlive, this`listening,
               this`providerChainId, this`sdkAlive
      ensures Valid() && hasEthProvider && !listening
      ensures proceed <==> PassesNetworkWait(old(providerChainId), env)
      ensures !ReachesNetworkCheck(env) ==>
        events == old(events) + [StartStatus(old(initStatus))] + [Destroyed(StartStatus(old(initStatus)))] &&
        initStatus == Destroyed(StartStatus(old(initStatus))) && !sdkAlive && !ethProviderAlive
      ensures ReachesNetworkCheck(env) ==> ethProviderAlive && sdkAlive == old(sdkAlive)
      ensures ReachesNetworkCheck(env) && env.rollupChainId == old(providerChainId) ==>
        events == old(events) + [StartStatus(old(initStatus))] &&
        initStatus == StartStatus(old(initStatus)).(network := Some(chainIdToNetwork(env.rollupChainId)))
      ensures ReachesNetworkCheck(env) && env.rollupChainId != old(providerChainId) ==>
        events == old(events) + [StartStatus(old(initStatus))] + [ChangingStatus(old(initStatus), chainIdToNetwork(env.rollupChainId))] &&
        initStatus == ChangingStatus(old(initStatus), chainIdToNetwork(env.rollupChainId))
      ensures PassesNetworkWait(old(providerChainId), env) ==> providerChainId == env.rollupChainId
      ensures !PassesNetworkWait(old(providerChainId), env) ==>
        providerChainId == if !ReachesNetworkCheck(env) || env.polls == [] then old(providerChainId) else Last(env.polls)
    {
      UpdateInitStatus(Initializing, Some(LinkProviderAccount), None);
      hasEthProvider, ethProviderAlive, listening := true, true, false;
      if env.failAt == Some(ProviderInit) || env.failAt == Some(FetchRollupStatus) {
        Destroy();
        return false;
      }
      proceed := AwaitRollupNetwork(env);
    }

    /**
     * The network step of `init`: record the rollup provider's network and, when the provider
     * is on another chain, emit CHANGE_NETWORK and poll until it is not. `reached` is false
     * while `init` is still waiting.
     */
    method AwaitRollupNetwork(env: InitEnv) returns (reached: bool)
      requires Valid()
      modifies this`initStatus, this`events, this`providerChainId
      ensures Valid()
      ensures reached <==> env.rollupChainId == old(providerChainId) || env.rollupChainId in env.polls
      ensures old(providerChainId) == env.rollupChainId ==>
        events == old(events) && initStatus == old(initStatus).(network := Some(chainIdToNetwork(env.rollupChainId)))
      ensures old(providerChainId) != env.rollupChainId ==>
        initStatus == Updated(old(initStatus).(network := Some(chainIdToNetwork(env.rollupChainId))), Initializing, Some(ChangeNetwork), None) &&
        events == old(events) + [initStatus]
      ensures reached ==> providerChainId == env.rollupChainId
      ensures !reached ==> providerChainId == if env.polls == [] then old(providerChainId) else Last(env.polls)
    {
      initStatus := initStatus.(network := Some(chainIdToNetwork(env.rollupChainId)));
      reached := true;
      if env.rollupChainId != providerChainId {
        UpdateInitStatus(Initializing, Some(ChangeNetwork), None);
        reached := AwaitChainId(env.rollupChainId, env.polls);
      }
    }

    /** The part of `init` after the network poll: create and start the Sdk, then link. */
    method StartSdk(env: InitEnv) returns (outcome: InitOutcome)
      requires Valid() && hasEthProvider && ethProviderAlive && !listening
      requires providerChainId == env.rollupChainId
      modifies this`hasSdk, this`sdkAlive, this`users, this`localChainId, this`initStatus, this`events,
               this`ethProviderAlive, this`listening, this`providerChainId
      ensures providerChainId == if outcome == Done then env.closingChainId else old(providerChainId)
      ensures Valid()
      ensures outcome == SdkOutcomeOf(providerAccount, env)
      ensures events == old(events) + SdkTrace(old(initStatus), providerAccount, env)
      ensures initStatus == Last(events)
      ensures listening <==> outcome == Done
      ensures ethProviderAlive <==> initStatus.initState != Uninitialized
      ensures !ethProviderAlive ==> !sdkAlive
      ensures env.failAt != Some(CreateSdk) ==>
        hasSdk && localChainId == env.sdkChainId && sdkAlive == ethProviderAlive &&
        users == if env.failAt != Some(SdkInit) && NewUser(providerAccount, env) then env.sdkUsers + {providerAccount.value} else env.sdkUsers
      ensures env.failAt == Some(CreateSdk) ==>
        hasSdk == old(hasSdk) && localChainId == old(localChainId) && users == old(users) && !sdkAlive
    {
      if env.failAt == Some(CreateSdk) {
        Destroy();
        return Failed(StepFailed(CreateSdk));
      }
      ghost var e0 := events;
      SdkTraceAfterCreate(e0, initStatus, providerAccount, env);
      hasSdk, sdkAlive, users, localChainId := true, true, env.sdkUsers, env.sdkChainId;
      RunSdkInit(env.sdkUpdates);
      if env.failAt == Some(SdkInit) {
        Destroy();
        return Failed(StepFailed(SdkInit));
      }
      outcome := LinkAccount(env);
    }

    /** The provider's account is one `init`'s `accountChanged` registers. */
    static predicate NewUser(account: Option<EthAddress>, env: InitEnv)
    {
      account.Some? && account.value !in env.sdkUsers && env.failAt != Some(AddUser)
    }

    /**
     * The end of `init`: link the provider's account, attach the provider listeners, and
     * destroy when the provider and the Sdk disagree on the chain. By the closing check the
     * wallet is on `env.closingChainId`; no network listener saw it switch.
     */
    method LinkAccount(env: InitEnv) returns (outcome: InitOutcome)
      requires Valid() && hasSdk && sdkAlive && hasEthProvider && ethProviderAlive && !listening
      requires localChainId == env.sdkChainId && users == env.sdkUsers
      requires env.failAt != Some(CreateSdk) && env.failAt != Some(SdkInit)
      modifies this`initStatus, this`events, this`users, this`sdkAlive, this`ethProviderAlive, this`listening,
               this`providerChainId
      ensures Valid()
      ensures providerChainId == if outcome == Done then env.closingChainId else old(providerChainId)
      ensures outcome == SdkOutcomeOf(providerAccount, env)
      ensures events == old(events) + LinkTrace(old(initStatus).(account := providerAccount), env)
      ensures initStatus == Last(events)
      ensures listening <==> outcome == Done
      ensures ethProviderAlive <==> initStatus.initState != Uninitialized
      ensures sdkAlive == ethProviderAlive
      ensures users == if NewUser(providerAccount, env) then env.sdkUsers + {providerAccount.value} else env.sdkUsers
    {
      var linked := AccountChanged(providerAccount, env.failAt != Some(AddUser));
      if linked.Err? {
        Destroy();
        return Failed(linked.error);
      }
      listening := true;
      providerChainId := env.closingChainId;
      NetworkChanged();
      outcome := Done;
    }

    /**
     * The provider's UPDATED_ACCOUNT listener, `accountChanged(account).catch(() => destroy())`.
     * `accountChanged` is not `async`, so its throw for a withdrawn account leaves the listener
     * synchronously, before `.catch` is reached: the account is cleared, nothing is emitted or
     * destroyed, and the error `escaped` to the provider. A rejected `addUser` is caught and destroys.
     */
    method OnAccountUpdated(account: Option<EthAddress>, addUserSucceeds: bool) returns (escaped: Option<InitError>)
      requires Valid() && listening
      modifies this`providerAccount, this`initStatus, this`events, this`users, this`sdkAlive, this`ethProviderAlive
      ensures Valid()
      ensures providerAccount == account && initStatus.account == account && initStatus.network == old(initStatus.network)
      ensures escaped == if account.None? then Some(AccountAccessWithdrawn) else None
      ensures account.None? ==>
        users == old(users) && sdkAlive == old(sdkAlive) && ethProviderAlive == old(ethProviderAlive) &&
        events == old(events) && initStatus == old(initStatus).(account := None)
      ensures account.Some? ==> |events| > |old(events)| && initStatus == Last(events)
      ensures account.Some? && account.value in old(users) ==>
        users == old(users) && sdkAlive == old(sdkAlive) && ethProviderAlive == old(ethProviderAlive) &&
        events == old(events) + [AppInitStatus(Initialized, None, account, old(initStatus.network), None)]
      ensures account.Some? && account.value !in old(users) && addUserSucceeds ==>
        users == old(users) + {account.value} && sdkAlive == old(sdkAlive) && ethProviderAlive == old(ethProviderAlive) &&
        events == old(events) + [AppInitStatus(Initializing, Some(LinkAztecAccount), account, old(initStatus.network), None),
                                 AppInitStatus(Initialized, None, account, old(initStatus.network), None)]
      ensures account.Some? && account.value !in old(users) && !addUserSucceeds ==>
        users == old(users) && !sdkAlive && !ethProviderAlive &&
        events == old(events) + [AppInitStatus(Initializing, Some(LinkAztecAccount), account, old(initStatus.network), None),
                                 AppInitStatus(Uninitialized, None, account, old(initStatus.network), None)]
      ensures account.Some? && (account.value in old(users) || addUserSucceeds) ==> GetUser() == account
    {
      providerAccount := account;
      var r := AccountChanged(account, addUserSucceeds);
      if account.None? {
        return Some(AccountAccessWithdrawn);
      }
      if r.Err? {
        Destroy();
      }
      escaped := None;
    }

    /**
     * The UPDATED_ACCOUNT listener as it behaves once `accountChanged` is `async`, so that the
     * throw for a withdrawn account becomes a rejection the `.catch` handles: a withdrawn
     * account destroys everything and returns to UNINITIALIZED, as the comment at the throw says.
     */
    method OnAccountUpdatedAsync(account: Option<EthAddress>, addUserSucceeds: bool)
      requires Valid() && listening
      modifies this`providerAccount, this`initStatus, this`events, this`users, this`sdkAlive, this`ethProviderAlive
      ensures Valid()
      ensures providerAccount == account && initStatus.account == account && initStatus.network == old(initStatus.network)
      ensures |events| > |old(events)| && initStatus == Last(events)
      ensures account.None? ==>
        users == old(users) && !sdkAlive && !ethProviderAlive && initStatus.initState == Uninitialized &&
        events == old(events) + [AppInitStatus(Uninitialized, None, None, old(initStatus.network), None)]
      ensures account.Some? && account.value in old(users) ==>
        users == old(users) && sdkAlive == old(sdkAlive) && ethProviderAlive == old(ethProviderAlive) &&
        events == old(events) + [AppInitStatus(Initialized, None, account, old(initStatus.network), None)]
      ensures account.Some? && account.value !in old(users) && addUserSucceeds ==>
        users == old(users) + {account.value} && sdkAlive == old(sdkAlive) && ethProviderAlive == old(ethProviderAlive) &&
        events == old(events) + [AppInitStatus(Initializing, Some(LinkAztecAccount), account, old(initStatus.network), None),
                                 AppInitStatus(Initialized, None, account, old(initStatus.network), None)]
      ensures account.Some? && account.value !in old(users) && !addUserSucceeds ==>
        users == old(users) && !sdkAlive && !ethProviderAlive &&
        events == old(events) + [AppInitStatus(Initializing, Some(LinkAztecAccount), account, old(initStatus.network), None),
                                 AppInitStatus(Uninitialized, None, account, old(initStatus.network), None)]
      ensures account.Some? && (account.value in old(users) || addUserSucceeds) ==> GetUser() == account
    {
      providerAccount := account;
      var r := AccountChanged(account, addUserSucceeds);
      if r.Err? {
        Destroy();
      }
    }

    /** The provider's UPDATED_NETWORK listener, after the wallet moved to `chainId`. */
    method OnNetworkUpdated(chainId: int)
      requires Valid() && listening
      modifies this`providerChainId, this`initStatus, this`events, this`sdkAlive, this`ethProviderAlive
      ensures Valid() && providerChainId == chainId
      ensures chainId == localChainId ==>
        initStatus == old(initStatus) && events == old(events) &&
        sdkAlive == old(sdkAlive) && ethProviderAlive == old(ethProviderAlive)
      ensures chainId != localChainId ==>
        initStatus == Destroyed(old(initStatus)) && events == old(events) + [initStatus] &&
        initStatus.initState == Uninitialized && !sdkAlive && !ethProviderAlive
      ensures IsCorrectNetwork() || initStatus.initState == Uninitialized
    {
      providerChainId := chainId;
      NetworkChanged();
    }
  }
}
