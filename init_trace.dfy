/**
 * What one call of `WebSdk.init` (sdk/src/web_sdk/index.ts:59-113) emits and returns, as a
 * function of the status and wallet it starts from and of the answers of the foreign calls
 * it makes. The class method `WebSdk.Init` is proved to produce exactly this.
 */
module InitSpec {
  import opened Wrappers
  import opened AppInit

  /** The awaited foreign calls of `init` that can reject. */
  datatype ForeignStep =
    | ProviderInit       // ethProvider.init()
    | FetchRollupStatus  // getRollupProviderStatus(serverUrl)
    | CreateSdk          // createSdk(serverUrl, provider, { clearDb })
    | SdkInit            // sdk.init()
    | AddUser            // sdk.addUser(account)

  datatype InitError = StepFailed(step: ForeignStep) | AccountAccessWithdrawn

  /** How a call of `init` ends: resolved, rejected, or still suspended in the network poll. */
  datatype InitOutcome = Done | Failed(error: InitError) | WaitingForNetwork

  /** The answers the foreign calls of one `init` give. */
  datatype InitEnv = InitEnv(
    rollupChainId: int,              // chain id reported by the rollup provider
    polls: seq<int>,                 // provider chain id seen at each successive 500 ms poll
    sdkChainId: int,                 // the new Sdk's `getLocalStatus().chainId`
    sdkUsers: set<EthAddress>,       // accounts the new Sdk already has users for
    sdkUpdates: seq<SdkInitUpdate>,  // UPDATED_INIT_STATE events emitted during sdk.init()
    closingChainId: int,             // provider chain id at the closing network check
    failAt: Option<ForeignStep>)     // the call that rejects, if any

  /** `init` gets past the provider set-up and the rollup-status fetch. */
  predicate ReachesNetworkCheck(env: InitEnv)
  {
    env.failAt != Some(ProviderInit) && env.failAt != Some(FetchRollupStatus)
  }

  /** `init` gets past the network poll, starting from provider chain id `chainId`. */
  predicate PassesNetworkWait(chainId: int, env: InitEnv)
  {
    ReachesNetworkCheck(env) && (env.rollupChainId == chainId || env.rollupChainId in env.polls)
  }

  /** `init` constructs a new Sdk. */
  predicate CreatesSdk(chainId: int, env: InitEnv)
  {
    PassesNetworkWait(chainId, env) && env.failAt != Some(CreateSdk)
  }

  /** `init` reaches its call of `accountChanged`. */
  predicate LinksAccount(chainId: int, env: InitEnv)
  {
    CreatesSdk(chainId, env) && env.failAt != Some(SdkInit)
  }

  /** How `init` ends once the provider is on the rollup provider's chain. */
  function SdkOutcomeOf(account: Option<EthAddress>, env: InitEnv): InitOutcome
  {
    if env.failAt == Some(CreateSdk) || env.failAt == Some(SdkInit) then
      Failed(StepFailed(env.failAt.value))
    else if account.None? then Failed(AccountAccessWithdrawn)
    else if account.value !in env.sdkUsers && env.failAt == Some(AddUser) then
      Failed(StepFailed(AddUser))
    else Done
  }

  /** How `init` ends, from provider chain id `chainId` and provider account `account`. */
  function InitOutcomeOf(chainId: int, account: Option<EthAddress>, env: InitEnv): InitOutcome
  {
    if env.failAt == Some(ProviderInit) || env.failAt == Some(FetchRollupStatus) then
      Failed(StepFailed(env.failAt.value))
    else if !PassesNetworkWait(chainId, env) then WaitingForNetwork
    else SdkOutcomeOf(account, env)
  }

  /**
   * The snapshots of `accountChanged(account)` followed, on success, by the closing network
   * check; `st` already carries `account`. The check destroys when the provider's chain at
   * that moment, which the wallet may have switched since the poll, disagrees with the Sdk's.
   */
  function LinkTrace(st: AppInitStatus, env: InitEnv): seq<AppInitStatus>
  {
    match st.account
    case None => [Destroyed(st)]
    case Some(a) =>
      var linked := Updated(st, Initializing, Some(LinkAztecAccount), None);
      var ready := Updated(st, Initialized, None, None);
      var check := if env.sdkChainId != env.closingChainId then [Destroyed(ready)] else [];
      if a in env.sdkUsers then [ready] + check
      else if env.failAt == Some(AddUser) then [linked, Destroyed(linked)]
      else [linked, ready] + check
  }

  /**
   * The snapshots `init` emits from the Sdk's construction on, starting from status `st`;
   * `account` is the provider's account.
   */
  function SdkTrace(st: AppInitStatus, account: Option<EthAddress>, env: InitEnv): seq<AppInitStatus>
  {
    if env.failAt == Some(CreateSdk) then [Destroyed(st)]
    else
      var messages, informed := SdkInitEvents(st, env.sdkUpdates), SdkInformed(st, env.sdkUpdates);
      if env.failAt == Some(SdkInit) then messages + [Destroyed(informed)]
      else messages + LinkTrace(informed.(account := account), env)
  }

  /** The snapshots of an `init` that has created the Sdk, after a prefix `pre`. */
  lemma SdkTraceAfterCreate(pre: seq<AppInitStatus>, st: AppInitStatus, account: Option<EthAddress>, env: InitEnv)
    requires env.failAt != Some(CreateSdk)
    ensures env.failAt == Some(SdkInit) ==>
      pre + SdkTrace(st, account, env) ==
      pre + SdkInitEvents(st, env.sdkUpdates) + [Destroyed(SdkInformed(st, env.sdkUpdates))]
    ensures env.failAt != Some(SdkInit) ==>
      pre + SdkTrace(st, account, env) ==
      pre + SdkInitEvents(st, env.sdkUpdates) + LinkTrace(SdkInformed(st, env.sdkUpdates).(account := account), env)
  {
  }

  /** `init`'s first snapshot, from status `st`. */
  function StartStatus(st: AppInitStatus): AppInitStatus
  {
    Updated(st, Initializing, Some(LinkProviderAccount), None)
  }

  /** The CHANGE_NETWORK snapshot, once the rollup provider's `network` is recorded. */
  function ChangingStatus(st: AppInitStatus, network: string): AppInitStatus
  {
    Updated(StartStatus(st).(network := Some(network)), Initializing, Some(ChangeNetwork), None)
  }

  /**
   * The snapshots one `init` appends, from status `st`, provider chain id `chainId` and
   * provider account `account`; `network` is the name of the rollup provider's chain.
   */
  function InitTrace(st: AppInitStatus, chainId: int, account: Option<EthAddress>, env: InitEnv,
                     network: string): seq<AppInitStatus>
  {
    var start := StartStatus(st);
    if !ReachesNetworkCheck(env) then [start, Destroyed(start)]
    else
      var named, changing := start.(network := Some(network)), ChangingStatus(st, network);
      if env.rollupChainId == chainId then [start] + SdkTrace(named, account, env)
      else if env.rollupChainId !in env.polls then [start, changing]
      else [start, changing] + SdkTrace(changing, account, env)
  }

  /** The snapshots of an `init` whose provider set-up or status fetch rejects. */
  lemma InitTraceEarlyFailure(pre: seq<AppInitStatus>, st: AppInitStatus, chainId: int,
                              account: Option<EthAddress>, env: InitEnv, network: string)
    requires !ReachesNetworkCheck(env)
    ensures pre + InitTrace(st, chainId, account, env, network) == pre + [StartStatus(st)] + [Destroyed(StartStatus(st))]
    ensures InitOutcomeOf(chainId, account, env) == Failed(StepFailed(env.failAt.value))
  {
  }

  /** The snapshots of an `init` still polling for the rollup provider's chain. */
  lemma InitTraceStillWaiting(pre: seq<AppInitStatus>, st: AppInitStatus, chainId: int,
                              account: Option<EthAddress>, env: InitEnv, network: string)
    requires ReachesNetworkCheck(env) && !PassesNetworkWait(chainId, env)
    ensures pre + InitTrace(st, chainId, account, env, network) ==
            pre + [StartStatus(st)] + [ChangingStatus(st, network)]
    ensures InitOutcomeOf(chainId, account, env) == WaitingForNetwork
  {
  }

  /** The snapshots of an `init` past the network poll. */
  lemma InitTraceAfterWait(pre: seq<AppInitStatus>, st: AppInitStatus, chainId: int,
                           account: Option<EthAddress>, env: InitEnv, network: string)
    requires PassesNetworkWait(chainId, env)
    ensures env.rollupChainId == chainId ==>
      pre + InitTrace(st, chainId, account, env, network) ==
      pre + [StartStatus(st)] + SdkTrace(StartStatus(st).(network := Some(network)), account, env)
    ensures env.rollupChainId != chainId ==>
      pre + InitTrace(st, chainId, account, env, network) ==
      pre + [StartStatus(st)] + [ChangingStatus(st, network)] + SdkTrace(ChangingStatus(st, network), account, env)
    ensures InitOutcomeOf(chainId, account, env) == SdkOutcomeOf(account, env)
  {
  }

  /** Initialization always starts with `(INITIALIZING, LINK_PROVIDER_ACCOUNT)`. */
  lemma InitTraceStartsLinkingProvider(st: AppInitStatus, chainId: int, account: Option<EthAddress>,
                                       env: InitEnv, network: string)
    ensures |InitTrace(st, chainId, account, env, network)| >= 2
    ensures InitTrace(st, chainId, account, env, network)[0] ==
            AppInitStatus(Initializing, Some(LinkProviderAccount), st.account, st.network, None)
  {
    var named := StartStatus(st).(network := Some(network));
    SdkTraceShape(named, account, env);
  }

  lemma LinkTraceShape(st: AppInitStatus, env: InitEnv)
    ensures LinkTrace(st, env) != []
    ensures InPhaseOrder(LinkTrace(st, env)) && PhasesAtLeast(LinkTrace(st, env), 3)
    ensures !EmitsAction(LinkTrace(st, env), ChangeNetwork)
    ensures EmitsAction(LinkTrace(st, env), LinkAztecAccount) <==> st.account.Some? && st.account.value !in env.sdkUsers
  {
    if st.account.Some? && st.account.value !in env.sdkUsers {
      assert LinkTrace(st, env)[0].initAction == Some(LinkAztecAccount);
    }
  }

  /** From the Sdk's construction on, snapshots are info messages or later phases. */
  lemma SdkTraceShape(st: AppInitStatus, account: Option<EthAddress>, env: InitEnv)
    ensures SdkTrace(st, account, env) != []
    ensures InPhaseOrder(SdkTrace(st, account, env)) && PhasesAtLeast(SdkTrace(st, account, env), 2)
    ensures !EmitsAction(SdkTrace(st, account, env), ChangeNetwork)
    ensures EmitsAction(SdkTrace(st, account, env), LinkAztecAccount) <==>
            env.failAt != Some(CreateSdk) && env.failAt != Some(SdkInit) &&
            account.Some? && account.value !in env.sdkUsers
  {
    if env.failAt != Some(CreateSdk) {
      var messages := SdkInitEvents(st, env.sdkUpdates);
      var informed := SdkInformed(st, env.sdkUpdates);
      var rest := if env.failAt == Some(SdkInit) then [Destroyed(informed)]
                  else LinkTrace(informed.(account := account), env);
      SdkInitEventsInPhaseOrder(st, env.sdkUpdates);
      LinkTraceShape(informed.(account := account), env);
      assert SdkTrace(st, account, env) == messages + rest;
      ConcatInPhaseOrder(messages, rest, 2);
      EmitsActionConcat(messages, rest, ChangeNetwork);
      EmitsActionConcat(messages, rest, LinkAztecAccount);
    }
  }

  /** The snapshots of one initialization follow the order the class comment documents. */
  lemma InitTraceInPhaseOrder(st: AppInitStatus, chainId: int, account: Option<EthAddress>,
                              env: InitEnv, network: string)
    ensures InPhaseOrder(InitTrace(st, chainId, account, env, network))
  {
    var start := StartStatus(st);
    if ReachesNetworkCheck(env) {
      var named := start.(network := Some(network));
      var changing := ChangingStatus(st, network);
      if env.rollupChainId == chainId {
        SdkTraceShape(named, account, env);
        ConcatInPhaseOrder([start], SdkTrace(named, account, env), 0);
      } else if env.rollupChainId in env.polls {
        SdkTraceShape(changing, account, env);
        ConcatInPhaseOrder([start, changing], SdkTrace(changing, account, env), 1);
      }
    }
  }

  /**
   * CHANGE_NETWORK is emitted exactly when `init` reaches the network check with the rollup
   * provider's chain id different from the provider's.
   */
  lemma InitTraceChangeNetworkIff(st: AppInitStatus, chainId: int, account: Option<EthAddress>,
                                  env: InitEnv, network: string)
    ensures EmitsAction(InitTrace(st, chainId, account, env, network), ChangeNetwork) <==>
            ReachesNetworkCheck(env) && env.rollupChainId != chainId
  {
    var t := InitTrace(st, chainId, account, env, network);
    var start := StartStatus(st);
    if ReachesNetworkCheck(env) && env.rollupChainId != chainId {
      assert t[1].initAction == Some(ChangeNetwork);
    } else if ReachesNetworkCheck(env) {
      var named := start.(network := Some(network));
      SdkTraceShape(named, account, env);
      EmitsActionConcat([start], SdkTrace(named, account, env), ChangeNetwork);
    } else {
      assert t == [start, Destroyed(start)];
    }
  }

  /**
   * LINK_AZTEC_ACCOUNT is emitted exactly when `init` links an account the new Sdk has no
   * user for: an already registered account goes straight to INITIALIZED.
   */
  lemma InitTraceLinkAztecIff(st: AppInitStatus, chainId: int, account: Option<EthAddress>,
                              env: InitEnv, network: string)
    ensures EmitsAction(InitTrace(st, chainId, account, env, network), LinkAztecAccount) <==>
            LinksAccount(chainId, env) && account.Some? && account.value !in env.sdkUsers
  {
    var t := InitTrace(st, chainId, account, env, network);
    var start := StartStatus(st);
    if ReachesNetworkCheck(env) {
      var named := start.(network := Some(network));
      var changing := ChangingStatus(st, network);
      if env.rollupChainId == chainId {
        SdkTraceShape(named, account, env);
        EmitsActionConcat([start], SdkTrace(named, account, env), LinkAztecAccount);
      } else if env.rollupChainId in env.polls {
        SdkTraceShape(changing, account, env);
        EmitsActionConcat([start, changing], SdkTrace(changing, account, env), LinkAztecAccount);
      } else {
        assert t == [start, changing];
      }
    } else {
      assert t == [start, Destroyed(start)];
    }
  }

  /** A rejected `init` always ends with the UNINITIALIZED snapshot of `destroy`. */
  lemma InitTraceFailureDestroys(st: AppInitStatus, chainId: int, account: Option<EthAddress>,
                                 env: InitEnv, network: string)
    requires InitOutcomeOf(chainId, account, env).Failed?
    ensures var t := InitTrace(st, chainId, account, env, network);
      t != [] && Last(t).initState == Uninitialized && Last(t).initAction == None && Last(t).message == None
  {
  }

  /**
   * While the provider is on the wrong chain `init` stays suspended: the last snapshot is
   * CHANGE_NETWORK and no snapshot is INITIALIZED or UNINITIALIZED.
   */
  lemma InitTraceWaitingStaysOnChangeNetwork(st: AppInitStatus, chainId: int, account: Option<EthAddress>,
                                             env: InitEnv, network: string)
    requires InitOutcomeOf(chainId, account, env) == WaitingForNetwork
    ensures var t := InitTrace(st, chainId, account, env, network);
      |t| == 2 && Last(t).initState == Initializing && Last(t).initAction == Some(ChangeNetwork) &&
      Last(t).network == Some(network) &&
      forall i | 0 <= i < |t| :: t[i].initState == Initializing
  {
  }

  /**
   * A resolved `init` ends INITIALIZED with the provider's account exactly when the new Sdk
   * is on the chain the provider is on at the closing network check; otherwise that check
   * has destroyed it.
   */
  lemma InitTraceDone(st: AppInitStatus, chainId: int, account: Option<EthAddress>,
                      env: InitEnv, network: string)
    requires InitOutcomeOf(chainId, account, env) == Done
    ensures var t := InitTrace(st, chainId, account, env, network);
      t != [] && Last(t).account == account && account.Some? &&
      (Last(t).initState == Initialized <==> env.sdkChainId == env.closingChainId) &&
      (Last(t).initState == Initialized || Last(t).initState == Uninitialized)
  {
    var start := StartStatus(st);
    var waited := if env.rollupChainId == chainId then start.(network := Some(network)) else ChangingStatus(st, network);
    var prefix := if env.rollupChainId == chainId then [start] else [start, ChangingStatus(st, network)];
    assert InitTrace(st, chainId, account, env, network) == prefix + SdkTrace(waited, account, env);
    var informed := SdkInformed(waited, env.sdkUpdates);
    assert SdkTrace(waited, account, env) == SdkInitEvents(waited, env.sdkUpdates) + LinkTrace(informed.(account := account), env);
    LinkTraceDone(informed.(account := account), env);
    LastConcat(SdkInitEvents(waited, env.sdkUpdates), LinkTrace(informed.(account := account), env));
    LastConcat(prefix, SdkTrace(waited, account, env));
  }

  /** A linking that succeeds ends with the account linked; the network check decides the state. */
  lemma LinkTraceDone(st: AppInitStatus, env: InitEnv)
    requires st.account.Some? && (st.account.value in env.sdkUsers || env.failAt != Some(AddUser))
    ensures LinkTrace(st, env) != [] && Last(LinkTrace(st, env)).account == st.account
    ensures Last(LinkTrace(st, env)).initState == Initialized <==> env.sdkChainId == env.closingChainId
    ensures Last(LinkTrace(st, env)).initState in {Initialized, Uninitialized}
  {
  }
}
