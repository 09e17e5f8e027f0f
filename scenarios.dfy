/**
 * Scenarios of the WebSdk coordinator and the status resolver whose emitted snapshots Dafny
 * proves exactly, following the orders of snapshots that the class comment of
 * sdk/src/web_sdk/index.ts lists.
 */
module Scenarios {
  import opened Wrappers
  import opened AppInit
  import opened InitSpec
  import WebSdk
  import ServerStatusResolver

  function Names(chainId: int): string
  {
    if chainId == 1 then "mainnet" else "testnet"
  }

  /** A first-time account on the right chain: provider, info message, Aztec account, initialized. */
  method FirstTimeAccount()
  {
    var a := EthAddress([1, 2]);
    var app := new WebSdk.WebSdk(1, Some(a), Names);
    var env := InitEnv(1, [], 1, {}, [SdkInitUpdate(SdkInitializing, Some("Creating keys")), SdkInitUpdate(SdkOtherState, None)], 1, None);
    var outcome := app.Init(env);
    assert outcome == Done;
    assert app.events == [
      AppInitStatus(Initializing, Some(LinkProviderAccount), None, None, None),
      AppInitStatus(Initializing, None, None, Some("mainnet"), Some("Creating keys")),
      AppInitStatus(Initializing, Some(LinkAztecAccount), Some(a), Some("mainnet"), None),
      AppInitStatus(Initialized, None, Some(a), Some("mainnet"), None)];
    assert app.users == {a} && app.listening && app.sdkAlive && app.ethProviderAlive;
    assert app.IsInitialized() && app.GetUser() == Some(a);
  }

  /**
   * A provider on another chain: CHANGE_NETWORK until it switches, then an account the Sdk
   * already has a user for; a later switch away destroys, keeping the account.
   */
  method NetworkWaitThenSwitchAway()
  {
    var a := EthAddress([7]);
    var app := new WebSdk.WebSdk(3, Some(a), Names);
    var env := InitEnv(1, [3, 1], 1, {a}, [], 1, None);
    var outcome := app.Init(env);
    assert outcome == Done;
    assert app.events == [
      AppInitStatus(Initializing, Some(LinkProviderAccount), None, None, None),
      AppInitStatus(Initializing, Some(ChangeNetwork), None, Some("mainnet"), None),
      AppInitStatus(Initialized, None, Some(a), Some("mainnet"), None)];
    app.OnNetworkUpdated(3);
    assert app.events[3] == AppInitStatus(Uninitialized, None, Some(a), Some("mainnet"), None);
    assert !app.IsInitialized();
  }

  /** A provider that never reaches the rollup provider's chain leaves `init` at CHANGE_NETWORK. */
  method NetworkNeverReached()
  {
    var app := new WebSdk.WebSdk(3, None, Names);
    var env := InitEnv(1, [3, 3], 1, {}, [], 1, None);
    var outcome := app.Init(env);
    assert outcome == WaitingForNetwork;
    assert app.events == [
      AppInitStatus(Initializing, Some(LinkProviderAccount), None, None, None),
      AppInitStatus(Initializing, Some(ChangeNetwork), None, Some("mainnet"), None)];
  }

  /** A wallet that grants no account: `init` rejects and the status goes back to UNINITIALIZED. */
  method AccountWithdrawn()
  {
    var app := new WebSdk.WebSdk(1, None, Names);
    var env := InitEnv(1, [], 1, {}, [], 1, None);
    var outcome := app.Init(env);
    assert outcome == Failed(AccountAccessWithdrawn);
    assert app.events == [
      AppInitStatus(Initializing, Some(LinkProviderAccount), None, None, None),
      AppInitStatus(Uninitialized, None, None, Some("mainnet"), None)];
  }

  /**
   * The wallet moves to another chain while the Sdk is created: `init` still resolves, but
   * its closing network check destroys.
   */
  method NetworkSwitchDuringInit()
  {
    var a := EthAddress([5]);
    var app := new WebSdk.WebSdk(1, Some(a), Names);
    var outcome := app.Init(InitEnv(1, [], 1, {a}, [], 4, None));
    assert outcome == Done;
    assert app.events == [
      AppInitStatus(Initializing, Some(LinkProviderAccount), None, None, None),
      AppInitStatus(Initialized, None, Some(a), Some("mainnet"), None),
      AppInitStatus(Uninitialized, None, Some(a), Some("mainnet"), None)];
    assert !app.sdkAlive && !app.ethProviderAlive && app.listening;
  }

  /**
   * A wallet that withdraws its account after `init`: the error escapes the listener, the
   * status loses its account but stays INITIALIZED, and nothing is emitted or destroyed.
   */
  method WithdrawnAccountStaysInitialized()
  {
    var a := EthAddress([3]);
    var app := new WebSdk.WebSdk(1, Some(a), Names);
    var outcome := app.Init(InitEnv(1, [], 1, {a}, [], 1, None));
    assert outcome == Done;
    var before := app.events;
    var escaped := app.OnAccountUpdated(None, true);
    assert escaped == Some(AccountAccessWithdrawn);
    assert app.IsInitialized() && app.GetInitStatus().account == None;
    assert app.events == before && app.sdkAlive && app.ethProviderAlive;
  }

  /** The same withdrawal once `accountChanged` is `async`: everything is destroyed. */
  method WithdrawnAccountDestroysWhenAsync()
  {
    var a := EthAddress([3]);
    var app := new WebSdk.WebSdk(1, Some(a), Names);
    var outcome := app.Init(InitEnv(1, [], 1, {a}, [], 1, None));
    assert outcome == Done;
    app.OnAccountUpdatedAsync(None, true);
    assert !app.IsInitialized() && !app.sdkAlive && !app.ethProviderAlive;
    assert Last(app.events) == AppInitStatus(Uninitialized, None, None, Some("mainnet"), None);
  }

  /** A second `destroy` emits UNINITIALIZED again and changes nothing else. */
  method DestroyTwice()
  {
    var a := EthAddress([9]);
    var app := new WebSdk.WebSdk(1, Some(a), Names);
    var outcome := app.Init(InitEnv(1, [], 1, {a}, [], 1, None));
    assert outcome == Done;
    app.Destroy();
    var first := app.GetInitStatus();
    app.Destroy();
    assert app.GetInitStatus() == first == AppInitStatus(Uninitialized, None, Some(a), Some("mainnet"), None);
    assert app.events[|app.events| - 2] == app.events[|app.events| - 1];
  }

  /** The status query answers with the values captured at construction. */
  method StatusSnapshot(now: int)
  {
    var resolver := new ServerStatusResolver.ServerStatusResolver(ServerStatusResolver.ServerConfig(60000), 1, "mainnet", "0x00");
    assert resolver.ServerStatus() == ServerStatusResolver.StaticServerStatus(1, "mainnet", "0x00");
    var q := ServerStatusResolver.PublishQueries(None, None, Some(1000), Some(5000));
    assert resolver.NextPublishTimeAt(q, now) == 91000;
  }
}
