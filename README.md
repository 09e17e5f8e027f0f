# WebSdk initialisation and the publish-time estimate, in Dafny

This project models two pieces of the aztec-connect repository and proves properties of them.

**The `WebSdk` coordinator** (sdk/src/web_sdk/index.ts) links a wallet provider such as
MetaMask to an aztec Sdk. It owns one `AppInitStatus` record (`initState`, `initAction`,
`account`, `network`, `message`). Every transition through `updateInitStatus` emits a
snapshot of that record as `APPEVENT_UPDATED_INIT_STATE`. `init` runs these steps in order, and
each rejection is passed on once `destroy` has been started (it is not awaited):

1. link the provider;
2. wait until the provider is on the rollup provider's chain;
3. create the Sdk and relay its init messages;
4. link the provider's account;
5. attach the account listener;
6. check the network once more;
7. attach the network listener.

The model is imperative, in the source's shape:

- `WebSdk.WebSdk` is a class. Its fields are the status record, the emitted snapshots
  (`events`) and abstract state for the provider and the Sdk: chain ids, the account, which
  objects exist and are alive, and which accounts have users.
- Each source method is a method that changes those fields.
- The foreign calls that `init` awaits become the answers recorded in an `InitEnv` value:
  - the rollup provider's chain id;
  - the chain ids seen by successive 500 ms polls;
  - the new Sdk's chain id and users;
  - the init-state updates the Sdk emits;
  - the provider's chain id at the closing network check;
  - which call rejects, if any.
- `InitSpec.InitTrace` states, as a pure function, the exact snapshots one `init` appends.
  `InitSpec.InitOutcomeOf` states how it ends. `WebSdk.WebSdk.Init` is proved to produce
  exactly those.
- Lemmas about `InitTrace` prove the following:
  - the event order the class comment documents;
  - when CHANGE_NETWORK and LINK_AZTEC_ACCOUNT occur;
  - that every rejection ends in UNINITIALIZED;
  - how a resolved `init` ends, decided by the chain the wallet is on at the closing network
    check (the wallet may have switched while the Sdk was created).

**The publish-time estimate** (falafel/src/resolver/server_status_resolver.ts) is
`nextPublishTime`, a cascade over four optional repository lookups, in integer milliseconds.
It is modelled as the function `ServerStatusResolver.NextPublishTime`, with the clock as a
parameter, and lemmas give each branch's value and which inputs it depends on. The resolver
class keeps the status snapshot that its constructor copies as a read-only field.

The model follows the code as written; in particular:

- `destroy` does not clear the account: line 154 is a comparison (`===`), not an assignment.
  The status after `destroy` therefore keeps `account` as well as `network`.
- After `init`, a wallet that withdraws its account does not destroy anything (see
  "## Findings"). `WebSdk.WebSdk.OnAccountUpdated` models the listener as written;
  `WebSdk.WebSdk.OnAccountUpdatedAsync` models the evidently intended behaviour.
- The Sdk's INITIALIZING messages clear `initAction` (line 89 passes `undefined`).
- Writing the rollup provider's `network` (line 70) emits nothing.

Files:

- `wrappers.dfy`: `Option` and `Last`.
- `app_init.dfy`: the status record, `updateInitStatus` as a function, the phase order and the
  Sdk-message handler's snapshots.
- `init_trace.dfy`: the specification of one `init`.
- `web_sdk.dfy`: the class.
- `server_status_resolver.dfy`: the estimate and the resolver.
- `scenarios.dfy`: scenarios whose emitted snapshots Dafny proves exactly.

## Model

| member | source | states |
|---|---|---|
| WebSdk.WebSdk.constructor | sdk/src/web_sdk/index.ts:53-57 | a new coordinator is UNINITIALIZED, has emitted nothing, and has neither an EthProvider nor an Sdk |
| WebSdk.WebSdk.UpdateInitStatus | sdk/src/web_sdk/index.ts:115-123 | the status takes the given state, action and message (undefined when omitted), keeps account and network, and exactly that new status is appended to the emitted stream |
| AppInit.UpdatedForgetsPrevious | sdk/src/web_sdk/index.ts:116-121 | because the spread overwrites state, action and message together, a transition forgets those of the one before it: only account and network carry over |
| AppInit.DestroyedIdempotent | sdk/src/web_sdk/index.ts:150-156 | a second `destroy` produces the same status as the first, and both keep the account and network |
| WebSdk.WebSdk.AccountChanged | sdk/src/web_sdk/index.ts:125-142 | the account is written in place on every path. No account rejects with "account access withdrawn" and emits nothing. A registered account emits one INITIALIZED. A new account emits LINK_AZTEC_ACCOUNT and then either joins the Sdk's users and emits INITIALIZED, or rejects when `addUser` rejects. Whenever it resolves, `getUser` then answers the account's user |
| WebSdk.WebSdk.NetworkChanged | sdk/src/web_sdk/index.ts:144-148 | destroys exactly when the provider's chain differs from the Sdk's, and otherwise changes nothing; afterwards `isCorrectNetwork` holds or the status is UNINITIALIZED |
| WebSdk.WebSdk.Destroy | sdk/src/web_sdk/index.ts:150-156 | the Sdk and the provider are no longer alive, and one UNINITIALIZED snapshot is emitted with action and message cleared and account and network kept |
| WebSdk.WebSdk.IsInitialized | sdk/src/web_sdk/index.ts:162-164 | true exactly when the status is INITIALIZED, and then the last emitted snapshot is INITIALIZED too |
| WebSdk.WebSdk.IsCorrectNetwork | sdk/src/web_sdk/index.ts:166-169 | true exactly when the provider's chain id equals the Sdk's local chain id; `NetworkChanged` and `OnNetworkUpdated` ensure it holds after every network check that does not destroy |
| WebSdk.WebSdk.GetInitStatus | sdk/src/web_sdk/index.ts:171-173 | the current status, which is UNINITIALIZED while nothing has been emitted |
| WebSdk.WebSdk.GetUser | sdk/src/web_sdk/index.ts:175-177 | defined exactly when the status has an account the Sdk has a user for, and then it is that account's user; `AccountChanged` and the account listeners ensure it answers the linked account whenever linking resolves |
| WebSdk.WebSdk.OnSdkInitState | sdk/src/web_sdk/index.ts:87-91 | an INITIALIZING update from the Sdk emits (INITIALIZING, no action, its message); any other state emits nothing |
| AppInit.SdkInitEvents | sdk/src/web_sdk/index.ts:87-91 | the handler's snapshots for a stream of updates: at most one per update, each INITIALIZING with no action and unchanged account and network, and none exactly when no update is INITIALIZING |
| AppInit.SdkInitEventsSnoc | sdk/src/web_sdk/index.ts:87-91 | one more update appends that update's own snapshot when it is INITIALIZING, and nothing otherwise |
| AppInit.SdkInitEventsMessages | sdk/src/web_sdk/index.ts:87-91 | every message the handler emits is the message of some INITIALIZING update |
| AppInit.SdkInitEventsInPhaseOrder | sdk/src/web_sdk/index.ts:41-42 | the handler's snapshots are all "info message" snapshots, so they carry no action |
| WebSdk.WebSdk.RunSdkInit | sdk/src/web_sdk/index.ts:87-93 | `sdk.init()` with the handler attached appends exactly the handler's snapshots for the Sdk's updates, in order |
| WebSdk.WebSdk.AwaitChainId | sdk/src/web_sdk/index.ts:73-75 | the poll ends exactly when the provider is already on the target chain or some poll sees it there, and then the provider is on it; otherwise the provider is where the last poll saw it |
| WebSdk.WebSdk.AwaitRollupNetwork | sdk/src/web_sdk/index.ts:69-76 | records the rollup network without emitting, emits CHANGE_NETWORK exactly when the chains differ, then polls |
| WebSdk.WebSdk.LinkProvider | sdk/src/web_sdk/index.ts:62-76 | emits LINK_PROVIDER_ACCOUNT; a rejected provider set-up or status fetch destroys; `init` goes on exactly when it gets past the network poll, with the CHANGE_NETWORK snapshot exactly when the chains differed |
| WebSdk.WebSdk.StartSdk | sdk/src/web_sdk/index.ts:78-93 | creates the Sdk and runs its init: a rejected `createSdk` or `sdk.init()` destroys, and otherwise the account is linked; the snapshots appended are exactly those of the specification; once created, the Sdk is alive exactly while the provider is |
| WebSdk.WebSdk.LinkAccount | sdk/src/web_sdk/index.ts:95-106 | links the provider's account, destroying on rejection; on success it attaches the listeners and runs one network check against the chain the wallet is on by then; users grow by the account exactly when it is new and `addUser` resolves |
| WebSdk.WebSdk.Init | sdk/src/web_sdk/index.ts:59-113 | the snapshots appended are exactly `InitTrace` and the outcome exactly `InitOutcomeOf`; listeners are attached exactly when `init` resolves; the provider is alive exactly while the status is not UNINITIALIZED, and a created Sdk exactly while the provider is; the final chain id, Sdk chain id and users are stated |
| WebSdk.WebSdk.OnAccountUpdated | sdk/src/web_sdk/index.ts:99-101 | an account change after `init` runs `accountChanged`. A withdrawn account throws synchronously, so the error escapes before `.catch` and only the account is cleared: nothing is emitted or destroyed. A rejected `addUser` destroys. For each kind of account it states the exact snapshots appended and which users result |
| WebSdk.WebSdk.OnAccountUpdatedAsync | sdk/src/web_sdk/index.ts:125-129 | the listener with `accountChanged` made `async`: a withdrawn account destroys everything and ends UNINITIALIZED, as the comment at line 128 intends; other accounts behave as in `OnAccountUpdated` |
| WebSdk.WebSdk.OnNetworkUpdated | sdk/src/web_sdk/index.ts:106 | a network change after `init` destroys exactly when the new chain is not the Sdk's; afterwards the network is correct or the status is UNINITIALIZED |
| InitSpec.InitTraceStartsLinkingProvider | sdk/src/web_sdk/index.ts:63 | every `init` emits at least two snapshots, the first (INITIALIZING, LINK_PROVIDER_ACCOUNT, message cleared) |
| InitSpec.InitTraceInPhaseOrder | sdk/src/web_sdk/index.ts:36-49 | one `init`'s snapshots follow the documented order: LINK_PROVIDER_ACCOUNT, CHANGE_NETWORK, info messages, LINK_AZTEC_ACCOUNT, INITIALIZED, UNINITIALIZED |
| InitSpec.InitTraceChangeNetworkIff | sdk/src/web_sdk/index.ts:71-72 | CHANGE_NETWORK is emitted if and only if `init` gets past the status fetch and the rollup provider's chain differs from the provider's |
| InitSpec.InitTraceLinkAztecIff | sdk/src/web_sdk/index.ts:131-134 | LINK_AZTEC_ACCOUNT is emitted if and only if `init` reaches `accountChanged` with an account the new Sdk has no user for |
| InitSpec.LinkTraceShape | sdk/src/web_sdk/index.ts:125-142 | account linking emits only LINK_AZTEC_ACCOUNT or later phases, in order, and LINK_AZTEC_ACCOUNT exactly for an unregistered account |
| InitSpec.SdkTraceShape | sdk/src/web_sdk/index.ts:78-106 | from the Sdk's creation on, snapshots are info messages or later phases in order, never CHANGE_NETWORK |
| InitSpec.InitTraceFailureDestroys | sdk/src/web_sdk/index.ts:109-112 | a rejected `init` always ends with UNINITIALIZED, with action and message cleared |
| InitSpec.InitTraceWaitingStaysOnChangeNetwork | sdk/src/web_sdk/index.ts:71-75 | while the provider stays on the wrong chain, `init` has emitted exactly two INITIALIZING snapshots, the last being CHANGE_NETWORK with the rollup network |
| InitSpec.InitTraceDone | sdk/src/web_sdk/index.ts:95-106 | a resolved `init` ends with the provider's account in the status: INITIALIZED if and only if the new Sdk is on the chain the wallet is on at the closing check, and UNINITIALIZED otherwise |
| InitSpec.LinkTraceDone | sdk/src/web_sdk/index.ts:131-141 | a successful link ends with the account in the status, and the closing network check, comparing the wallet's chain then with the Sdk's, decides between INITIALIZED and UNINITIALIZED |
| ServerStatusResolver.ServerStatusResolver.constructor | falafel/src/resolver/server_status_resolver.ts:31-35 | the snapshot holds exactly the chain id, network or host, and rollup contract address given at construction; it is a read-only field |
| ServerStatusResolver.ServerStatusResolver.ServerStatus | falafel/src/resolver/server_status_resolver.ts:38-41 | the query answers the read-only snapshot the constructor fixed, so every call answers the same |
| ServerStatusResolver.NextPublishTime | falafel/src/resolver/server_status_resolver.ts:63-103 | the value of each branch of the cascade: creating rollup alone, creation + 30 000; behind a published rollup, creation + 30 000 + (published + 90 000 − now); pending transaction, its time + maximum wait + 30 000; latest transaction, its time + 1 830 000; nothing, now + 1 830 000 |
| ServerStatusResolver.ServerStatusResolver.NextPublishTimeAt | falafel/src/resolver/server_status_resolver.ts:89-93 | the field uses the server's configured maximum rollup wait for a pending transaction |
| ServerStatusResolver.CreatingRollupTakesPriority | falafel/src/resolver/server_status_resolver.ts:73-83 | with a rollup being created, the estimate depends on neither transaction lookup nor the configured wait |
| ServerStatusResolver.CreatingRollupWithoutPublished | falafel/src/resolver/server_status_resolver.ts:78-82 | with a creating rollup and no published one, the estimate does not depend on the clock |
| ServerStatusResolver.CreatingRollupBehindPublished | falafel/src/resolver/server_status_resolver.ts:74-82 | with both, the estimate moves earlier one for one as time passes, and exceeds creation + 30 000 exactly while the published rollup has not settled |
| ServerStatusResolver.PendingTxEstimate | falafel/src/resolver/server_status_resolver.ts:85-93 | with no creating rollup and a pending transaction, the estimate is at least its time + 30 000 ms when the wait is not negative, and shifts one for one with the configured wait |
| ServerStatusResolver.PendingTxTakesPriority | falafel/src/resolver/server_status_resolver.ts:85-93 | that estimate depends on neither the clock, the published rollup nor the latest transaction |
| ServerStatusResolver.IdleEstimate | falafel/src/resolver/server_status_resolver.ts:95-102 | with no pending work, a latest transaction makes the estimate independent of the clock; with no transaction at all, the estimate is later than now |
| ServerStatusResolver.PublishedRollupNeedsCreating | falafel/src/resolver/server_status_resolver.ts:73-93 | the published rollup is consulted only when a rollup is being created |

## Findings

| source | as written | input that shows it | evidently intended | confidence | as-written member | corrected member |
|---|---|---|---|---|---|---|
| sdk/src/web_sdk/index.ts:100 | `accountChanged` (line 125) is not `async`, so its `throw` for a withdrawn account (line 129) leaves the UPDATED_ACCOUNT listener before `.catch(() => this.destroy())` is reached; the account is cleared and the status stays as it was | `init` resolves with a registered account, then the wallet reports no account: the status is INITIALIZED with no account, nothing is emitted | destroy everything and return to UNINITIALIZED, as the comment at line 128 says | high; not executed | `WebSdk.WebSdk.OnAccountUpdated`, shown by `Scenarios.WithdrawnAccountStaysInitialized` | `WebSdk.WebSdk.OnAccountUpdatedAsync`, shown by `Scenarios.WithdrawnAccountDestroysWhenAsync` |

## Left out

- Asynchrony: each handler and each awaited step runs as one atomic step. Interleavings of `init` with listener callbacks, or of two `init` calls, are not modelled.
- The 500 ms poll (lines 73-75) may run forever. The model takes a finite list of observed chain ids; when the list runs out without a match, the outcome is `WaitingForNetwork`, meaning `init` is still suspended.
- The relay of every Sdk event (lines 80-84), `getSdk` (lines 158-160) and the `debug` logging are not modelled. They write nothing to the status and emit no status snapshot.
- The internals of `EthProvider`, `createSdk`, `getRollupProviderStatus`, `Sdk`, `chainIdToNetwork` and `EthAddress` are not part of this model. They are abstract state or answers recorded in `InitEnv`, and `chainIdToNetwork` is a function parameter.
- The values of the status fields are abstract: an address is a byte string and `network` is the name returned by `chainIdToNetwork`.
- WebSdk.WebSdk.GetInitStatus: returns the status as a value. The source returns the live record, which later in-place writes of `account` and `network` would alias.
- WebSdk.WebSdk.Destroy: `destroy` awaits the Sdk's teardown before it emits. Its callers at lines 100, 110 and 146 do not await it, so the UNINITIALIZED snapshot always comes after the caller has settled. The model emits it within the call.
- WebSdk.WebSdk.Destroy: the model assumes both teardowns succeed. In the source, a rejection of `this.sdk?.destroy()` (line 152) or a throw from `this.ethProvider?.destroy()` (line 153) makes `destroy` reject before line 155: nothing is emitted and the status stays as it was (INITIALIZED, after a mismatch at line 146). That error path is not modelled.
- WebSdk.WebSdk.Destroy: the effect of destroying the provider on listeners still attached to it is not part of this model. Later listener methods only require that the listeners were attached.
- WebSdk.WebSdk.GetUser: requires an Sdk. Called before `init` has created one, the source throws a TypeError (line 176); that error is not modelled. The source's non-null assertions there are unchecked, and the model returns no user when the status has no account.
- WebSdk.WebSdk.IsCorrectNetwork: requires an Sdk and a provider. Called before `init` has created them, the source throws a TypeError (line 167); that error is not modelled.
- WebSdk.WebSdk.Init: the wallet's chain id is read only by the poll and by the closing network check. A switch while the Sdk is created and the account linked is modelled as having taken effect by the closing check (`closingChainId`). On paths that reject before that check, the model's chain id stays what the poll saw.
- WebSdk.WebSdk.Init: a second `init` is allowed on a WebSdk whose first `init` has finished, and the model then forgets the first objects. In the source, line 65 replaces `this.ethProvider` without destroying the first EthProvider, so its UPDATED_ACCOUNT and UPDATED_NETWORK listeners (lines 99-106) stay attached. Line 78 replaces `this.sdk`, so the first Sdk's UPDATED_INIT_STATE handler (lines 87-91) stays attached, and so do its other event relays. The model keeps one provider and one Sdk: `listening`, `hasSdk` and `sdkAlive` describe only the newest ones, and events from the replaced objects are not modelled.
- WebSdk.WebSdk.OnAccountUpdated: the error that escapes the listener is returned as a value. What the provider's event emitter does with it is not part of this model.
- WebSdk.WebSdk.AccountChanged: `sdk.getUser` and `sdk.addUser` are modelled as membership in, and insertion into, the set of accounts the Sdk has users for.
- ServerStatusResolver.NextPublishTime: `Date` values are integer milliseconds. `maxRollupWaitTime.asMilliseconds()` is taken to be an integer.
- The resolver's `dataSize`, `dataRoot`, `nullRoot` and `rootRoot` field resolvers (lines 43-61), the TypeORM queries and the GraphQL decorators are not modelled. The query results are the optional inputs of `PublishQueries`.
- The remaining fields of the server's `ServerStatus`: server.ts is not part of this model.
- The zk-money view that renders a failed initialisation (zk-money/src/views/app_init_failed.tsx) and barretenberg's `point.hpp` are not part of this model.
