/**
 * The status record the WebSdk coordinator owns and emits (sdk/src/web_sdk/index.ts),
 * its one transition function, and facts about the streams of status snapshots.
 */
module AppInit {
  import opened Wrappers

  datatype AppInitState = Uninitialized | Initializing | Initialized

  datatype AppInitAction = LinkProviderAccount | LinkAztecAccount | ChangeNetwork

  /** An Ethereum address; only its identity matters here. */
  datatype EthAddress = EthAddress(bytes: seq<bv8>)

  /** `AppInitStatus`: every field but `initState` may be undefined. */
  datatype AppInitStatus = AppInitStatus(
    initState: AppInitState,
    initAction: Option<AppInitAction>,
    account: Option<EthAddress>,
    network: Option<string>,
    message: Option<string>)

  /** The status a fresh WebSdk starts with. */
  const InitialStatus := AppInitStatus(Uninitialized, None, None, None, None)

  /**
   * `updateInitStatus`: the status after spreading the old one and overwriting the state,
   * the action and the message (an omitted argument is undefined).
   */
  function Updated(st: AppInitStatus, state: AppInitState, action: Option<AppInitAction>,
                   message: Option<string>): (r: AppInitStatus)
    ensures r.initState == state && r.initAction == action && r.message == message
    ensures r.account == st.account && r.network == st.network
  {
    st.(initState := state, initAction := action, message := message)
  }

  /** The status `destroy` emits: back to UNINITIALIZED, with account and network kept. */
  function Destroyed(st: AppInitStatus): AppInitStatus
  {
    Updated(st, Uninitialized, None, None)
  }

  /**
   * A transition forgets the state, action and message of the one before it: what a status
   * carries over from earlier transitions is its account and network alone.
   */
  lemma UpdatedForgetsPrevious(st: AppInitStatus, state1: AppInitState, action1: Option<AppInitAction>,
                               message1: Option<string>, state2: AppInitState, action2: Option<AppInitAction>,
                               message2: Option<string>)
    ensures Updated(Updated(st, state1, action1, message1), state2, action2, message2) ==
            Updated(st, state2, action2, message2)
  {
  }

  /** A second `destroy` produces the same status as the first. */
  lemma DestroyedIdempotent(st: AppInitStatus)
    ensures Destroyed(Destroyed(st)) == Destroyed(st)
    ensures Destroyed(st).account == st.account && Destroyed(st).network == st.network
  {
  }

  /**
   * The emitted stream agrees with the current status on every field the transition function
   * writes; `account` and `network` may differ, since they are also written in place.
   */
  ghost predicate Reflects(st: AppInitStatus, events: seq<AppInitStatus>)
  {
    if events == [] then
      st.initState == Uninitialized && st.initAction == None && st.message == None
    else
      var e := Last(events);
      e.initState == st.initState && e.initAction == st.initAction && e.message == st.message
  }

  predicate EmitsAction(events: seq<AppInitStatus>, action: AppInitAction)
  {
    exists i | 0 <= i < |events| :: events[i].initAction == Some(action)
  }

  /** An action occurs in a concatenation exactly when it occurs in one of its parts. */
  lemma EmitsActionConcat(a: seq<AppInitStatus>, b: seq<AppInitStatus>, action: AppInitAction)
    ensures EmitsAction(a + b, action) <==> EmitsAction(a, action) || EmitsAction(b, action)
  {
    var ab := a + b;
    if EmitsAction(ab, action) {
      var i :| 0 <= i < |ab| && ab[i].initAction == Some(action);
      if i < |a| { assert a[i] == ab[i]; } else { assert b[i - |a|] == ab[i]; }
    }
    if EmitsAction(a, action) {
      var i :| 0 <= i < |a| && a[i].initAction == Some(action);
      assert ab[i] == a[i];
    }
    if EmitsAction(b, action) {
      var i :| 0 <= i < |b| && b[i].initAction == Some(action);
      assert ab[|a| + i] == b[i];
    }
  }

  /**
   * The position of a snapshot in the order the class comment gives for one initialization:
   * LINK_PROVIDER_ACCOUNT, CHANGE_NETWORK, info messages, LINK_AZTEC_ACCOUNT, INITIALIZED,
   * DESTROYED (that is, UNINITIALIZED).
   */
  function Phase(e: AppInitStatus): nat
  {
    match e.initState
    case Uninitialized => 5
    case Initialized => 4
    case Initializing =>
      match e.initAction
      case Some(LinkProviderAccount) => 0
      case Some(ChangeNetwork) => 1
      case None => 2
      case Some(LinkAztecAccount) => 3
  }

  predicate InPhaseOrder(events: seq<AppInitStatus>)
  {
    forall i, j | 0 <= i < j < |events| :: Phase(events[i]) <= Phase(events[j])
  }

  predicate PhasesAtMost(events: seq<AppInitStatus>, p: nat)
  {
    forall i | 0 <= i < |events| :: Phase(events[i]) <= p
  }

  predicate PhasesAtLeast(events: seq<AppInitStatus>, p: nat)
  {
    forall i | 0 <= i < |events| :: p <= Phase(events[i])
  }

  /** Two phase-ordered streams split at phase `p` concatenate to a phase-ordered stream. */
  lemma ConcatInPhaseOrder(a: seq<AppInitStatus>, b: seq<AppInitStatus>, p: nat)
    requires InPhaseOrder(a) && InPhaseOrder(b)
    requires PhasesAtMost(a, p) && PhasesAtLeast(b, p)
    ensures InPhaseOrder(a + b)
  {
    var ab := a + b;
    forall i, j | 0 <= i < j < |ab| ensures Phase(ab[i]) <= Phase(ab[j]) {
      if j < |a| {
        assert ab[i] == a[i] && ab[j] == a[j];
      } else if i < |a| {
        assert ab[i] == a[i] && ab[j] == b[j - |a|];
      } else {
        assert ab[i] == b[i - |a|] && ab[j] == b[j - |a|];
      }
    }
  }

  /** The state the Sdk reports with `SdkEvent.UPDATED_INIT_STATE`; only INITIALIZING is acted on. */
  datatype SdkInitState = SdkInitializing | SdkOtherState

  datatype SdkInitUpdate = SdkInitUpdate(state: SdkInitState, message: Option<string>)

  /**
   * The snapshots the Sdk-message handler emits, starting from status `st`, for a stream of
   * Sdk init-state updates: one `(INITIALIZING, action undefined, message)` per INITIALIZING
   * update, in order, and nothing for the others.
   */
  function SdkInitEvents(st: AppInitStatus, updates: seq<SdkInitUpdate>): (es: seq<AppInitStatus>)
    ensures |es| <= |updates|
    ensures forall i | 0 <= i < |es| ::
      es[i].initState == Initializing && es[i].initAction == None &&
      es[i].account == st.account && es[i].network == st.network
    ensures es == [] <==> forall k | 0 <= k < |updates| :: updates[k].state != SdkInitializing
    decreases |updates|
  {
    if updates == [] then []
    else
      var rest := SdkInitEvents(st, updates[1..]);
      assert forall k | 0 < k < |updates| :: updates[k] == updates[1..][k - 1];
      if updates[0].state == SdkInitializing then
        [Updated(st, Initializing, None, updates[0].message)] + rest
      else rest
  }

  /** Handling one more update appends at most its own snapshot. */
  lemma {:induction false} SdkInitEventsSnoc(st: AppInitStatus, updates: seq<SdkInitUpdate>, u: SdkInitUpdate)
    ensures SdkInitEvents(st, updates + [u]) ==
            SdkInitEvents(st, updates) +
            (if u.state == SdkInitializing then [Updated(st, Initializing, None, u.message)] else [])
    decreases |updates|
  {
    if updates == [] {
      assert [] + [u] == [u];
    } else {
      assert (updates + [u])[1..] == updates[1..] + [u];
      SdkInitEventsSnoc(st, updates[1..], u);
    }
  }

  /** The status once the Sdk's init has emitted `updates`, from status `st`. */
  function SdkInformed(st: AppInitStatus, updates: seq<SdkInitUpdate>): AppInitStatus
  {
    var messages := SdkInitEvents(st, updates);
    if messages == [] then st else Last(messages)
  }

  /** One more update moves the status to that update's snapshot, or leaves it. */
  lemma SdkInformedSnoc(st: AppInitStatus, updates: seq<SdkInitUpdate>, u: SdkInitUpdate)
    ensures SdkInformed(st, updates + [u]) ==
            if u.state == SdkInitializing then Updated(st, Initializing, None, u.message) else SdkInformed(st, updates)
  {
    SdkInitEventsSnoc(st, updates, u);
  }

  /** Every snapshot of the message handler carries exactly the message of some INITIALIZING update. */
  lemma {:induction false} SdkInitEventsMessages(st: AppInitStatus, updates: seq<SdkInitUpdate>, i: nat)
    requires i < |SdkInitEvents(st, updates)|
    ensures exists k | 0 <= k < |updates| ::
      updates[k].state == SdkInitializing && SdkInitEvents(st, updates)[i].message == updates[k].message
    decreases |updates|
  {
    var rest := SdkInitEvents(st, updates[1..]);
    if updates[0].state == SdkInitializing && i == 0 {
      assert SdkInitEvents(st, updates)[0].message == updates[0].message;
    } else {
      var j := if updates[0].state == SdkInitializing then i - 1 else i;
      assert SdkInitEvents(st, updates)[i] == rest[j];
      SdkInitEventsMessages(st, updates[1..], j);
      var k :| 0 <= k < |updates[1..]| && updates[1..][k].state == SdkInitializing &&
               rest[j].message == updates[1..][k].message;
      assert updates[k + 1] == updates[1..][k];
    }
  }

  /** The message handler's snapshots are all info messages, so they are phase ordered. */
  lemma SdkInitEventsInPhaseOrder(st: AppInitStatus, updates: seq<SdkInitUpdate>)
    ensures InPhaseOrder(SdkInitEvents(st, updates))
    ensures forall a: AppInitAction :: !EmitsAction(SdkInitEvents(st, updates), a)
    ensures PhasesAtMost(SdkInitEvents(st, updates), 2) && PhasesAtLeast(SdkInitEvents(st, updates), 2)
  {
  }
}
