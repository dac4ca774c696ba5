/** The network slice of the Redux store (`store/slices/networkSlice.ts`):
    the last connectivity report and whether one has arrived, two reducers,
    and two selectors. */
module NetworkSlice {
  import opened Base

  /** `NetInfoStateType`: the kinds of connection the platform reports. */
  datatype ConnectionType = UnknownType | NoConnection | Cellular | Wifi | Bluetooth | Ethernet | Wimax | Vpn | Other

  /** `NetworkState`. */
  datatype NetworkState = NetworkState(
    isConnected: bool,
    isInternetReachable: bool,
    kind: ConnectionType,
    isWifiEnabled: bool,
    isCellularEnabled: bool)

  datatype SliceState = SliceState(state: Option<NetworkState>, isInitialized: bool)

  /** `initialState`: no report, not initialised. */
  const Initial := SliceState(None, false)

  datatype Action = SetNetworkState(report: NetworkState) | ResetNetworkState

  /** A report is held exactly when monitoring has been initialised. */
  predicate Consistent(s: SliceState) {
    s.isInitialized <==> s.state.Some?
  }

  /** The slice's reducer: a report replaces the held one and marks the
      slice initialised; a reset returns to the initial state. */
  function Reduce(s: SliceState, a: Action): (t: SliceState)
    ensures Consistent(t)
    ensures a.SetNetworkState? ==> t.state == Some(a.report) && t.isInitialized
    ensures a.ResetNetworkState? ==> t == Initial
  {
    match a
    case SetNetworkState(report) => s.(state := Some(report), isInitialized := true)
    case ResetNetworkState => s.(state := None, isInitialized := false)
  }

  /** `selectIsOnline`: the held report's `isConnected`, false without one. */
  function IsOnline(s: SliceState): (online: bool)
    ensures online <==> s.state.Some? && s.state.value.isConnected
  {
    if s.state.Some? then s.state.value.isConnected else false
  }

  /** `selectNetworkState`: the held report. */
  function SelectNetworkState(s: SliceState): (r: Option<NetworkState>)
    ensures r.Some? <==> s.state.Some?
    ensures r.Some? ==> r.value == s.state.value
  {
    s.state
  }

  /** The state after dispatching `actions` in order from `s`. */
  function ReduceAll(s: SliceState, actions: seq<Action>): SliceState
    decreases |actions|
  {
    if actions == [] then s
    else Reduce(ReduceAll(s, actions[..|actions| - 1]), actions[|actions| - 1])
  }

  /** Only the last action matters: after any run the slice holds the report
      of the last action when it set one, and is initial otherwise. The
      device counts as online exactly when that report says connected. */
  lemma LastActionDecides(s: SliceState, actions: seq<Action>)
    requires actions != []
    ensures var t := ReduceAll(s, actions);
      var last := actions[|actions| - 1];
      && (last.ResetNetworkState? ==> t == Initial)
      && (last.SetNetworkState? ==>
            SelectNetworkState(t) == Some(last.report) && (IsOnline(t) <==> last.report.isConnected))
  {
  }

  /** Every reachable state is consistent, and before any report the device
      counts as offline. */
  lemma {:induction false} ReachableConsistent(actions: seq<Action>)
    ensures Consistent(ReduceAll(Initial, actions))
    ensures (forall k :: 0 <= k < |actions| ==> actions[k].ResetNetworkState?) ==>
      !IsOnline(ReduceAll(Initial, actions))
    decreases |actions|
  {
    if actions != [] {
      ReachableConsistent(actions[..|actions| - 1]);
    }
  }
}
