/**
 * The reachability sources and the edge detection in front of the connection
 * logic: each source's raw state is mapped to online/offline, and only a value
 * different from the current one is acted upon.
 */
module Reachability {
  import opened Common

  /** NetworkManager's `NM_STATE_CONNECTING`. */
  const NmStateConnecting: int := 40
  /** NetworkManager's `NM_STATE_CONNECTED_GLOBAL`. */
  const NmStateConnectedGlobal: int := 70

  /** A NetworkManager state change: online on full connectivity, offline up to "connecting", ignored otherwise. */
  function NmStateOnline(state: int): (r: Option<bool>)
    ensures r == Some(true) <==> state == NmStateConnectedGlobal
    ensures r == Some(false) <==> state <= NmStateConnecting
    ensures r.None? <==> NmStateConnecting < state && state != NmStateConnectedGlobal
  {
    if state == NmStateConnectedGlobal then Some(true)
    else if state <= NmStateConnecting then Some(false)
    else None
  }

  /** A wpa_supplicant state: online exactly in the `completed` state. */
  function WpaStateOnline(state: string): (r: bool)
    ensures r <==> state == "completed"
  {
    state == "completed"
  }

  /** A ConnMan `State` property: online exactly in the `online` state. */
  function ConnmanStateOnline(state: string): (r: bool)
    ensures r <==> state == "online"
  {
    state == "online"
  }

  /** A ConnMan `PropertyChanged` signal: only the `State` property is looked at. */
  function ConnmanPropertyOnline(name: string, value: string): (r: Option<bool>)
    ensures r.Some? <==> name == "State"
    ensures r.Some? ==> (r.value <==> value == "online")
  {
    if name == "State" then Some(ConnmanStateOnline(value)) else None
  }

  /**
   * The values the online-state handler acts upon, given the current state and
   * a sequence of reported values: a value equal to the current state is dropped,
   * any other value becomes the current state.
   */
  function Edges(current: bool, signals: seq<bool>): seq<bool>
    decreases |signals|
  {
    if signals == [] then []
    else if signals[0] == current then Edges(current, signals[1..])
    else [signals[0]] + Edges(signals[0], signals[1..])
  }

  /** The state after a sequence of reported values: the last one, if any. */
  function FinalState(current: bool, signals: seq<bool>): bool
  {
    if signals == [] then current else signals[|signals| - 1]
  }

  /** Acted-upon values alternate, and the first one differs from the starting state. */
  lemma {:induction false} EdgesAlternate(current: bool, signals: seq<bool>)
    ensures var e := Edges(current, signals);
      (e != [] ==> e[0] != current) &&
      forall i :: 0 < i < |e| ==> e[i] != e[i - 1]
    decreases |signals|
  {
    if signals != [] {
      EdgesAlternate(if signals[0] == current then current else signals[0], signals[1..]);
    }
  }

  /** The last acted-upon value is the last reported one: suppression never loses the final state. */
  lemma {:induction false} EdgesReachFinalState(current: bool, signals: seq<bool>)
    ensures var e := Edges(current, signals);
      (if e == [] then current else e[|e| - 1]) == FinalState(current, signals)
    decreases |signals|
  {
    if signals != [] {
      var next := if signals[0] == current then current else signals[0];
      EdgesReachFinalState(next, signals[1..]);
      if |signals| > 1 {
        assert signals[1..][|signals| - 2] == signals[|signals| - 1];
      }
    }
  }
}
