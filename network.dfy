/** The connectivity banner (src/components/NetworkInfo/NetWorkInfo.tsx):
    the flags it reads from the connectivity library and the two pieces of
    state it keeps, the previous offline flag and the "connected again"
    snackbar. */
module Network {
  import opened Base

  /** A tri-state flag of the connectivity library: true, false, or not yet
      known (null / undefined). */
  datatype Flag = Yes | No | Unknown

  datatype NetState = NetState(
    isConnected: Flag,
    isInternetReachable: Flag,
    isConnectionExpensive: Flag,
    connType: Option<string>)

  const UnknownType := "unknown"
  const UnknownLabel := "desconhecida"

  /** Offline only when one of the two flags is known to be false; an
      unknown flag counts as online. */
  predicate IsOffline(n: NetState) {
    n.isConnected == No || n.isInternetReachable == No
  }

  lemma UnknownIsOnline(n: NetState)
    requires n.isConnected != No && n.isInternetReachable != No
    ensures !IsOffline(n)
  {
  }

  /** Offline exactly when one of the two flags is known to be false. */
  lemma OfflineIffKnownFalse(n: NetState)
    ensures IsOffline(n) <==> No in [n.isConnected, n.isInternetReachable]
  {
  }

  /** A metered connection only when the library reports it as such. */
  predicate IsExpensive(n: NetState) {
    n.isConnectionExpensive == Yes
  }

  const MeteredSuffix := " • conexão medida"

  /** The suffix both messages append after the connection type. */
  function MeteredNote(n: NetState): (r: string)
    ensures r == MeteredSuffix <==> IsExpensive(n)
    ensures r == "" <==> !IsExpensive(n)
  {
    if IsExpensive(n) then MeteredSuffix else ""
  }

  /** An unknown or false expense flag shows no "metered" suffix. */
  lemma UnknownIsNotExpensive(n: NetState)
    requires n.isConnectionExpensive != Yes
    ensures !IsExpensive(n) && MeteredNote(n) == ""
  {
  }

  /** The label shown for the connection type. */
  function ConnLabel(n: NetState): (r: string)
    ensures r == UnknownLabel <==> !Truthy(n.connType) || n.connType.value == UnknownType || n.connType.value == UnknownLabel
    ensures r != UnknownLabel ==> n.connType == Some(r) && r != "" && r != UnknownType
  {
    if Truthy(n.connType) && n.connType.value != UnknownType then n.connType.value else UnknownLabel
  }

  /** The banner's state: the previous offline flag (a ref) and whether the
      "connected again" snackbar is visible. */
  datatype BannerState = BannerState(prevOffline: bool, showReconnect: bool)

  const InitialBanner := BannerState(false, false)

  /** What the effect on `isOffline` does: show the snackbar on an
      offline-to-online transition, then remember the new flag. */
  function Step(s: BannerState, offline: bool): (r: BannerState)
    ensures r.prevOffline == offline
    ensures r.showReconnect <==> s.showReconnect || (s.prevOffline && !offline)
  {
    BannerState(offline, s.showReconnect || (s.prevOffline && !offline))
  }

  /** The effect re-running on an unchanged flag changes nothing. */
  lemma StepUnchangedIsNoop(s: BannerState)
    ensures Step(s, s.prevOffline) == s
  {
  }

  /** Events the banner sees: a new offline flag, or the snackbar dismissed. */
  datatype Event = Connectivity(offline: bool) | Dismissed

  function Apply(s: BannerState, e: Event): BannerState {
    match e
    case Connectivity(o) => Step(s, o)
    case Dismissed => s.(showReconnect := false)
  }

  function Run(s: BannerState, events: seq<Event>): BannerState
    decreases |events|
  {
    if events == [] then s else Run(Apply(s, events[0]), events[1..])
  }

  predicate WentOffline(events: seq<Event>) {
    exists i :: 0 <= i < |events| && events[i] == Connectivity(true)
  }

  /** The snackbar is never shown by a run that never went offline. */
  lemma {:induction false} NoReconnectWithoutOutage(s: BannerState, events: seq<Event>)
    requires !s.prevOffline && !s.showReconnect
    requires !WentOffline(events)
    ensures !Run(s, events).prevOffline && !Run(s, events).showReconnect
    decreases |events|
  {
    if events != [] {
      assert events[0] != Connectivity(true);
      var t := Apply(s, events[0]);
      assert !WentOffline(events[1..]) by {
        forall i | 0 <= i < |events[1..]| ensures events[1..][i] != Connectivity(true) {
          assert events[1..][i] == events[i + 1];
        }
      }
      NoReconnectWithoutOutage(t, events[1..]);
    }
  }

  /** After any run, `prevOffline` is the last connectivity flag seen. */
  lemma {:induction false} PrevIsLatest(s: BannerState, events: seq<Event>, o: bool)
    ensures Run(s, events + [Connectivity(o)]).prevOffline == o
    decreases |events|
  {
    if events == [] {
      assert events + [Connectivity(o)] == [Connectivity(o)];
    } else {
      assert (events + [Connectivity(o)])[1..] == events[1..] + [Connectivity(o)];
      PrevIsLatest(Apply(s, events[0]), events[1..], o);
    }
  }

  /** The mounted banner component. */
  class Banner {
    var prevOffline: bool
    var showReconnect: bool

    constructor()
      ensures prevOffline == false && showReconnect == false
    {
      prevOffline := false;
      showReconnect := false;
    }

    function State(): BannerState
      reads this
    {
      BannerState(prevOffline, showReconnect)
    }

    /** The effect run when `isOffline` changes. */
    method OnOfflineChange(offline: bool)
      modifies this
      ensures State() == Step(old(State()), offline)
    {
      if prevOffline && !offline {
        showReconnect := true;
      }
      prevOffline := offline;
    }

    /** The snackbar's dismiss handler. */
    method Dismiss()
      modifies this`showReconnect
      ensures !showReconnect
    {
      showReconnect := false;
    }
  }
}
