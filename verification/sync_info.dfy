/**
 The connection-health monitor behind the account module: a state record
 updated by the provider's `end`/`error` events, the browser's
 `online`/`offline` events and the results of polling the latest block's
 timestamp. The last update other than `online` decides the status; `online`
 only sets `isOnline`.
 */
module SyncInfo {

  datatype ConnectionStatus = Healthy | Warning | Error

  /** The hook's four pieces of state, as it returns them. */
  datatype SyncState = SyncState(
    isListening: bool,
    isOnline: bool,
    connectionStatus: ConnectionStatus,
    syncDelay: int)

  datatype SyncEvent =
      /** The provider emitted `end` or `error`. */
    | ProviderDrop
    | BrowserOffline
    | BrowserOnline
      /** A poll returned; `elapsedMs` is the current time minus the latest block's timestamp. */
    | PollResult(elapsedMs: int)

  const MsPerMinute: int := 1000 * 60
  /** A lag of this many minutes or more is reported as a warning... */
  const WarningLagMinutes: int := 3
  /** ...and of this many minutes or more as an error. */
  const ErrorLagMinutes: int := 30

  /** How unhealthy a status is: Healthy < Warning < Error. */
  function Severity(s: ConnectionStatus): nat {
    match s
    case Healthy => 0
    case Warning => 1
    case Error => 2
  }

  /** `Math.floor(blockDiff / 1000 / 60)`: the lag in whole minutes, rounded down. */
  function LagMinutes(elapsedMs: int): (lag: int)
    ensures lag * MsPerMinute <= elapsedMs < (lag + 1) * MsPerMinute
  {
    elapsedMs / MsPerMinute
  }

  /** The status a lag is reported as. */
  function Classify(lag: int): (s: ConnectionStatus)
    ensures s == Error <==> lag >= ErrorLagMinutes
    ensures s == Warning <==> WarningLagMinutes <= lag < ErrorLagMinutes
    ensures s == Healthy <==> lag < WarningLagMinutes
  {
    if lag >= ErrorLagMinutes then Error
    else if lag >= WarningLagMinutes then Warning
    else Healthy
  }

  /** The thresholds are exact: 2 is healthy, 3 and 29 are warnings, 30 is an error. */
  lemma ClassifyBoundaries()
    ensures Classify(2) == Healthy && Classify(3) == Warning
    ensures Classify(29) == Warning && Classify(30) == Error
    ensures forall lag :: lag < 0 ==> Classify(lag) == Healthy
  {
  }

  /** A larger lag never yields a healthier status. */
  lemma ClassifyIsMonotone(a: int, b: int)
    requires a <= b
    ensures Severity(Classify(a)) <= Severity(Classify(b))
  {
  }

  /** Rounding down to minutes keeps the order of elapsed times. */
  lemma LagIsMonotone(a: int, b: int)
    requires a <= b
    ensures LagMinutes(a) <= LagMinutes(b)
  {
  }

  /**
   The thresholds in milliseconds: under 3 minutes is healthy, from 3 up to
   30 minutes a warning, from 30 minutes on an error. A block timestamp in
   the future (a negative elapsed time) reads as healthy.
   */
  lemma ClassifyElapsed(elapsedMs: int)
    ensures Classify(LagMinutes(elapsedMs)) == Healthy <==> elapsedMs < WarningLagMinutes * MsPerMinute
    ensures Classify(LagMinutes(elapsedMs)) == Warning <==>
              WarningLagMinutes * MsPerMinute <= elapsedMs < ErrorLagMinutes * MsPerMinute
    ensures Classify(LagMinutes(elapsedMs)) == Error <==> elapsedMs >= ErrorLagMinutes * MsPerMinute
  {
    var lag := LagMinutes(elapsedMs);
    if lag < WarningLagMinutes {
      assert (lag + 1) * MsPerMinute <= WarningLagMinutes * MsPerMinute;
    } else if lag < ErrorLagMinutes {
      assert WarningLagMinutes * MsPerMinute <= lag * MsPerMinute;
      assert (lag + 1) * MsPerMinute <= ErrorLagMinutes * MsPerMinute;
    } else {
      assert ErrorLagMinutes * MsPerMinute <= lag * MsPerMinute;
    }
  }

  /** The hook's initial state; `browserOnline` is `window.navigator.onLine` at that moment. */
  function Initial(browserOnline: bool): (s: SyncState)
    ensures s.isListening && s.isOnline == browserOnline
    ensures s.connectionStatus == Healthy && s.syncDelay == 0
  {
    SyncState(true, browserOnline, Healthy, 0)
  }

  /**
   The initial state is what a poll of a block less than a minute old
   reports, so such a poll leaves it unchanged.
   */
  lemma FreshPollKeepsInitial(browserOnline: bool, elapsedMs: int)
    requires 0 <= elapsedMs < MsPerMinute
    ensures Step(Initial(browserOnline), PollResult(elapsedMs)) == Initial(browserOnline)
  {
  }

  /** The status an event sets, if it sets one (`online` does not). */
  function SetStatus(e: SyncEvent): (s: ConnectionStatus)
    requires !e.BrowserOnline?
    ensures e.PollResult? ==> s == Classify(LagMinutes(e.elapsedMs))
    ensures !e.PollResult? ==> s == Error
  {
    match e
    case ProviderDrop => Error
    case BrowserOffline => Error
    case PollResult(ms) => Classify(LagMinutes(ms))
  }

  /** One handler: `handleWebsocketDrop`, `goOffline`, `goOnline` or the poll's `onResult`. */
  function Step(s: SyncState, e: SyncEvent): (r: SyncState)
    ensures r.isListening == (s.isListening && !e.ProviderDrop?)
    ensures r.isOnline == (if e.BrowserOffline? then false else if e.BrowserOnline? then true else s.isOnline)
    ensures r.connectionStatus == (if e.BrowserOnline? then s.connectionStatus else SetStatus(e))
    ensures r.syncDelay == (if e.PollResult? then LagMinutes(e.elapsedMs) else s.syncDelay)
  {
    match e
    case ProviderDrop => s.(isListening := false, connectionStatus := Error)
    case BrowserOffline => s.(isOnline := false, connectionStatus := Error)
    case BrowserOnline => s.(isOnline := true)
    case PollResult(ms) =>
      var lag := LagMinutes(ms);
      s.(connectionStatus := Classify(lag), syncDelay := lag)
  }

  /** The state after the events `es`, handled in order. */
  function Run(s: SyncState, es: seq<SyncEvent>): SyncState
    decreases |es|
  {
    if es == [] then s else Run(Step(s, es[0]), es[1..])
  }

  lemma {:induction false} RunConcat(s: SyncState, a: seq<SyncEvent>, b: seq<SyncEvent>)
    ensures Run(s, a + b) == Run(Run(s, a), b)
    decreases |a|
  {
    if a == [] {
      assert a + b == b;
    } else {
      assert (a + b)[1..] == a[1..] + b;
      RunConcat(Step(s, a[0]), a[1..], b);
    }
  }

  /**
   A provider drop is terminal: no event restores listening, so the monitor
   listens exactly while it did and no drop has arrived.
   */
  lemma {:induction false} ListeningUntilDrop(s: SyncState, es: seq<SyncEvent>)
    ensures Run(s, es).isListening <==> s.isListening && ProviderDrop !in es
    decreases |es|
  {
    if es != [] {
      ListeningUntilDrop(Step(s, es[0]), es[1..]);
      assert es == [es[0]] + es[1..];
    }
  }

  /** `online` events change nothing but `isOnline`: they do not restore the status. */
  lemma {:induction false} OnlineKeepsRest(s: SyncState, es: seq<SyncEvent>)
    requires forall i :: 0 <= i < |es| ==> es[i] == BrowserOnline
    ensures var r := Run(s, es);
            r.isListening == s.isListening && r.connectionStatus == s.connectionStatus
            && r.syncDelay == s.syncDelay
    ensures es != [] ==> Run(s, es).isOnline
    decreases |es|
  {
    if es != [] {
      OnlineKeepsRest(Step(s, es[0]), es[1..]);
    }
  }

  /**
   Most recent wins: after the last status-setting event (anything but
   `online`), the status is the one that event set.
   */
  lemma LastStatusWins(s: SyncState, before: seq<SyncEvent>, e: SyncEvent, after: seq<SyncEvent>)
    requires !e.BrowserOnline?
    requires forall i :: 0 <= i < |after| ==> after[i] == BrowserOnline
    ensures Run(s, before + [e] + after).connectionStatus == SetStatus(e)
  {
    RunConcat(s, before + [e], after);
    RunConcat(s, before, [e]);
    OnlineKeepsRest(Run(s, before + [e]), after);
  }

  /** Events other than polls leave `syncDelay` as it was. */
  lemma {:induction false} NoPollKeepsDelay(s: SyncState, es: seq<SyncEvent>)
    requires forall i :: 0 <= i < |es| ==> !es[i].PollResult?
    ensures Run(s, es).syncDelay == s.syncDelay
    decreases |es|
  {
    if es != [] {
      NoPollKeepsDelay(Step(s, es[0]), es[1..]);
    }
  }

  /**
   `syncDelay` is the lag of the last poll result, whatever status that
   poll was classified as and whatever events followed it.
   */
  lemma LastPollSetsDelay(s: SyncState, before: seq<SyncEvent>, elapsedMs: int, after: seq<SyncEvent>)
    requires forall i :: 0 <= i < |after| ==> !after[i].PollResult?
    ensures Run(s, before + [PollResult(elapsedMs)] + after).syncDelay == LagMinutes(elapsedMs)
  {
    RunConcat(s, before + [PollResult(elapsedMs)], after);
    RunConcat(s, before, [PollResult(elapsedMs)]);
    NoPollKeepsDelay(Run(s, before + [PollResult(elapsedMs)]), after);
  }

  /** Events other than `online`/`offline` leave `isOnline` as it was. */
  lemma {:induction false} NoBrowserEventKeepsOnline(s: SyncState, es: seq<SyncEvent>)
    requires forall i :: 0 <= i < |es| ==> !es[i].BrowserOnline? && !es[i].BrowserOffline?
    ensures Run(s, es).isOnline == s.isOnline
    decreases |es|
  {
    if es != [] {
      NoBrowserEventKeepsOnline(Step(s, es[0]), es[1..]);
    }
  }

  /** `isOnline` follows the last browser `online`/`offline` event. */
  lemma LastBrowserEventSetsOnline(s: SyncState, before: seq<SyncEvent>, e: SyncEvent, after: seq<SyncEvent>)
    requires e.BrowserOnline? || e.BrowserOffline?
    requires forall i :: 0 <= i < |after| ==> !after[i].BrowserOnline? && !after[i].BrowserOffline?
    ensures Run(s, before + [e] + after).isOnline == e.BrowserOnline?
  {
    RunConcat(s, before + [e], after);
    RunConcat(s, before, [e]);
    NoBrowserEventKeepsOnline(Run(s, before + [e]), after);
  }

  /**
   The status and `isListening` are independent: a poll after a provider drop
   can report Healthy although the provider no longer listens.
   */
  lemma PollAfterDropCanBeHealthy()
    ensures Run(Initial(true), [ProviderDrop, PollResult(0)]) == SyncState(false, true, Healthy, 0)
  {
  }
}
