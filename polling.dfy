/**
 * The interval poller of app/utils/polling.ts: an object with two fields,
 * the handle of the host interval timer and the polling flag, that `start`
 * and `stop` keep in step. The host timer is represented by the value it
 * was registered with; each time the host fires it, the tick makes the
 * callbacks that `Dispatch` describes.
 */
module Polling {
  import opened JsValues

  /** `PollingConfig`: the interval, the retry limit (declared, never
      read), and which of the two callbacks the caller provided. */
  datatype PollingConfig = PollingConfig(
    interval: nat, maxRetries: Option<nat>, hasOnSuccess: bool, hasOnError: bool)

  /** An interval registered with the host by `setInterval`: the handle the
      host returned, and the url and configuration its tick captured. */
  datatype Interval = Interval(handle: nat, url: string, config: PollingConfig)

  /** What a tick's `fetch(url)` and `response.json()` produced: the parsed
      data, or the error one of them threw. */
  datatype TickResult = Parsed(data: Js) | Threw(error: Js)

  /** A callback invocation made by a tick. */
  datatype Callback = SuccessCall(data: Js) | ErrorCall(error: Js)

  /** The callbacks one tick makes, in order. `successThrows` is the error
      the success callback itself throws, if it does: it is thrown inside
      the same `try`, so the error callback then receives it. */
  function Dispatch(config: PollingConfig, result: TickResult, successThrows: Option<Js>)
    : (calls: seq<Callback>)
    ensures |calls| <= 2
    ensures forall d :: SuccessCall(d) in calls <==> config.hasOnSuccess && result == Parsed(d)
    ensures forall e :: ErrorCall(e) in calls <==>
      config.hasOnError &&
      (result == Threw(e) || (result.Parsed? && config.hasOnSuccess && successThrows == Some(e)))
    ensures |calls| == 2 ==> calls[0].SuccessCall? && calls[1].ErrorCall? && successThrows.Some?
  {
    match result
    case Threw(e) => if config.hasOnError then [ErrorCall(e)] else []
    case Parsed(d) =>
      if !config.hasOnSuccess then []
      else match successThrows
        case None => [SuccessCall(d)]
        case Some(e) => [SuccessCall(d)] + (if config.hasOnError then [ErrorCall(e)] else [])
  }

  class SimplePoller {
    var intervalId: Option<Interval>
    var isPolling: bool

    /** The flag is set exactly while a timer is registered. */
    ghost predicate Valid()
      reads this
    {
      isPolling <==> intervalId.Some?
    }

    constructor()
      ensures Valid() && intervalId == None && !isPolling
    {
      intervalId := None;
      isPolling := false;
    }

    /** `start(url, config)`; `handle` is what the host's `setInterval`
        returns. A second start while polling changes nothing. */
    method Start(url: string, config: PollingConfig, handle: nat)
      requires Valid()
      modifies this
      ensures Valid()
      ensures old(isPolling) ==> isPolling && intervalId == old(intervalId)
      ensures !old(isPolling) ==> isPolling && intervalId == Some(Interval(handle, url, config))
    {
      if isPolling {
        return;
      }
      isPolling := true;
      intervalId := Some(Interval(handle, url, config));
    }

    /** `stop()`: clear the timer and the flag; nothing to do when idle. */
    method Stop()
      requires Valid()
      modifies this
      ensures Valid()
      ensures intervalId == None && !isPolling
      ensures old(intervalId).None? ==> isPolling == old(isPolling)
    {
      if intervalId.Some? {
        intervalId := None;
        isPolling := false;
      }
    }

    /** `isActive()`. */
    method IsActive() returns (active: bool)
      requires Valid()
      ensures active == isPolling
      ensures active <==> intervalId.Some?
    {
      active := isPolling;
    }

    /** The host firing the registered interval once: no callback at all
        once the timer is cleared, otherwise the tick's dispatch with the
        configuration that `start` registered. */
    method Fire(result: TickResult, successThrows: Option<Js>) returns (calls: seq<Callback>)
      ensures intervalId.None? ==> calls == []
      ensures intervalId.Some? ==> calls == Dispatch(intervalId.value.config, result, successThrows)
    {
      calls := [];
      if intervalId.Some? {
        calls := Dispatch(intervalId.value.config, result, successThrows);
      }
    }
  }

  /** A poller started, stopped and started again polls with the second
      registration, and a start while polling keeps the first. */
  method StartStopScenario(url1: string, url2: string, config: PollingConfig, h1: nat, h2: nat, h3: nat)
  {
    var p := new SimplePoller();
    var active := p.IsActive();
    assert !active;
    p.Start(url1, config, h1);
    active := p.IsActive();
    assert active && p.intervalId == Some(Interval(h1, url1, config));
    p.Start(url2, config, h2);
    assert p.intervalId == Some(Interval(h1, url1, config));
    p.Stop();
    active := p.IsActive();
    assert !active && p.intervalId == None;
    var calls := p.Fire(Parsed(Null), None);
    assert calls == [];
    p.Stop();
    assert !p.isPolling;
    p.Start(url2, config, h3);
    assert p.intervalId == Some(Interval(h3, url2, config));
  }
}
