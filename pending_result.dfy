/**
 * The cancelable single-assignment result handed out for a single-shot
 * location request: PENDING, then at most one of COMPLETED(value) or CANCELED.
 */
module PendingResults {
  datatype PendingResult<T> = Pending | Completed(value: T) | Canceled {
    /** isDone(): a result was set or the request was canceled. */
    predicate IsDone() { !Pending? }

    predicate IsCanceled() { Canceled? }

    /** setResult: only a pending result takes a value; afterwards it is a no-op. */
    function SetResult(v: T): (r: PendingResult<T>)
      ensures r.IsDone()
      ensures !IsDone() ==> r.Completed? && r.value == v
      ensures IsDone() ==> r == this
    {
      if Pending? then Completed(v) else this
    }

    /** cancel: only a pending result becomes canceled; afterwards it is a no-op. */
    function Cancel(): (r: PendingResult<T>)
      ensures r.IsDone()
      ensures !IsDone() ==> r.IsCanceled()
      ensures IsDone() ==> r == this
    {
      if Pending? then Canceled else this
    }
  }

  /** What may happen to a pending result: the producer sets it, or the owner cancels it. */
  datatype Event<T> = ResultSet(v: T) | CancelRequested

  function Apply<T>(r: PendingResult<T>, e: Event<T>): PendingResult<T> {
    match e
    case ResultSet(v) => r.SetResult(v)
    case CancelRequested => r.Cancel()
  }

  /** The state after a sequence of events, in order. */
  function Run<T>(r: PendingResult<T>, events: seq<Event<T>>): PendingResult<T>
    decreases |events|
  {
    if events == [] then r else Run(Apply(r, events[0]), events[1..])
  }

  /**
   * The values handed to the result callback along a sequence of events: the
   * callback fires only on the transition out of PENDING by a result.
   */
  function Delivered<T>(r: PendingResult<T>, events: seq<Event<T>>): seq<T>
    decreases |events|
  {
    if events == [] then []
    else
      (if r.Pending? && events[0].ResultSet? then [events[0].v] else [])
      + Delivered(Apply(r, events[0]), events[1..])
  }

  /** A finished result never changes again, whatever happens to it. */
  lemma {:induction false} DoneIsFinal<T>(r: PendingResult<T>, events: seq<Event<T>>)
    requires r.IsDone()
    ensures Run(r, events) == r
    ensures Delivered(r, events) == []
    decreases |events|
  {
    if events != [] {
      DoneIsFinal(Apply(r, events[0]), events[1..]);
    }
  }

  /** A canceled request never delivers a value, even if a result arrives later. */
  lemma CanceledNeverDelivers<T>(events: seq<Event<T>>)
    ensures Delivered(Canceled, events) == []
    ensures Run(Canceled, events).IsCanceled()
  {
    DoneIsFinal(Canceled, events);
  }

  /**
   * Single assignment: along any sequence of events the callback fires at most
   * once, and when it fires the result holds exactly the delivered value.
   */
  lemma {:induction false} AtMostOneDelivery<T>(r: PendingResult<T>, events: seq<Event<T>>)
    ensures |Delivered(r, events)| <= 1
    ensures |Delivered(r, events)| == 1 ==> r.Pending? && Run(r, events) == Completed(Delivered(r, events)[0])
    ensures r.Pending? && Run(r, events).Completed? ==> Delivered(r, events) == [Run(r, events).value]
    decreases |events|
  {
    if events != [] {
      if r.Pending? {
        // the first event finishes the result, whichever it is
        DoneIsFinal(Apply(r, events[0]), events[1..]);
      } else {
        DoneIsFinal(r, events);
      }
    }
  }
}
