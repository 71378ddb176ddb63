/**
 * The notification coalescer: hooks requested while one message is handled
 * are collected without repetition, then invoked once each, in the order
 * they were first requested. `ScheduledAll` states the coalescing over any
 * sequence of requests; the handlers write their requests as nested
 * `Scheduled` calls, and `ScheduledAllSnoc` connects the two forms.
 */
module Events {
  import opened Entities

  /** No hook occurs twice in `s`. */
  ghost predicate NoDup(s: seq<Event>)
  {
    forall i, j :: 0 <= i < j < |s| ==> s[i] != s[j]
  }

  /** The pending list after `schedule_event(e)`. */
  function Scheduled(pending: seq<Event>, e: Event): seq<Event>
  {
    if e in pending then pending else pending + [e]
  }

  /** The pending list after scheduling each of `requests` in turn. */
  function ScheduledAll(pending: seq<Event>, requests: seq<Event>): seq<Event>
    decreases |requests|
  {
    if requests == [] then pending
    else ScheduledAll(Scheduled(pending, requests[0]), requests[1..])
  }

  /**
   * Scheduling keeps the pending list free of repetitions, only ever
   * extends it at the end, and adds `e` and nothing else.
   */
  lemma ScheduleKeepsNoDup(pending: seq<Event>, e: Event)
    requires NoDup(pending)
    ensures NoDup(Scheduled(pending, e))
    ensures pending <= Scheduled(pending, e)
    ensures forall x :: x in Scheduled(pending, e) <==> x in pending || x == e
  {
  }

  /** Scheduling the same hook twice leaves the list as after the first call. */
  lemma ScheduleIdempotent(pending: seq<Event>, e: Event)
    ensures Scheduled(Scheduled(pending, e), e) == Scheduled(pending, e)
  {
  }

  /**
   * Any number of requests, repeated or not, leave a repetition-free list
   * that extends the old one and holds exactly the old hooks and the
   * requested ones: each requested hook will fire once.
   */
  lemma {:induction false} ScheduledAllCoalesces(pending: seq<Event>, requests: seq<Event>)
    requires NoDup(pending)
    ensures NoDup(ScheduledAll(pending, requests))
    ensures pending <= ScheduledAll(pending, requests)
    ensures forall x :: x in ScheduledAll(pending, requests) <==> x in pending || x in requests
    decreases |requests|
  {
    if requests != [] {
      ScheduleKeepsNoDup(pending, requests[0]);
      ScheduledAllCoalesces(Scheduled(pending, requests[0]), requests[1..]);
      forall x
        ensures x in requests <==> x == requests[0] || x in requests[1..]
      {
        assert requests == [requests[0]] + requests[1..];
      }
    }
  }

  /** Requesting one more hook after a list of requests is scheduling it
      on the list those requests left. */
  lemma {:induction false} ScheduledAllSnoc(pending: seq<Event>, requests: seq<Event>, e: Event)
    ensures ScheduledAll(pending, requests + [e]) == Scheduled(ScheduledAll(pending, requests), e)
    decreases |requests|
  {
    if requests == [] {
      assert [] + [e] == [e];
      assert [e][1..] == [];
    } else {
      assert (requests + [e])[0] == requests[0];
      assert (requests + [e])[1..] == requests[1..] + [e];
      ScheduledAllSnoc(Scheduled(pending, requests[0]), requests[1..], e);
    }
  }

  /** A hook already pending is not moved by further requests. */
  lemma {:induction false} ScheduledAllKeepsPending(pending: seq<Event>, requests: seq<Event>)
    requires forall x :: x in requests ==> x in pending
    ensures ScheduledAll(pending, requests) == pending
    decreases |requests|
  {
    if requests != [] {
      assert requests[0] in requests;
      forall x | x in requests[1..] ensures x in pending {
        assert x in requests;
      }
      ScheduledAllKeepsPending(pending, requests[1..]);
    }
  }

  /** What an observer hook returns when it is called. */
  datatype CallbackResult = NoValue | Coroutine | OtherValue

  /** What emitting one hook did. */
  datatype Emitted = Returned | TaskSpawned | TypeError

  /** How a message's flush ended. */
  datatype Outcome = Handled | UnsupportedReturnType(event: Event)

  /** The hooks of `calls`, in order, whose result was a coroutine. */
  function Spawning(calls: seq<Event>, observe: Event -> CallbackResult): seq<Event>
    decreases |calls|
  {
    if calls == [] then []
    else
      var last := calls[|calls| - 1];
      Spawning(calls[..|calls| - 1], observe) + (if observe(last).Coroutine? then [last] else [])
  }

  /**
   * A task is spawned for a hook exactly when the hook was called and
   * returned a coroutine, and never more than one per call.
   */
  lemma {:induction false} SpawningExactlyCoroutines(calls: seq<Event>, observe: Event -> CallbackResult)
    ensures forall x :: x in Spawning(calls, observe) <==> x in calls && observe(x).Coroutine?
    ensures |Spawning(calls, observe)| <= |calls|
    decreases |calls|
  {
    if calls != [] {
      var init := calls[..|calls| - 1];
      SpawningExactlyCoroutines(init, observe);
      assert calls == init + [calls[|calls| - 1]];
    }
  }

  /** `emit_event`: call the hook and act on what it returns. */
  method EmitEvent(e: Event, observe: Event -> CallbackResult) returns (emitted: Emitted)
    ensures emitted == Returned <==> observe(e) == NoValue
    ensures emitted == TaskSpawned <==> observe(e) == Coroutine
    ensures emitted == TypeError <==> observe(e) == OtherValue
  {
    var res := observe(e);
    if res == NoValue {
      return Returned;
    }
    if res == Coroutine {
      return TaskSpawned;
    }
    return TypeError;
  }

  /**
   * The flush loop of `handle_message`: every pending hook is called once,
   * in list order, until one returns something that is neither nothing nor
   * a coroutine; that one raises and ends the flush.
   */
  method EmitAll(events: seq<Event>, observe: Event -> CallbackResult)
    returns (calls: seq<Event>, tasks: seq<Event>, outcome: Outcome)
    ensures calls <= events
    ensures forall i :: 0 <= i < |calls| - 1 ==> observe(calls[i]) != OtherValue
    ensures outcome == Handled <==> forall i :: 0 <= i < |events| ==> observe(events[i]) != OtherValue
    ensures outcome == Handled ==> calls == events
    ensures outcome.UnsupportedReturnType? ==>
              |calls| > 0 && calls[|calls| - 1] == outcome.event && observe(outcome.event) == OtherValue
    ensures tasks == Spawning(calls, observe)
  {
    calls, tasks, outcome := [], [], Handled;
    for i := 0 to |events|
      invariant calls == events[..i]
      invariant forall j :: 0 <= j < i ==> observe(events[j]) != OtherValue
      invariant tasks == Spawning(calls, observe)
    {
      var e := events[i];
      calls := calls + [e];
      assert calls[..|calls| - 1] == events[..i];
      var emitted := EmitEvent(e, observe);
      if emitted == TypeError {
        outcome := UnsupportedReturnType(e);
        return;
      }
      if emitted == TaskSpawned {
        tasks := tasks + [e];
      }
    }
    assert events[..|events|] == events;
  }
}
