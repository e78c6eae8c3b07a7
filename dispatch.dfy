/** Event dispatch: every container lifecycle event received from the Docker
    event stream is turned into at most one bridge action. A "start" event
    adds the container's services, a "die" event removes them, and every
    other status is ignored. The actions run concurrently in the daemon; the
    model keeps the order in which they are issued. */
module Dispatch {

  datatype Event = Event(id: string, status: string)

  datatype Action = Add(id: string) | RemoveOnExit(id: string)

  /** The action one event asks for, if any. */
  function ActionOf(e: Event): seq<Action>
  {
    if e.status == "start" then [Add(e.id)]
    else if e.status == "die" then [RemoveOnExit(e.id)]
    else []
  }

  /** The actions a sequence of events asks for, in event order. */
  function Actions(events: seq<Event>): seq<Action>
  {
    if events == [] then [] else Actions(events[..|events| - 1]) + ActionOf(events[|events| - 1])
  }

  /** Number of events with the given status. */
  function CountStatus(events: seq<Event>, status: string): nat
  {
    if events == [] then 0
    else CountStatus(events[..|events| - 1], status) + (if events[|events| - 1].status == status then 1 else 0)
  }

  /** The event loop: consumes the events in the order delivered and issues
      each one's action. */
  method DispatchAll(events: seq<Event>) returns (actions: seq<Action>)
    ensures actions == Actions(events)
  {
    actions := [];
    var i := 0;
    while i < |events|
      invariant 0 <= i <= |events|
      invariant actions == Actions(events[..i])
    {
      var msg := events[i];
      if msg.status == "start" {
        actions := actions + [Add(msg.id)];
      } else if msg.status == "die" {
        actions := actions + [RemoveOnExit(msg.id)];
      }
      assert events[..i + 1][..i] == events[..i];
      i := i + 1;
    }
    assert events[..|events|] == events;
  }

  /** Each single event: "start" gives exactly one Add and no removal, "die"
      exactly one RemoveOnExit and no Add, anything else nothing. */
  lemma SingleEvent(id: string, status: string)
    ensures status == "start" ==> Actions([Event(id, status)]) == [Add(id)]
    ensures status == "die" ==> Actions([Event(id, status)]) == [RemoveOnExit(id)]
    ensures status != "start" && status != "die" ==> Actions([Event(id, status)]) == []
  {
    assert [Event(id, status)][..0] == [];
  }

  /** Dispatch is compositional: the actions for a concatenation of event
      streams are the actions of the first followed by those of the second,
      so actions keep the order of their events. */
  lemma {:induction false} ActionsAppend(a: seq<Event>, b: seq<Event>)
    ensures Actions(a + b) == Actions(a) + Actions(b)
    decreases |b|
  {
    if b == [] {
      assert a + b == a;
    } else {
      var b', last := b[..|b| - 1], b[|b| - 1];
      ActionsAppend(a, b');
      assert (a + b)[..|a + b| - 1] == a + b';
      calc {
        Actions(a + b);
        Actions(a + b') + ActionOf(last);
        Actions(a) + Actions(b') + ActionOf(last);
        Actions(a) + Actions(b);
      }
    }
  }

  /** One action per "start" or "die" event, none for the others. */
  lemma {:induction false} ActionCount(events: seq<Event>)
    ensures |Actions(events)| == CountStatus(events, "start") + CountStatus(events, "die")
  {
    if events != [] {
      ActionCount(events[..|events| - 1]);
    }
  }

  /** For every container, the number of Add actions equals the number of its
      "start" events and the number of RemoveOnExit actions the number of its
      "die" events: no event is lost and none is acted on twice. */
  lemma {:induction false} ActionsPerContainer(events: seq<Event>, id: string)
    ensures multiset(Actions(events))[Add(id)] == multiset(events)[Event(id, "start")]
    ensures multiset(Actions(events))[RemoveOnExit(id)] == multiset(events)[Event(id, "die")]
  {
    if events != [] {
      var init := events[..|events| - 1];
      var last := events[|events| - 1];
      ActionsPerContainer(init, id);
      assert events == init + [last];
      assert multiset(events) == multiset(init) + multiset{last};
      assert multiset(Actions(events)) == multiset(Actions(init)) + multiset(ActionOf(last));
      ActionOfCounts(last, id);
    }
  }

  /** The single-event case of ActionsPerContainer. */
  lemma ActionOfCounts(e: Event, id: string)
    ensures multiset(ActionOf(e))[Add(id)] == multiset{e}[Event(id, "start")]
    ensures multiset(ActionOf(e))[RemoveOnExit(id)] == multiset{e}[Event(id, "die")]
  {
    if e.status == "start" {
      assert e == Event(id, "start") <==> e.id == id;
    } else if e.status == "die" {
      assert e == Event(id, "die") <==> e.id == id;
    } else {
      assert e != Event(id, "start") && e != Event(id, "die");
    }
  }
}
