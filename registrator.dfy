/** The daemon's startup and event loop, as one run observed from outside:
    the options are validated, the Docker client and the bridge are created,
    the backend is pinged until it answers, the Docker event listener is
    opened, the bridge is synchronised once, and then every event is turned
    into its bridge action until the event stream ends. Every way the run can
    end is fatal; the only other ending is an observation that stops while the
    daemon is still retrying its connection. */
module Registrator {
  import opened Config
  import Connect
  import opened Dispatch

  /** What the outside world supplies: whether creating the Docker client,
      the bridge and the event listener succeeds, the outcomes of successive
      pings, and the events the stream delivers before it closes. */
  datatype Environment = Environment(
    dockerClientOk: bool,
    bridgeOk: bool,
    listenerOk: bool,
    pings: seq<bool>,
    events: seq<Event>)

  datatype FatalError =
    | Misconfigured(error: ConfigError)
    | DockerClientFailed
    | BridgeFailed
    | ConnectionExhausted
    | ListenerFailed
    | EventLoopClosed

  datatype Exit = Fatal(reason: FatalError) | StillConnecting

  /** Calls the daemon makes, in order. */
  datatype Call =
    | Connecting(step: Connect.Step)
    | Subscribe
    | Sync(force: bool)
    | Dispatched(action: Action)

  function ConnectCalls(steps: seq<Connect.Step>): seq<Call>
  {
    if steps == [] then [] else ConnectCalls(steps[..|steps| - 1]) + [Connecting(steps[|steps| - 1])]
  }

  function DispatchCalls(actions: seq<Action>): seq<Call>
  {
    if actions == [] then [] else DispatchCalls(actions[..|actions| - 1]) + [Dispatched(actions[|actions| - 1])]
  }

  /** The calls of a run that reached the event loop. */
  function SteadyStateTrace(steps: seq<Connect.Step>, actions: seq<Action>): seq<Call>
  {
    ConnectCalls(steps) + [Subscribe, Sync(false)] + DispatchCalls(actions)
  }

  /** The body of the daemon's main action. */
  method Run(o: Options, env: Environment) returns (exit: Exit, trace: seq<Call>)
    ensures CheckTtl(o.refreshTtl, o.refreshInterval).Fail? || o.retryInterval <= 0 ==>
              exit == Fatal(Misconfigured(Validate(o).error)) && trace == []
    ensures Validate(o) == Fail(DeregisterUnknown) ==>
              trace == []
              && exit == if env.dockerClientOk then Fatal(Misconfigured(DeregisterUnknown)) else Fatal(DockerClientFailed)
    ensures Validate(o) == Pass && !env.dockerClientOk ==> exit == Fatal(DockerClientFailed) && trace == []
    ensures Validate(o) == Pass && env.dockerClientOk && !env.bridgeOk ==> exit == Fatal(BridgeFailed) && trace == []
    ensures trace != [] ==> Validate(o) == Pass && env.dockerClientOk && env.bridgeOk
    ensures Validate(o) == Pass && env.dockerClientOk && env.bridgeOk ==>
              var r := Connect.Expected(env.pings, o.retryAttempts, o.retryInterval);
              && (r.outcome == Connect.Exhausted ==>
                    exit == Fatal(ConnectionExhausted) && trace == ConnectCalls(r.trace))
              && (r.outcome == Connect.Undecided ==>
                    exit == StillConnecting && trace == ConnectCalls(r.trace))
              && ((r.outcome == Connect.Connected || r.outcome == Connect.Skipped) && !env.listenerOk ==>
                    exit == Fatal(ListenerFailed) && trace == ConnectCalls(r.trace))
              && ((r.outcome == Connect.Connected || r.outcome == Connect.Skipped) && env.listenerOk ==>
                    exit == Fatal(EventLoopClosed) && trace == SteadyStateTrace(r.trace, Actions(env.events)))
  {
    trace := [];
    var ttl := CheckTtl(o.refreshTtl, o.refreshInterval);
    if ttl.Fail? {
      exit := Fatal(Misconfigured(ttl.error));
      return;
    }
    var retry := CheckRetryInterval(o.retryInterval);
    if retry.Fail? {
      exit := Fatal(Misconfigured(retry.error));
      return;
    }
    if !env.dockerClientOk {
      exit := Fatal(DockerClientFailed);
      return;
    }
    var deregister := CheckDeregister(o.deregister);
    if deregister.Fail? {
      exit := Fatal(Misconfigured(deregister.error));
      return;
    }
    if !env.bridgeOk {
      exit := Fatal(BridgeFailed);
      return;
    }
    var outcome, attempt, steps := Connect.Establish(env.pings, o.retryAttempts, o.retryInterval);
    trace := ConnectCalls(steps);
    if outcome == Connect.Exhausted {
      exit := Fatal(ConnectionExhausted);
      return;
    }
    if outcome == Connect.Undecided {
      exit := StillConnecting;
      return;
    }
    if !env.listenerOk {
      exit := Fatal(ListenerFailed);
      return;
    }
    trace := trace + [Subscribe, Sync(false)];
    var actions := DispatchAll(env.events);
    trace := trace + DispatchCalls(actions);
    exit := Fatal(EventLoopClosed);
  }

  lemma {:induction false} ConnectCallsShape(steps: seq<Connect.Step>)
    ensures |ConnectCalls(steps)| == |steps|
    ensures forall i :: 0 <= i < |steps| ==> ConnectCalls(steps)[i] == Connecting(steps[i])
  {
    if steps != [] {
      ConnectCallsShape(steps[..|steps| - 1]);
    }
  }

  lemma {:induction false} DispatchCallsShape(actions: seq<Action>)
    ensures |DispatchCalls(actions)| == |actions|
    ensures forall i :: 0 <= i < |actions| ==> DispatchCalls(actions)[i] == Dispatched(actions[i])
  {
    if actions != [] {
      DispatchCallsShape(actions[..|actions| - 1]);
    }
  }

  /** The ordering of a run that reaches the event loop: every connection step
      comes first, then the event listener is opened, then the one initial
      non-forced sync runs, and only after it does any action get dispatched. */
  lemma SubscribeBeforeInitialSync(steps: seq<Connect.Step>, actions: seq<Action>)
    ensures var t := SteadyStateTrace(steps, actions);
            && |t| == |steps| + 2 + |actions|
            && t[|steps|] == Subscribe
            && t[|steps| + 1] == Sync(false)
            && (forall i :: 0 <= i < |steps| ==> t[i] == Connecting(steps[i]))
            && (forall i :: |steps| + 2 <= i < |t| ==> t[i] == Dispatched(actions[i - |steps| - 2]))
  {
    ConnectCallsShape(steps);
    DispatchCallsShape(actions);
  }

  lemma {:induction false} DispatchCallsCount(actions: seq<Action>, a: Action)
    ensures multiset(DispatchCalls(actions))[Dispatched(a)] == multiset(actions)[a]
  {
    if actions != [] {
      var init := actions[..|actions| - 1];
      DispatchCallsCount(init, a);
      assert actions == init + [actions[|actions| - 1]];
    }
  }

  lemma {:induction false} ConnectCallsDispatchNothing(steps: seq<Connect.Step>, a: Action)
    ensures multiset(ConnectCalls(steps))[Dispatched(a)] == 0
  {
    if steps != [] {
      ConnectCallsDispatchNothing(steps[..|steps| - 1], a);
    }
  }

  /** Once the daemon reaches its event loop, every event the loop receives is
      acted on exactly once: each container gets exactly as many Add calls as
      it had "start" events and exactly as many RemoveOnExit calls as it had
      "die" events among the received events. */
  lemma NoEventLost(steps: seq<Connect.Step>, events: seq<Event>, id: string)
    ensures multiset(SteadyStateTrace(steps, Actions(events)))[Dispatched(Add(id))]
            == multiset(events)[Event(id, "start")]
    ensures multiset(SteadyStateTrace(steps, Actions(events)))[Dispatched(RemoveOnExit(id))]
            == multiset(events)[Event(id, "die")]
  {
    ActionsPerContainer(events, id);
    DispatchCallsCount(Actions(events), Add(id));
    DispatchCallsCount(Actions(events), RemoveOnExit(id));
    ConnectCallsDispatchNothing(steps, Add(id));
    ConnectCallsDispatchNothing(steps, RemoveOnExit(id));
  }
}
