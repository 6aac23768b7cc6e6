/** The cloud API client as a state machine: whether it holds a SwitchBot session, whether
    its poll task is set and whether that task still loops, and what one pass of the poll
    loop hands to the account's callback. */
module Api {
  import opened Devices

  datatype Option<T> = None | Some(value: T)

  /** The client's three flags: a session has been created, a poll task has been made
      and not cancelled (`_task` is set), and that task is still looping. A pass of the
      loop that raises ends the task but leaves `_task` set. */
  datatype ClientState = ClientState(hasSession: bool, running: bool, looping: bool)

  /** The outcome of authenticating against the cloud account. */
  datatype AuthOutcome = Authenticated | AuthFailed

  /** Only a task that has been made can be looping. */
  predicate Consistent(s: ClientState)
  {
    s.looping ==> s.running
  }

  /** The state after `start`: a client with a session ends up with a task; a new, looping
      task is made only when there was none, even if the old one has stopped looping. */
  function Started(s: ClientState): ClientState
    requires s.hasSession
  {
    if s.running then s else s.(running := true, looping := true)
  }

  /** The state after `stop`: a set task is cancelled and gone; without one nothing
      changes. */
  function Stopped(s: ClientState): ClientState
  {
    if s.running then s.(running := false, looping := false) else s
  }

  /** The state after a pass whose fetch raised: the task ends, `_task` stays set. */
  function Raised(s: ClientState): ClientState
  {
    s.(looping := false)
  }

  /** What one pass of the poll loop hands to the callback: the polled list, unchanged,
      when the task is looping and the list is not empty, and nothing otherwise. */
  function Delivery(s: ClientState, devices: seq<Device>): (batch: Option<seq<Device>>)
    ensures batch.Some? <==> s.looping && devices != []
    ensures batch.Some? ==> batch.value == devices
  {
    if s.looping && devices != [] then Some(devices) else None
  }

  /** What the client does over time, after authentication: start, stop, one pass of the
      poll loop that fetched `devices`, or one pass whose fetch raised. A callback that
      raises is a `Poll` followed by a `PollRaised`. */
  datatype Event = Start | Stop | Poll(devices: seq<Device>) | PollRaised

  function Step(s: ClientState, e: Event): ClientState
    requires s.hasSession
  {
    match e
    case Start => Started(s)
    case Stop => Stopped(s)
    case Poll(_) => s
    case PollRaised => Raised(s)
  }

  /** Every event keeps the session and keeps a looping task a made one. */
  lemma StepConsistent(s: ClientState, e: Event)
    requires s.hasSession && Consistent(s)
    ensures Step(s, e).hasSession && Consistent(Step(s, e))
  {
  }

  /** The batches the callback receives over a run of events, in order. */
  function Batches(s: ClientState, events: seq<Event>): seq<seq<Device>>
    requires s.hasSession
    decreases |events|
  {
    if events == [] then []
    else
      var now := match events[0]
        case Poll(devices) => (match Delivery(s, devices) case Some(b) => [b] case None => [])
        case _ => [];
      now + Batches(Step(s, events[0]), events[1..])
  }

  /** Every batch the callback receives is a non-empty polled list. */
  lemma {:induction false} BatchesNonEmpty(s: ClientState, events: seq<Event>)
    requires s.hasSession
    ensures forall k :: 0 <= k < |Batches(s, events)| ==> Batches(s, events)[k] != []
    decreases |events|
  {
    if events != [] {
      BatchesNonEmpty(Step(s, events[0]), events[1..]);
    }
  }

  /** Once stopped, the callback receives nothing until the client is started again. */
  lemma {:induction false} NoBatchAfterStop(s: ClientState, events: seq<Event>)
    requires s.hasSession && Consistent(s) && !s.running
    requires forall k :: 0 <= k < |events| ==> events[k] != Start
    ensures Batches(s, events) == []
    decreases |events|
  {
    if events != [] {
      StepConsistent(s, events[0]);
      NoBatchAfterStop(Step(s, events[0]), events[1..]);
    }
  }

  /** Once a pass has raised, the callback receives nothing until the client is stopped:
      `start` sees the task still set and makes no new one. */
  lemma {:induction false} NoBatchAfterRaise(s: ClientState, events: seq<Event>)
    requires s.hasSession && s.running && !s.looping
    requires forall k :: 0 <= k < |events| ==> events[k] != Stop
    ensures Batches(s, events) == []
    decreases |events|
  {
    if events != [] {
      NoBatchAfterRaise(Step(s, events[0]), events[1..]);
    }
  }

  /** Starting twice is starting once, stopping twice is stopping once, stop after start
      leaves no task, and only a stop lets `start` revive a task that raised. */
  lemma StartStopIdempotent(s: ClientState)
    requires s.hasSession
    ensures Started(Started(s)) == Started(s)
    ensures Stopped(Stopped(s)) == Stopped(s)
    ensures !Stopped(Started(s)).running
    ensures s.running ==> !Started(Raised(s)).looping
    ensures Started(Stopped(Raised(s))).looping
  {
  }

  class ApiClient {
    /** A SwitchBot session object has been created. */
    var hasSession: bool
    /** The poll task has been made and not cancelled. */
    var running: bool
    /** The poll task is still looping: no pass of it has raised. */
    var looping: bool

    function State(): ClientState
      reads this
    {
      ClientState(hasSession, running, looping)
    }

    constructor ()
      ensures !hasSession && !running && !looping
    {
      hasSession := false;
      running := false;
      looping := false;
    }

    /** Creates the session, then lets it check the password (`accepted` is the cloud's
        answer). The session is kept even when the password is rejected, so a client can be
        authenticated at most once. */
    method Authenticate(accepted: bool) returns (outcome: AuthOutcome)
      requires !hasSession
      modifies this`hasSession
      ensures hasSession
      ensures outcome == Authenticated <==> accepted
    {
      hasSession := true;
      outcome := if accepted then Authenticated else AuthFailed;
    }

    /** Starts the poll task unless one is set; `created` says whether a new task was
        made. */
    method Start() returns (created: bool)
      requires hasSession
      modifies this`running, this`looping
      ensures State() == Started(old(State()))
      ensures created <==> !old(running)
    {
      if running {
        return false;
      }
      running := true;
      looping := true;
      created := true;
    }

    /** Cancels the poll task if there is one; `cancelled` says whether there was. */
    method Stop() returns (cancelled: bool)
      modifies this`running, this`looping
      ensures State() == Stopped(old(State()))
      ensures cancelled <==> old(running)
    {
      if !running {
        return false;
      }
      running := false;
      looping := false;
      cancelled := true;
    }

    /** One pass of the poll loop over the list the session returned. */
    method Tick(devices: seq<Device>) returns (batch: Option<seq<Device>>)
      ensures batch == Delivery(State(), devices)
    {
      if looping && |devices| > 0 {
        batch := Some(devices);
      } else {
        batch := None;
      }
    }

    /** One pass of the poll loop whose fetch raised: nothing is handed over and the task
        ends, while it stays set. */
    method TickRaised()
      modifies this`looping
      ensures State() == Raised(old(State()))
    {
      looping := false;
    }
  }
}
