/**
 * The event-to-state engine of a LED pattern: protocol event types are
 * translated into seven pattern events and queued; the runner takes one
 * event, drains the queue so that only the last queued event survives,
 * calls the pattern's hooks for it and sets one of five states.
 */
module Engine {
  import opened Wrappers

  /** `_EVENTS`: what the translator queues. */
  datatype PatternEvent = Connected | Disconnected | Wakeup | Think | Speak | Done | Error

  /** `AbstractLedPattern.STATE`. */
  datatype State = Disconnected | Idle | Listening | Thinking | Speaking

  /** The hooks the runner calls on the pattern (its async methods). */
  datatype Hook =
    | ClientConnected | ClientDisconnected
    | Idle | Disconnected | Wakeup | Listen | Think | Speak | Error

  /** The runner task: not created before `setup`, cancelled by `cleanup`. */
  datatype TaskStatus = NoTask | Running | Cancelled

  /** The protocol type tag that the translator maps to `e`. */
  function TypeName(e: PatternEvent): string
  {
    match e
    case Connected => "satellite-connected"
    case Disconnected => "satellite-disconnected"
    case Wakeup => "detection"
    case Think => "voice-stopped"
    case Speak => "audio-start"
    case Error => "error"
    case Done => "played"
  }

  /** `push_event`'s if/elif chain: the pattern event for a type tag, if any. */
  function Translate(eventType: string): (r: Option<PatternEvent>)
    ensures r.Some? ==> TypeName(r.value) == eventType
  {
    if eventType == "satellite-connected" then Some(PatternEvent.Connected)
    else if eventType == "satellite-disconnected" then Some(PatternEvent.Disconnected)
    else if eventType == "detection" then Some(PatternEvent.Wakeup)
    else if eventType == "voice-stopped" then Some(PatternEvent.Think)
    else if eventType == "audio-start" then Some(PatternEvent.Speak)
    else if eventType == "error" then Some(PatternEvent.Error)
    else if eventType == "played" then Some(PatternEvent.Done)
    else None
  }

  /** Every pattern event is produced by exactly its own type tag. */
  lemma TranslateTypeName(e: PatternEvent)
    ensures Translate(TypeName(e)) == Some(e)
  {
  }

  /** A type tag is kept exactly when it is one of the seven tags. */
  lemma TranslateRecognises(eventType: string)
    ensures Translate(eventType).Some? <==> exists e: PatternEvent :: TypeName(e) == eventType
  {
    if e: PatternEvent :| TypeName(e) == eventType {
      TranslateTypeName(e);
    }
  }

  /** Types the satellite sends that the translator drops. */
  lemma TranslateDropsOthers()
    ensures Translate("voice-started") == None
    ensures Translate("transcript") == None
    ensures Translate("audio-stop") == None
    ensures Translate("synthesize") == None
    ensures Translate("streaming-started") == None
    ensures Translate("streaming-stopped") == None
    ensures Translate("transcribe") == None
  {
  }

  /** The state `__runner` assigns for an event: it does not depend on the prior state. */
  function NextState(e: PatternEvent): State
  {
    match e
    case Connected => State.Idle
    case Error => State.Idle
    case Done => State.Idle
    case Disconnected => State.Disconnected
    case Wakeup => State.Listening
    case Think => State.Thinking
    case Speak => State.Speaking
  }

  /** The hooks `__runner` calls for an event, in order. */
  function Hooks(e: PatternEvent): (hs: seq<Hook>)
    ensures 1 <= |hs| <= 2
  {
    match e
    case Connected => [Hook.ClientConnected, Hook.Idle]
    case Disconnected => [Hook.ClientDisconnected, Hook.Disconnected]
    case Wakeup => [Hook.Wakeup, Hook.Listen]
    case Think => [Hook.Think]
    case Speak => [Hook.Speak]
    case Error => [Hook.Error, Hook.Idle]
    case Done => [Hook.Idle]
  }

  /** How many hooks `__runner` awaits before it assigns the state. */
  function HooksBeforeState(e: PatternEvent): (k: nat)
    ensures k < |Hooks(e)|
  {
    if e in {PatternEvent.Connected, PatternEvent.Disconnected, PatternEvent.Wakeup, PatternEvent.Error}
    then 1 else 0
  }

  /** Each state has the events that lead to it, and only those. */
  lemma NextStateCases(e: PatternEvent)
    ensures NextState(e) == State.Idle <==> e in {PatternEvent.Connected, PatternEvent.Error, PatternEvent.Done}
    ensures NextState(e) == State.Disconnected <==> e == PatternEvent.Disconnected
    ensures NextState(e) == State.Listening <==> e == PatternEvent.Wakeup
    ensures NextState(e) == State.Thinking <==> e == PatternEvent.Think
    ensures NextState(e) == State.Speaking <==> e == PatternEvent.Speak
  {
  }

  /**
   * The hooks actually called when those in `raising` raise: all of `hs`
   * up to and including the first one that raises.
   */
  function CalledUntilRaise(hs: seq<Hook>, raising: set<Hook>): (called: seq<Hook>)
    ensures called <= hs
    ensures forall k :: 0 <= k < |called| - 1 ==> called[k] !in raising
    ensures |called| < |hs| ==> |called| > 0 && called[|called| - 1] in raising
    ensures (forall k :: 0 <= k < |hs| ==> hs[k] !in raising) ==> called == hs
  {
    if hs == [] then []
    else if hs[0] in raising then [hs[0]]
    else [hs[0]] + CalledUntilRaise(hs[1..], raising)
  }

  /** Whether `__runner` reaches the state assignment for `e` when the hooks in `raising` raise. */
  predicate StateCommitted(e: PatternEvent, raising: set<Hook>)
  {
    forall k :: 0 <= k < HooksBeforeState(e) ==> Hooks(e)[k] !in raising
  }

  /** With no hook raising, a cycle calls all of the event's hooks and commits its state. */
  lemma QuietCycleRunsAllHooks(e: PatternEvent)
    ensures CalledUntilRaise(Hooks(e), {}) == Hooks(e)
    ensures StateCommitted(e, {})
  {
  }

  /**
   * The state is committed exactly when the hook before the assignment (if any)
   * did not raise; THINK, SPEAK and DONE always commit.
   */
  lemma CommitOrder(e: PatternEvent, raising: set<Hook>)
    ensures HooksBeforeState(e) == 0 ==> StateCommitted(e, raising)
    ensures HooksBeforeState(e) == 1 ==> (StateCommitted(e, raising) <==> Hooks(e)[0] !in raising)
    ensures StateCommitted(e, raising) <==> |CalledUntilRaise(Hooks(e), raising)| > HooksBeforeState(e)
  {
  }

  /** The events that pushing the type tags `ts` in order appends to the queue. */
  function Enqueued(ts: seq<string>): (q: seq<PatternEvent>)
    ensures |q| <= |ts|
  {
    if ts == [] then []
    else
      var init := Enqueued(ts[..|ts| - 1]);
      match Translate(ts[|ts| - 1])
      case Some(e) => init + [e]
      case None => init
  }

  /** Nothing is queued exactly when none of the tags is recognised. */
  lemma {:induction false} EnqueuedEmpty(ts: seq<string>)
    ensures Enqueued(ts) == [] <==> forall k :: 0 <= k < |ts| ==> Translate(ts[k]).None?
  {
    if ts != [] {
      var init := ts[..|ts| - 1];
      EnqueuedEmpty(init);
      assert forall k :: 0 <= k < |init| ==> init[k] == ts[k];
    }
  }

  /**
   * Last event wins, from the protocol side: after pushing `ts`, the last queued
   * event is the translation of the last recognised tag, whatever follows it.
   */
  lemma {:induction false} EnqueuedLast(ts: seq<string>, i: nat)
    requires i < |ts| && Translate(ts[i]).Some?
    requires forall k :: i < k < |ts| ==> Translate(ts[k]).None?
    ensures Enqueued(ts) != []
    ensures Enqueued(ts)[|Enqueued(ts)| - 1] == Translate(ts[i]).value
  {
    if i < |ts| - 1 {
      var init := ts[..|ts| - 1];
      assert init[i] == ts[i];
      EnqueuedLast(init, i);
    }
  }

  /** `AbstractLedPattern`: the state, the event queue, the runner task and the hooks called so far. */
  class PatternEngine {
    /** `__state`: None until `setup`. */
    var state: Option<State>
    /** `__event_queue`: absent (None) until `setup`. */
    var queue: Option<seq<PatternEvent>>
    /** `__task`. */
    var task: TaskStatus
    /** The hooks of the pattern the runner has called, oldest first. */
    var trace: seq<Hook>

    /** The queue and the task are created together by `setup`, which also sets the state. */
    ghost predicate Valid()
      reads this
    {
      (task == NoTask <==> queue.None?) && (task != NoTask ==> state.Some?)
    }

    /** `__init__`: no state, no queue, no task. */
    constructor ()
      ensures Valid()
      ensures state == None && queue == None && task == NoTask && trace == []
    {
      state := None;
      queue := None;
      task := NoTask;
      trace := [];
    }

    /** `setup`: state DISCONNECTED, a fresh empty queue, the runner started. */
    method Setup()
      modifies this`state, this`queue, this`task
      ensures Valid()
      ensures state == Some(State.Disconnected) && queue == Some([]) && task == Running
    {
      state := Some(State.Disconnected);
      queue := Some([]);
      task := Running;
    }

    /**
     * `cleanup`: cancels the runner (cancelling a cancelled task is a no-op).
     * Before `setup` there is no task attribute and the call raises.
     */
    method Cleanup() returns (raised: bool)
      requires Valid()
      modifies this`task
      ensures Valid()
      ensures raised <==> old(task) == NoTask
      ensures task == if raised then NoTask else Cancelled
    {
      if task == NoTask {
        return true;
      }
      task := Cancelled;
      raised := false;
    }

    /** `has_pending_event`: the queue is non-empty; None when there is no queue yet (the call raises). */
    function HasPendingEvent(): (r: Option<bool>)
      reads this
      ensures r.Some? <==> queue.Some?
      ensures r.Some? ==> (r.value <==> queue.value != [])
    {
      match queue
      case None => None
      case Some(q) => Some(|q| > 0)
    }

    /**
     * `push_event`: a recognised type tag appends its pattern event to the
     * queue; any other tag changes nothing.  Queueing before `setup` raises.
     */
    method PushEvent(eventType: string) returns (raised: bool)
      requires Valid()
      modifies this`queue
      ensures Valid()
      ensures Translate(eventType).None? ==> !raised && queue == old(queue)
      ensures Translate(eventType).Some? ==>
        (raised <==> old(queue).None?) &&
        queue == if raised then old(queue) else Some(old(queue).value + [Translate(eventType).value])
    {
      var e := Translate(eventType);
      raised := false;
      if e.Some? {
        if queue.None? {
          return true;
        }
        queue := Some(queue.value + [e.value]);
      }
    }

    /** Calls hook `h`, which raises when it is in `raising`. */
    method CallHook(h: Hook, raising: set<Hook>) returns (raised: bool)
      modifies this`trace
      ensures trace == old(trace) + [h]
      ensures raised <==> h in raising
    {
      trace := trace + [h];
      raised := h in raising;
    }

    /**
     * One cycle of `__runner`.  It blocks while the queue is empty (returns
     * None, nothing changes).  Otherwise it takes the head event, keeps
     * taking until the queue is empty, and dispatches the LAST event: the
     * hooks are called in order until one raises (the exception is logged
     * and the cycle ends), and the state becomes `NextState` of the event if
     * the runner got as far as the assignment.
     */
    method RunCycle(raising: set<Hook>) returns (dispatched: Option<PatternEvent>)
      requires Valid() && task == Running
      modifies this`queue, this`state, this`trace
      ensures Valid()
      ensures old(queue).value == [] ==> dispatched == None && unchanged(this)
      ensures old(queue).value != [] ==>
        dispatched == Some(old(queue).value[|old(queue).value| - 1]) &&
        queue == Some([]) &&
        trace == old(trace) + CalledUntilRaise(Hooks(dispatched.value), raising) &&
        state == if StateCommitted(dispatched.value, raising) then Some(NextState(dispatched.value)) else old(state)
    {
      var q := queue.value;
      if q == [] {
        return None;
      }
      var event := q[0];
      q := q[1..];
      while q != []
        invariant |q| < |old(queue).value|
        invariant q == old(queue).value[|old(queue).value| - |q|..]
        invariant event == old(queue).value[|old(queue).value| - |q| - 1]
      {
        event := q[0];
        q := q[1..];
      }
      queue := Some(q);
      dispatched := Some(event);
      var raised: bool;
      match event {
        case Connected =>
          raised := CallHook(Hook.ClientConnected, raising);
          if raised { return; }
          state := Some(State.Idle);
          raised := CallHook(Hook.Idle, raising);
        case Disconnected =>
          raised := CallHook(Hook.ClientDisconnected, raising);
          if raised { return; }
          state := Some(State.Disconnected);
          raised := CallHook(Hook.Disconnected, raising);
        case Wakeup =>
          raised := CallHook(Hook.Wakeup, raising);
          if raised { return; }
          state := Some(State.Listening);
          raised := CallHook(Hook.Listen, raising);
        case Think =>
          state := Some(State.Thinking);
          raised := CallHook(Hook.Think, raising);
        case Speak =>
          state := Some(State.Speaking);
          raised := CallHook(Hook.Speak, raising);
        case Error =>
          raised := CallHook(Hook.Error, raising);
          if raised { return; }
          state := Some(State.Idle);
          raised := CallHook(Hook.Idle, raising);
        case Done =>
          state := Some(State.Idle);
          raised := CallHook(Hook.Idle, raising);
      }
    }
  }

  /** Pushes one type tag and lets the runner work until it blocks again. */
  method PushAndSettle(engine: PatternEngine, eventType: string)
    requires engine.Valid() && engine.task == Running && engine.queue == Some([])
    modifies engine
    ensures engine.Valid() && engine.task == Running && engine.queue == Some([])
    ensures Translate(eventType).None? ==> engine.state == old(engine.state) && engine.trace == old(engine.trace)
    ensures Translate(eventType).Some? ==>
      engine.state == Some(NextState(Translate(eventType).value)) &&
      engine.trace == old(engine.trace) + Hooks(Translate(eventType).value)
  {
    var raised := engine.PushEvent(eventType);
    var dispatched := engine.RunCycle({});
    if dispatched.Some? {
      QuietCycleRunsAllHooks(dispatched.value);
    }
  }

  /** The successful interaction of the demo: wake word, speech, answer played. */
  method DemoSuccessful(engine: PatternEngine) returns (states: seq<State>)
    requires engine.Valid() && engine.task == Running && engine.queue == Some([])
    modifies engine
    ensures engine.Valid() && engine.task == Running && engine.queue == Some([])
    ensures states == [State.Listening, State.Listening, State.Thinking, State.Speaking, State.Idle]
    ensures engine.state == Some(State.Idle)
    ensures engine.trace == old(engine.trace) + [Hook.Wakeup, Hook.Listen, Hook.Think, Hook.Speak, Hook.Idle]
  {
    TranslateTypeName(PatternEvent.Wakeup);
    PushAndSettle(engine, TypeName(PatternEvent.Wakeup));
    states := [engine.state.value];
    TranslateDropsOthers();
    PushAndSettle(engine, "voice-started");
    states := states + [engine.state.value];
    TranslateTypeName(PatternEvent.Think);
    PushAndSettle(engine, TypeName(PatternEvent.Think));
    states := states + [engine.state.value];
    TranslateTypeName(PatternEvent.Speak);
    PushAndSettle(engine, TypeName(PatternEvent.Speak));
    states := states + [engine.state.value];
    TranslateTypeName(PatternEvent.Done);
    PushAndSettle(engine, TypeName(PatternEvent.Done));
    states := states + [engine.state.value];
  }

  /** The erroneous interaction of the demo: wake word, speech, then an error. */
  method DemoErroneous(engine: PatternEngine) returns (states: seq<State>)
    requires engine.Valid() && engine.task == Running && engine.queue == Some([])
    modifies engine
    ensures engine.Valid() && engine.task == Running && engine.queue == Some([])
    ensures states == [State.Listening, State.Listening, State.Thinking, State.Idle]
    ensures engine.state == Some(State.Idle)
    ensures engine.trace == old(engine.trace) + [Hook.Wakeup, Hook.Listen, Hook.Think, Hook.Error, Hook.Idle]
  {
    TranslateTypeName(PatternEvent.Wakeup);
    PushAndSettle(engine, TypeName(PatternEvent.Wakeup));
    states := [engine.state.value];
    TranslateDropsOthers();
    PushAndSettle(engine, "voice-started");
    states := states + [engine.state.value];
    TranslateTypeName(PatternEvent.Think);
    PushAndSettle(engine, TypeName(PatternEvent.Think));
    states := states + [engine.state.value];
    TranslateTypeName(PatternEvent.Error);
    PushAndSettle(engine, TypeName(PatternEvent.Error));
    states := states + [engine.state.value];
  }

  /**
   * The demo sequence of the package: connected, the successful and the
   * erroneous interaction, disconnected, each event given time to be
   * dispatched before the next; the state after every push and the hooks called.
   */
  method DemoScenario() returns (states: seq<State>, trace: seq<Hook>)
    ensures states == [
      State.Idle,
      State.Listening, State.Listening, State.Thinking, State.Speaking, State.Idle,
      State.Listening, State.Listening, State.Thinking, State.Idle,
      State.Disconnected]
    ensures trace == [
      Hook.ClientConnected, Hook.Idle,
      Hook.Wakeup, Hook.Listen, Hook.Think, Hook.Speak, Hook.Idle,
      Hook.Wakeup, Hook.Listen, Hook.Think, Hook.Error, Hook.Idle,
      Hook.ClientDisconnected, Hook.Disconnected]
  {
    var engine := new PatternEngine();
    engine.Setup();
    TranslateTypeName(PatternEvent.Connected);
    PushAndSettle(engine, TypeName(PatternEvent.Connected));
    states := [engine.state.value];
    var good := DemoSuccessful(engine);
    var bad := DemoErroneous(engine);
    TranslateTypeName(PatternEvent.Disconnected);
    PushAndSettle(engine, TypeName(PatternEvent.Disconnected));
    states := states + good + bad + [engine.state.value];
    trace := engine.trace;
    var raised := engine.Cleanup();
  }

  /** `push_event` for each tag of `ts` in turn, after `setup`. */
  method PushAll(engine: PatternEngine, ts: seq<string>)
    requires engine.Valid() && engine.queue.Some?
    modifies engine`queue
    ensures engine.Valid()
    ensures engine.queue == Some(old(engine.queue).value + Enqueued(ts))
  {
    var q0 := engine.queue.value;
    assert q0 + Enqueued(ts[..0]) == q0;
    for i := 0 to |ts|
      invariant engine.Valid()
      invariant engine.queue == Some(q0 + Enqueued(ts[..i]))
    {
      assert ts[..i + 1][..i] == ts[..i] && ts[..i + 1][i] == ts[i];
      var raised := engine.PushEvent(ts[i]);
      match Translate(ts[i]) {
        case Some(e) =>
          assert Enqueued(ts[..i + 1]) == Enqueued(ts[..i]) + [e];
          assert q0 + Enqueued(ts[..i]) + [e] == q0 + Enqueued(ts[..i + 1]);
        case None =>
          assert Enqueued(ts[..i + 1]) == Enqueued(ts[..i]);
      }
    }
    assert ts[..|ts|] == ts;
  }

  /** `ts[i]` is the last tag of `ts` that `push_event` recognises. */
  predicate LastRecognised(ts: seq<string>, i: int)
  {
    0 <= i < |ts| && Translate(ts[i]).Some? && forall k :: i < k < |ts| ==> Translate(ts[k]).None?
  }

  /**
   * Coalescing, for any burst: the tags `ts` are all pushed before the
   * runner's next cycle.  With no recognised tag the runner keeps blocking;
   * otherwise it dispatches only the translation of the last recognised tag.
   */
  method CoalescedBurst(ts: seq<string>) returns (dispatched: Option<PatternEvent>, state: Option<State>, trace: seq<Hook>)
    ensures (forall k :: 0 <= k < |ts| ==> Translate(ts[k]).None?) ==>
      dispatched == None && state == Some(State.Disconnected) && trace == []
    ensures forall i :: LastRecognised(ts, i) ==>
      dispatched == Translate(ts[i]) &&
      state == Some(NextState(Translate(ts[i]).value)) &&
      trace == Hooks(Translate(ts[i]).value)
  {
    var engine := new PatternEngine();
    engine.Setup();
    PushAll(engine, ts);
    dispatched := engine.RunCycle({});
    state := engine.state;
    trace := engine.trace;
    EnqueuedEmpty(ts);
    if dispatched.Some? {
      QuietCycleRunsAllHooks(dispatched.value);
    }
    forall i | LastRecognised(ts, i)
      ensures dispatched == Translate(ts[i])
    {
      EnqueuedLast(ts, i);
    }
  }

  /**
   * A burst: several events queued before the runner gets to them are
   * coalesced into one dispatch of the last one.
   */
  method BurstScenario() returns (dispatched: Option<PatternEvent>, state: Option<State>, trace: seq<Hook>)
    ensures dispatched == Some(PatternEvent.Think)
    ensures state == Some(State.Thinking)
    ensures trace == [Hook.Think]
  {
    var ts := ["satellite-connected", "detection", "voice-started", "voice-stopped", "transcript"];
    TranslateDropsOthers();
    TranslateTypeName(PatternEvent.Think);
    assert LastRecognised(ts, 3) by {
      assert ts[3] == TypeName(PatternEvent.Think) && ts[4] == "transcript" && |ts| == 5;
    }
    dispatched, state, trace := CoalescedBurst(ts);
  }
}
