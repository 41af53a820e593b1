# LED feedback for a Wyoming voice satellite — a Dafny model

The service turns the lifecycle events of a voice-assistant satellite
(connected, wake word detected, voice stopped, answer audio started, answer
played, error, disconnected) into LED feedback. This project models its
core and proves properties of the model:

- **the engine** (`AbstractLedPattern` in `base/led_pattern.py`), in
  `engine.dfy`. `push_event` translates a protocol type tag into one of
  seven pattern events and queues the recognised ones. One runner cycle
  takes the head event and drains the queue, so only the last queued event
  survives. It then calls the pattern's hooks for that event and sets one
  of five states. The class `PatternEngine` holds the state, the queue, the
  runner task's status and a trace of the hooks the runner has called.
  A hook that raises ends the cycle: the exception is logged and the runner
  goes on. `RunCycle` takes the set of hooks that raise as a parameter. The
  `state` property is the field `state`.
- **the mock LED controller** (`led_controller/mock.py`), in
  `mock_controller.dfy`. It is a 12-slot array with bounds-checked writes.
  `show` prints the buffer; the model keeps the printed snapshots in a log.
  `cleanup` drops the buffer.
- **the two patterns** (`led_pattern/default.py`, `led_pattern/alexa.py`),
  in `default_pattern.dfy` and `alexa_pattern.dfy`. They paint the
  controller's buffer. Each has a `Perform(h)` method: the method Python
  resolves for hook `h`, which is the base class's no-op where the pattern
  does not override it. The Alexa animations loop "while no event is
  pending". Their parameter `quiet` is the number of times
  `has_pending_event()` answers "no" before it first answers "yes". The
  loop bodies update their locals through one step function each
  (`FadeStep`, `PulseStep`).
- **`GenericLedPattern.cleanup`**, in `generic_pattern.dfy`.
- **start-up rules of `__main__.py`**, in `plugin_name.dfy`. The plugin
  name `controller[/pattern]` is split on `/` with Python's `str.split`
  semantics. `main` refuses to start without `--test` or a non-empty `--uri`.

The engine and the patterns are one object in the source: the patterns
inherit from the engine. Here they are separate objects. The engine
records which hooks it calls, and a pattern's `Perform` says what each
hook does to the LEDs. The handlers therefore cannot touch the engine's
state or queue: their `modifies` clauses name only the controller and the
pattern's own `_active` flag.

`__runner` coalesces events only by draining its queue; it has no timing
windows.

## Model

| member | source | states |
|---|---|---|
| `Engine.Translate` | wyoming_satellite_led_event/base/led_pattern.py:186-208 | a recognised tag yields the event whose type name is exactly that tag |
| `Engine.TranslateTypeName` | wyoming_satellite_led_event/base/led_pattern.py:189-208 | each of the seven events is produced by its own tag (satellite-connected, satellite-disconnected, detection, voice-stopped, audio-start, error, played) |
| `Engine.TranslateRecognises` | wyoming_satellite_led_event/base/led_pattern.py:186-211 | a tag is queued if and only if it is one of the seven type names |
| `Engine.TranslateDropsOthers` | wyoming_satellite_led_event/base/led_pattern.py:186-211 | voice-started, transcript, audio-stop, synthesize, streaming-started/stopped and transcribe are dropped |
| `Engine.NextStateCases` | wyoming_satellite_led_event/base/led_pattern.py:150-180 | CONNECTED, ERROR, DONE lead to IDLE; DISCONNECTED to DISCONNECTED; WAKEUP to LISTENING; THINK to THINKING; SPEAK to SPEAKING; both directions |
| `Engine.CalledUntilRaise` | wyoming_satellite_led_event/base/led_pattern.py:138-183 | the hooks called are a prefix of the event's hooks, ending at the first that raises; all of them when none raises |
| `Engine.QuietCycleRunsAllHooks` | wyoming_satellite_led_event/base/led_pattern.py:150-180 | without exceptions a cycle calls every hook of the event and commits its state |
| `Engine.CommitOrder` | wyoming_satellite_led_event/base/led_pattern.py:150-180 | THINK, SPEAK, DONE always assign the state; the others assign it exactly when their first hook did not raise |
| `Engine.EnqueuedEmpty` | wyoming_satellite_led_event/base/led_pattern.py:186-211 | pushing a list of tags queues nothing exactly when none is recognised |
| `Engine.EnqueuedLast` | wyoming_satellite_led_event/base/led_pattern.py:186-211 | the last queued event is the translation of the last recognised tag, whatever unrecognised tags follow |
| `Engine.PatternEngine.constructor` | wyoming_satellite_led_event/base/led_pattern.py:39-42 | state None, no queue, no task, no hook called |
| `Engine.PatternEngine.Setup` | wyoming_satellite_led_event/base/led_pattern.py:214-217 | state DISCONNECTED, empty queue, runner started |
| `Engine.PatternEngine.Cleanup` | wyoming_satellite_led_event/base/led_pattern.py:220-221 | the runner is cancelled (idempotently); before setup the call raises |
| `Engine.PatternEngine.HasPendingEvent` | wyoming_satellite_led_event/base/led_pattern.py:71-72 | true exactly when the queue is non-empty; raises when there is no queue yet |
| `Engine.PatternEngine.PushEvent` | wyoming_satellite_led_event/base/led_pattern.py:186-211 | a recognised tag appends its event; any other tag leaves the queue unchanged |
| `Engine.PatternEngine.RunCycle` | wyoming_satellite_led_event/base/led_pattern.py:138-183 | blocks on an empty queue; otherwise dispatches the last queued event, empties the queue, calls its hooks until one raises and sets NextState of the event if the assignment is reached, whatever the prior state |
| `Engine.PushAndSettle` | wyoming_satellite_led_event/base/led_pattern.py:138-211 | one event given time to be dispatched leaves the state NextState of its translation (unchanged for an unrecognised tag) and appends its hooks |
| `Engine.PatternEngine.CallHook` | wyoming_satellite_led_event/base/led_pattern.py:150-180 | each `await self.<hook>()`: the hook is recorded as called, and it raises exactly when it is one of the raising hooks |
| `Engine.PushAll` | wyoming_satellite_led_event/base/led_pattern.py:186-211 | pushing tags one by one after `setup` appends exactly `Enqueued` of them: the translations of the recognised tags, in order |
| `Engine.CoalescedBurst` | wyoming_satellite_led_event/base/led_pattern.py:138-211 | for any burst of tags pushed before the runner's next cycle: no recognised tag, the runner keeps blocking (state DISCONNECTED, no hook); otherwise only the translation of the last recognised tag is dispatched, its state set and its hooks called |
| `Engine.BurstScenario` | wyoming_satellite_led_event/base/led_pattern.py:142-147 | connected, detection, voice-started, voice-stopped, transcript queued together: only THINK is dispatched, state THINKING, only the think hook runs |
| `Engine.DemoSuccessful` | wyoming_satellite_led_event/test_pattern.py:19-34 | the successful interaction passes LISTENING, LISTENING, THINKING, SPEAKING, IDLE with hooks wakeup, listen, think, speak, idle |
| `Engine.DemoErroneous` | wyoming_satellite_led_event/test_pattern.py:37-49 | the erroneous interaction passes LISTENING, LISTENING, THINKING, IDLE with hooks wakeup, listen, think, error, idle |
| `Engine.DemoScenario` | wyoming_satellite_led_event/test_pattern.py:53-71 | the whole demo sequence: the state after every event and the full hook trace |
| `MockLed.LedController.constructor` | wyoming_satellite_led_event/led_controller/mock.py:8-13 | 12 slots, all (0, 0, 0, 0), nothing printed |
| `MockLed.LedController.SetLedColor` | wyoming_satellite_led_event/led_controller/mock.py:16-20 | out-of-range index: no change; in range: exactly (red, green, blue, bright_percent) at that slot (bright_percent 100 by default) and no other slot changes; raises after cleanup |
| `MockLed.LedController.Show` | wyoming_satellite_led_event/led_controller/mock.py:22-23 | prints the buffer and changes nothing else |
| `MockLed.LedController.Cleanup` | wyoming_satellite_led_event/led_controller/mock.py:25-27 | the buffer becomes None |
| `GenericPattern.Cleanup` | wyoming_satellite_led_event/base/led_pattern.py:230-232 | drops the controller's buffer, then cancels the runner; state and queue untouched |
| `DefaultPattern.LedPattern.constructor` | wyoming_satellite_led_event/base/led_pattern.py:226-228 | the pattern drives the given controller |
| `DefaultPattern.LedPattern.Color` | wyoming_satellite_led_event/led_pattern/default.py:24-28 | every LED holds rgb at brightness 100, and that picture is shown once |
| `DefaultPattern.LedPattern.SatelliteConnected` | wyoming_satellite_led_event/led_pattern/default.py:31-37 | three green/black flashes, ending black |
| `DefaultPattern.LedPattern.Off` | wyoming_satellite_led_event/led_pattern/default.py:48-49 | every LED black |
| `DefaultPattern.LedPattern.Error` | wyoming_satellite_led_event/led_pattern/default.py:70-76 | exactly three red/black flashes are shown, ending black |
| `DefaultPattern.LedPattern.Perform` | wyoming_satellite_led_event/led_pattern/default.py:40-67 | idle and speak paint black, disconnected red, wakeup blue, listen yellow, think green; client_connected and client_disconnected are the base no-ops (satellite_connected is never reached) |
| `DefaultPattern.ColourFollowsState` | wyoming_satellite_led_event/led_pattern/default.py:40-67 | the last hook of every event paints the colour of the state the event leads to |
| `AlexaPattern.HalfRounded` | wyoming_satellite_led_event/led_pattern/alexa.py:41 | round(n / 2) with halves to even lies between (n - 1) / 2 and (n + 1) / 2 |
| `AlexaPattern.WipeCoversAll` | wyoming_satellite_led_event/led_pattern/alexa.py:39-46 | after steps 0 .. round(n / 2) of writing i and n - i, every LED is black |
| `AlexaPattern.FadeBounded` | wyoming_satellite_led_event/led_pattern/alexa.py:106-118 | on every pass of speak's loop red and green are equal and inside 0..255 |
| `AlexaPattern.FadeTurnsAtBounds` | wyoming_satellite_led_event/led_pattern/alexa.py:115-118 | the direction flips exactly when the channels reach 0 or 255 |
| `AlexaPattern.PulseBounded` | wyoming_satellite_led_event/led_pattern/alexa.py:133-145 | on every pass of disconnected's loop the brightness lies in [2, 40] |
| `AlexaPattern.PulseTurnsAtBounds` | wyoming_satellite_led_event/led_pattern/alexa.py:139-144 | the step flips sign exactly when the brightness is 2 or 40 |
| `AlexaPattern.SweepAlternates` | wyoming_satellite_led_event/led_pattern/alexa.py:78-98 | within a sweep neighbouring LEDs differ; each LED changes colour from one sweep to the next; which LEDs are blue |
| `AlexaPattern.LedPattern.constructor` | wyoming_satellite_led_event/led_pattern/alexa.py:11-13 | `_active` starts false |
| `AlexaPattern.LedPattern.Color` | wyoming_satellite_led_event/led_pattern/alexa.py:15-20 | the same (r, g, b, brightness) on every LED; shown only when show is true |
| `AlexaPattern.LedPattern.Stop` | wyoming_satellite_led_event/led_pattern/alexa.py:39-46 | `_active` false, every LED black, and the shown frames are the wipe closing in from both ends |
| `AlexaPattern.LedPattern.Idle` | wyoming_satellite_led_event/led_pattern/alexa.py:28-35 | `_active` false and every LED black; by the wipe when it was active, otherwise one black frame |
| `AlexaPattern.LedPattern.ClientConnected` | wyoming_satellite_led_event/led_pattern/alexa.py:22-25 | one white frame at 80 %, then the wipe; ends black with `_active` false |
| `AlexaPattern.LedPattern.Error` | wyoming_satellite_led_event/led_pattern/alexa.py:123-130 | three red/black flashes, red, then the wipe; ends black with `_active` false |
| `AlexaPattern.LedPattern.Wakeup` | wyoming_satellite_led_event/led_pattern/alexa.py:50-68 | `_active` true; LEDs j and n - j (j <= round(n / 2) - 2) blue at brightness 65 + 5j; each LED between is white at brightness 55 + 5s, where s is the last step that wrote it (step j writes LED j, step n - j writes LED n - j) |
| `AlexaPattern.LedPattern.WakeupWrites` | wyoming_satellite_led_event/led_pattern/alexa.py:55-63 | one step i of the wakeup loop: white at i and n - i, then blue at i - 2 and n - i + 2, later writes winning and out-of-range indices ignored |
| `AlexaPattern.WakeupStepKeeps` | wyoming_satellite_led_event/led_pattern/alexa.py:53-66 | each step up to round(n / 2) keeps the picture: blue trail at both ends, white inside at the brightness of the step that last wrote it |
| `AlexaPattern.LedPattern.SweepOnce` | wyoming_satellite_led_event/led_pattern/alexa.py:82-89 | one pass of the `for` loop: LEDs 0 .. written - 1 take the sweep's alternating colours, the rest keep theirs; fewer than n are written only when the pending-event check said yes |
| `AlexaPattern.LedPattern.Think` | wyoming_satellite_led_event/led_pattern/alexa.py:75-100 | `_active` true; after quiet / (n + 1) full sweeps and a sweep cut after quiet % (n + 1) - 1 writes, each LED holds the colour of the last sweep that reached it |
| `AlexaPattern.LedPattern.Speak` | wyoming_satellite_led_event/led_pattern/alexa.py:103-120 | `_active` true; every LED (r, r, 255) with r in 0..255 from the fade, or white when an event was already pending |
| `AlexaPattern.LedPattern.Disconnected` | wyoming_satellite_led_event/led_pattern/alexa.py:132-145 | every LED red at the pulse's brightness, inside [2, 40], one frame per pass |
| `AlexaPattern.LedPattern.Perform` | wyoming_satellite_led_event/led_pattern/alexa.py:22-145 | idle, client_connected and error end black with `_active` false; wakeup, think, speak set it; listen and client_disconnected change nothing |
| `PluginName.Split` | wyoming_satellite_led_event/__main__.py:20 | at least one part, no part contains '/', and joining the parts with '/' gives the name back |
| `PluginName.SplitSegment` | wyoming_satellite_led_event/__main__.py:20 | a name without '/' is one part |
| `PluginName.SplitAfterSegment` | wyoming_satellite_led_event/__main__.py:20 | a '/'-free segment followed by '/' is split off as the first part |
| `PluginName.SplitTwoSegments` | wyoming_satellite_led_event/__main__.py:20 | the first part is the text before the first '/', the second the text from there to the next '/' or the end |
| `PluginName.ModulesFor` | wyoming_satellite_led_event/__main__.py:20-37 | the controller module is named by the text before the first '/', the pattern module by the text between it and the next '/' (or the end), "default" when the name has no '/'; later text is ignored |
| `PluginName.ControllerOnly` | wyoming_satellite_led_event/__main__.py:35 | a name without '/' selects that controller and the default pattern |
| `PluginName.ControllerAndPattern` | wyoming_satellite_led_event/__main__.py:20-37 | controller/pattern selects both; parts after the second are ignored |
| `PluginName.Start` | wyoming_satellite_led_event/__main__.py:71-81 | aborts exactly when neither --test nor a non-empty --uri is given; otherwise loads the modules the name selects |

The event-to-state table `Engine.NextState` and the hook table
`Engine.Hooks` (base/led_pattern.py:150-180) are stated by
`NextStateCases`, `CommitOrder` and `RunCycle`. The loop bodies
`AlexaPattern.FadeStep` (alexa.py:115-118) and `AlexaPattern.PulseStep`
(alexa.py:141-144) are stated by the `Bounded` and `TurnsAtBounds` lemmas.
`AlexaPattern.LedPattern.Listen` (alexa.py:71-72) does nothing, as
`AlexaPattern.LedPattern.Perform` states.

## Left out

- `LedPatternRunner` and `EventHandler.handle_event` in `__main__.py`: the runner's source is not part of this model, so any timing or cancellation it adds is not modelled.
- asyncio: task creation and cancellation are a status field; the blocking `Queue.get` is a cycle that does nothing on an empty queue; every `asyncio.sleep` is dropped.
- Termination of the `while not self.has_pending_event()` loops depends on a concurrent producer; the parameter `quiet` fixes how long the producer stays silent.
- The numeric values of `_EVENTS` (200..206) and `STATE` (100..104): the code only compares them for identity.
- Logging of caught exceptions; which hooks raise is a parameter of `RunCycle` (in the source, for example, a handler raises once the controller buffer is gone).
- The pattern handlers require a live controller buffer; running them after `cleanup` raises in the source and is covered only by that parameter.
- The commented-out earlier runner in `base/led_pattern.py`, the respeaker controllers (GPIO and an external driver), `setup.py`, and the abstract `base/led_controller.py`, which only declares the interface the mock implements.
- `importlib` lookup, `sys.exit`, argparse, `AsyncServer` and logging set-up in `__main__.py`; `Start` returns which modules would be loaded.
- `AlexaPattern.LedPattern.Wakeup`: states the final picture and the number of frames shown, not each intermediate frame.
- `Engine.PatternEngine.Setup`: a second `setup` replaces the task without cancelling the first runner, which could then consume from the new queue beside the second; the single `task` field cannot express two runners.
- `AlexaPattern.LedPattern.Think`: states the final picture and that frames are only appended, not each shown frame.
- `AlexaPattern.LedPattern.Speak`: states the final picture and the number of frames shown, not each frame's colour.
- `AlexaPattern.LedPattern.Disconnected`: states the final picture and the number of frames shown, not each frame's brightness.
- `AlexaPattern.LedPattern.Perform`: summarises each hook's effect; the exact pictures are in the per-hook methods.
