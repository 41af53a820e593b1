/** What every controller-driven pattern adds to the engine: releasing its controller. */
module GenericPattern {
  import Engine
  import MockLed

  /**
   * `GenericLedPattern.cleanup`: drops the controller's buffer, then cancels
   * the runner (which raises when `setup` never ran).
   */
  method Cleanup(engine: Engine.PatternEngine, ctrl: MockLed.LedController) returns (raised: bool)
    requires engine.Valid() && ctrl.Valid()
    modifies engine`task, ctrl`colors
    ensures engine.Valid() && ctrl.Valid()
    ensures ctrl.colors == null
    ensures raised <==> old(engine.task) == Engine.NoTask
    ensures engine.task == if raised then Engine.NoTask else Engine.Cancelled
    ensures engine.state == old(engine.state) && engine.queue == old(engine.queue)
  {
    ctrl.Cleanup();
    raised := engine.Cleanup();
  }
}
