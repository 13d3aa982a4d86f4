/**
 * The interaction contract ("reel") through which an external engine drives a
 * spawned command: at each phase the handler answers with a Step, and a nil
 * Step (or one with nothing to expect) ends the interaction.
 */
module Reel {

  /** A possibly nil reference. */
  datatype Option<+T> = None | Some(value: T)

  /**
   * What the engine should do next: send `execute` to the process, then wait
   * at most `timeout` for one of the patterns in `expects` to match.
   */
  datatype Step<P> = Step(execute: string, expects: seq<P>, timeout: nat)

  /** The interrupt character (Ctrl-C) the engine writes to stop a process. */
  const CtrlC: string := [3 as char]

  /** A nil Step, or one that watches for nothing, ends the interaction. */
  predicate IsTerminal<P>(step: Option<Step<P>>)
  {
    step.None? || step.value.expects == []
  }
}
