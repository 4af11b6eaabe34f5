/** The environment every transaction of the installers runs in. An effect (rename,
    journal write, service command) may succeed, may fail and raise, or the process may
    die at it; in both bad cases the effect may or may not have happened already. */
module Faults {

  datatype Option<+T> = None | Some(value: T)

  /** How an effect, or a whole Python function made of effects, ended. `Died` is process
      death: no handler runs after it. Propagated with `:-`. */
  datatype Outcome = Done | Raised | Died {
    predicate IsFailure() { !Done? }

    function PropagateFailure(): Outcome
      requires IsFailure()
    {
      this
    }
  }

  /** What the environment decides for one effect. */
  datatype Fate = Fine | RaiseBefore | RaiseAfter | DieBefore | DieAfter {
    predicate Before() { RaiseBefore? || DieBefore? }

    function Ends(): Outcome {
      if Fine? then Done else if RaiseBefore? || RaiseAfter? then Raised else Died
    }
  }

  /** Draws a fate; an undisturbed environment never fails an effect. */
  method Draw(disturbed: bool) returns (fate: Fate)
    ensures !disturbed ==> fate == Fine
  {
    fate := *;
    if !disturbed {
      fate := Fine;
    }
  }

  /** An effect that reads the environment, or writes only what the model leaves out. */
  method Observe(disturbed: bool) returns (o: Outcome)
    ensures !disturbed ==> o == Done
  {
    var fate := Draw(disturbed);
    o := fate.Ends();
  }
}
