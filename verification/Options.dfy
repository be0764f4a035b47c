/** Shared vocabulary.

    Every protocol of this project is a partial `Step` function over events, and `Run(es)`
    is the state after the event sequence `es`, or None when an event was not enabled. All
    nondeterminism (scheduling, handler outcomes, cancellation, expiry) lives in the choice
    of events, so a statement about every event sequence is one about every interleaving. */
module Options {
  datatype Option<+T> = None | Some(value: T)
}
