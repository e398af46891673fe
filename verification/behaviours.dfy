/** Runs of a step function, and what holds at the end of every run. */
module Behaviours {
  // The state after the events, one by one.
  function After<S, E>(next: (S, E) -> S, s: S, events: seq<E>): S {
    if events == [] then s else After(next, next(s, events[0]), events[1..])
  }

  // What holds at the start and survives every step holds after every run.
  lemma {:induction false} AlwaysAfter<S(!new), E(!new)>(keep: S -> bool, next: (S, E) -> S, s: S, events: seq<E>)
    requires keep(s)
    requires forall x, e :: keep(x) ==> keep(next(x, e))
    ensures keep(After(next, s, events))
  {
    if events != [] {
      AlwaysAfter(keep, next, next(s, events[0]), events[1..]);
    }
  }

  // Every step of the run is one of the allowed ones.
  ghost predicate Allowed<S, E>(ok: (S, E) -> bool, next: (S, E) -> S, s: S, events: seq<E>) {
    events == [] || (ok(s, events[0]) && Allowed(ok, next, next(s, events[0]), events[1..]))
  }

  lemma {:induction false} AlwaysAfterAllowed<S(!new), E(!new)>(keep: S -> bool, ok: (S, E) -> bool, next: (S, E) -> S, s: S, events: seq<E>)
    requires keep(s) && Allowed(ok, next, s, events)
    requires forall x, e :: keep(x) && ok(x, e) ==> keep(next(x, e))
    ensures keep(After(next, s, events))
  {
    if events != [] {
      AlwaysAfterAllowed(keep, ok, next, next(s, events[0]), events[1..]);
    }
  }
}
