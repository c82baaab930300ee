/** Event-driven components as state machines; a run is any sequence of events, each enabled when it happens. */
module Runs {
  datatype Machine<!S, !E> = Machine(init: S, enabled: (S, E) -> bool, step: (S, E) -> S)

  ghost function After<S, E>(m: Machine<S, E>, events: seq<E>): S {
    if events == [] then m.init
    else m.step(After(m, events[..|events| - 1]), events[|events| - 1])
  }

  ghost predicate IsRun<S, E>(m: Machine<S, E>, events: seq<E>) {
    events == [] ||
    var before := events[..|events| - 1];
    IsRun(m, before) && m.enabled(After(m, before), events[|events| - 1])
  }

  lemma RunOneMore<S, E>(m: Machine<S, E>, events: seq<E>, e: E)
    ensures After(m, events + [e]) == m.step(After(m, events), e)
    ensures IsRun(m, events + [e]) <==> IsRun(m, events) && m.enabled(After(m, events), e)
  {
    assert (events + [e])[..|events|] == events;
  }

  /** What holds at the start and is kept by every enabled event holds after every run. */
  lemma {:induction false} InvariantHolds<S(!new), E(!new)>(m: Machine<S, E>, inv: S -> bool, events: seq<E>)
    requires inv(m.init)
    requires forall s: S, e: E | inv(s) && m.enabled(s, e) :: inv(m.step(s, e))
    requires IsRun(m, events)
    ensures inv(After(m, events))
  {
    if events != [] {
      InvariantHolds(m, inv, events[..|events| - 1]);
    }
  }
}
