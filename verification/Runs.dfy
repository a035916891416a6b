/** Runs of a state machine given by a step function and the events it accepts. */
module Runs {

  /** The state after a sequence of events. */
  ghost function After<S, E>(step: (S, E) -> S, s: S, events: seq<E>): S
    decreases |events|
  {
    if events == [] then s else After(step, step(s, events[0]), events[1..])
  }

  /** Every event of the sequence is allowed in the state in which it happens. */
  ghost predicate Legal<S, E>(allowed: (S, E) -> bool, step: (S, E) -> S, s: S, events: seq<E>)
    decreases |events|
  {
    events != [] ==> allowed(s, events[0]) && Legal(allowed, step, step(s, events[0]), events[1..])
  }

  /** What every allowed event keeps holds after every legal run. */
  lemma {:induction false} Invariant<S(!new), E(!new)>(inv: S -> bool, allowed: (S, E) -> bool, step: (S, E) -> S,
                                                      s: S, events: seq<E>)
    requires forall t, e :: inv(t) && allowed(t, e) ==> inv(step(t, e))
    requires inv(s) && Legal(allowed, step, s, events)
    ensures inv(After(step, s, events))
    decreases |events|
  {
    if events != [] {
      Invariant(inv, allowed, step, step(s, events[0]), events[1..]);
    }
  }

  /** The same where every event is allowed. */
  lemma {:induction false} Always<S(!new), E(!new)>(inv: S -> bool, step: (S, E) -> S, s: S, events: seq<E>)
    requires forall t, e :: inv(t) ==> inv(step(t, e))
    requires inv(s)
    ensures inv(After(step, s, events))
    decreases |events|
  {
    if events != [] {
      Always(inv, step, step(s, events[0]), events[1..]);
    }
  }

  /** What every allowed event preserves between two states holds between the ends of a run. */
  lemma {:induction false} Relates<S(!new), E(!new)>(inv: S -> bool, rel: (S, S) -> bool,
                                                    allowed: (S, E) -> bool, step: (S, E) -> S, s: S, events: seq<E>)
    requires forall t, e :: inv(t) && allowed(t, e) ==> inv(step(t, e)) && rel(t, step(t, e))
    requires forall t :: rel(t, t)
    requires forall t, u, v :: rel(t, u) && rel(u, v) ==> rel(t, v)
    requires inv(s) && Legal(allowed, step, s, events)
    ensures rel(s, After(step, s, events))
    decreases |events|
  {
    if events != [] {
      Relates(inv, rel, allowed, step, step(s, events[0]), events[1..]);
    }
  }

  lemma {:induction false} Compose<S, E>(step: (S, E) -> S, s: S, a: seq<E>, b: seq<E>)
    ensures After(step, s, a + b) == After(step, After(step, s, a), b)
    decreases |a|
  {
    if a == [] {
      assert a + b == b;
    } else {
      assert (a + b)[0] == a[0] && (a + b)[1..] == a[1..] + b;
      Compose(step, step(s, a[0]), a[1..], b);
    }
  }

  lemma {:induction false} Extend<S, E>(allowed: (S, E) -> bool, step: (S, E) -> S, s: S, events: seq<E>, e: E)
    requires Legal(allowed, step, s, events) && allowed(After(step, s, events), e)
    ensures Legal(allowed, step, s, events + [e])
    ensures After(step, s, events + [e]) == step(After(step, s, events), e)
    decreases |events|
  {
    if events == [] {
      assert [e][1..] == [];
    } else {
      assert (events + [e])[0] == events[0] && (events + [e])[1..] == events[1..] + [e];
      Extend(allowed, step, step(s, events[0]), events[1..], e);
    }
  }

  lemma Prepend<S, E>(allowed: (S, E) -> bool, step: (S, E) -> S, s: S, e: E, rest: seq<E>)
    requires allowed(s, e) && Legal(allowed, step, step(s, e), rest)
    ensures Legal(allowed, step, s, [e] + rest)
    ensures After(step, s, [e] + rest) == After(step, step(s, e), rest)
  {
    assert ([e] + rest)[1..] == rest;
  }

  /** A legal run is legal up to any point, and from there. */
  lemma {:induction false} Parts<S, E>(allowed: (S, E) -> bool, step: (S, E) -> S, s: S, events: seq<E>, n: nat)
    requires Legal(allowed, step, s, events) && n <= |events|
    ensures Legal(allowed, step, s, events[..n])
    ensures Legal(allowed, step, After(step, s, events[..n]), events[n..])
    ensures After(step, After(step, s, events[..n]), events[n..]) == After(step, s, events)
    decreases n
  {
    if n == 0 {
      assert events[..0] == [] && events[0..] == events;
    } else {
      assert events[..n][0] == events[0] && events[..n][1..] == events[1..][..n-1] && events[n..] == events[1..][n-1..];
      Parts(allowed, step, step(s, events[0]), events[1..], n - 1);
    }
  }

  /** What happens between two events of a legal run. */
  lemma Between<S, E>(allowed: (S, E) -> bool, step: (S, E) -> S, s: S, events: seq<E>, i: nat, j: nat)
    requires Legal(allowed, step, s, events) && i < j <= |events|
    ensures var t := After(step, s, events[..i]);
      && allowed(t, events[i]) && Legal(allowed, step, step(t, events[i]), events[i+1..j])
      && After(step, step(t, events[i]), events[i+1..j]) == After(step, s, events[..j])
  {
    Parts(allowed, step, s, events, j);
    var first := events[..j];
    Parts(allowed, step, s, first, i);
    assert first[..i] == events[..i] && first[i..][0] == events[i] && first[i..][1..] == events[i+1..j];
  }

  lemma Two<S, E>(step: (S, E) -> S, s: S, a: E, b: E)
    ensures After(step, s, [a, b]) == step(step(s, a), b)
  {
    assert [a, b][1..] == [b] && [b][1..] == [];
    var s1 := step(s, a);
    assert After(step, s1, [b]) == After(step, step(s1, b), []);
  }

  lemma Three<S, E>(step: (S, E) -> S, s: S, a: E, b: E, c: E)
    ensures After(step, s, [a, b, c]) == step(step(step(s, a), b), c)
  {
    assert [a, b, c][1..] == [b, c] && [b, c][1..] == [c] && [c][1..] == [];
    var s1 := step(s, a);
    var s2 := step(s1, b);
    assert After(step, s1, [b, c]) == After(step, s2, [c]);
    assert After(step, s2, [c]) == After(step, step(s2, c), []);
  }
}
