/** Mismatched acknowledgements switch every matcher off until the queue drains. */
module Reliability {
  import opened Events
  import opened Observer
  import opened Runs

  /** An acknowledgement that does not fit the oldest pending mutation. */
  predicate Mismatch(s: State, x: Seen) {
    x.FromServer? && Acknowledges(x.reply) && !Expected(s, x.reply)
  }

  /** A ReadyForQuery that leaves no cycle in flight. */
  predicate Drains(s: State, x: Seen) {
    x.FromServer? && x.reply.Ready? && |s.cycles| <= 1
  }

  /** No mismatch has happened since the queue last drained. */
  predicate CleanSinceDrain(s: State, xs: seq<Seen>) {
    if xs == [] then true
    else
      var t, x := Run(s, xs[..|xs| - 1]), xs[|xs| - 1];
      Drains(t, x) || (CleanSinceDrain(s, xs[..|xs| - 1]) && !Mismatch(t, x))
  }

  lemma ReliableStep(s: State, x: Seen)
    ensures Advance(s, x).reliable <==> Drains(s, x) || (s.reliable && !Mismatch(s, x))
    ensures !s.reliable ==> forall i :: 0 <= i < |EventsOf(s, x)| ==> !EventsOf(s, x)[i].reliable
    ensures Mismatch(s, x) ==> EventsOf(s, x) == []
  {
    StepShape(s, x);
    if x.FromServer? && x.reply.Ready? {
      assert |Before(s, x.reply).cycles| == |s.cycles|;
    }
  }

  /** At every point of every run the flag says exactly whether a mismatch happened since the last drain. */
  lemma {:induction false} ReliableMeansClean(s: State, xs: seq<Seen>)
    requires s.reliable
    ensures Run(s, xs).reliable <==> CleanSinceDrain(s, xs)
  {
    if xs != [] {
      ReliableMeansClean(s, xs[..|xs| - 1]);
      ReliableStep(Run(s, xs[..|xs| - 1]), xs[|xs| - 1]);
    }
  }

  predicate AllUnreliable(es: seq<Event>) {
    forall i :: 0 <= i < |es| ==> !es[i].reliable
  }

  lemma UnreliableStep(s: State, x: Seen)
    requires !s.reliable
    ensures AllUnreliable(EventsOf(s, x))
    ensures !Drains(s, x) ==> !Advance(s, x).reliable
  {
    ReliableStep(s, x);
  }

  /** The queue has not drained since message `i`. */
  predicate NoDrainAfter(s: State, xs: seq<Seen>, i: nat) {
    if |xs| <= i + 1 then true
    else NoDrainAfter(s, xs[..|xs| - 1], i) && !Drains(Run(s, xs[..|xs| - 1]), xs[|xs| - 1])
  }

  /** After a mismatch every event is marked unreliable, up to and including the ReadyForQuery `x` that empties
      the queue. */
  lemma {:induction false} FailsClosed(s: State, xs: seq<Seen>, i: nat, x: Seen)
    requires i < |xs| && Mismatch(Run(s, xs[..i]), xs[i]) && NoDrainAfter(s, xs, i)
    ensures !Run(s, xs).reliable
    ensures AllUnreliable(EventsOf(Run(s, xs), x))
  {
    var front, last := xs[..|xs| - 1], xs[|xs| - 1];
    if i < |front| {
      assert front[..i] == xs[..i];
      FailsClosed(s, front, i, last);
      UnreliableStep(Run(s, front), last);
    } else {
      ReliableStep(Run(s, front), last);
    }
    UnreliableStep(Run(s, xs), x);
  }
}
