/** The prepared statements the observer assumes, against those the server has confirmed. */
module Speculation {
  import opened Base
  import opened Observer
  import opened Runs
  import opened Reliability

  /** Every unacknowledged mutation, oldest cycle first. */
  function Backlog(cs: seq<Cycle>): seq<Mutation> {
    if cs == [] then [] else cs[0].mutations + Backlog(cs[1..])
  }

  function ApplyAll(names: Names, ps: seq<Mutation>): Names
    decreases |ps|
  {
    if ps == [] then names else ApplyAll(ApplyPrepared(names, ps[0]), ps[1..])
  }

  /** Agreement on every name but the empty one, which a simple query forgets at once. */
  ghost predicate AgreeNamed(a: Names, b: Names) {
    forall n: Bytes :: n != [] ==> Lookup(a, n) == Lookup(b, n)
  }

  /** What is assumed is what is confirmed with everything pending applied in order. */
  ghost predicate Refines(s: State) {
    AgreeNamed(s.prepared, ApplyAll(s.confirmedPrepared, Backlog(s.cycles)))
  }

  predicate NoErrorSinceDrain(s: State, xs: seq<Seen>) {
    if xs == [] then true
    else
      var t, x := Run(s, xs[..|xs| - 1]), xs[|xs| - 1];
      Drains(t, x) || (NoErrorSinceDrain(s, xs[..|xs| - 1]) && x != FromServer(ErrorResponse))
  }

  /** The server acknowledges what a cycle asked for before that cycle's ReadyForQuery. */
  predicate AcknowledgedInTime(s: State, x: Seen) {
    x.FromServer? && x.reply.Ready? && !Drains(s, x) ==> s.cycles[0].mutations == []
  }

  lemma {:induction false} BacklogAppend(a: seq<Cycle>, b: seq<Cycle>)
    ensures Backlog(a + b) == Backlog(a) + Backlog(b)
  {
    if a == [] {
      assert a + b == b;
    } else {
      assert (a + b)[1..] == a[1..] + b;
      BacklogAppend(a[1..], b);
    }
  }

  lemma BacklogOne(c: Cycle)
    ensures Backlog([c]) == c.mutations
  {
    assert [c][1..] == [];
  }

  /** A client message adds its own mutation at the end. */
  lemma ClientBacklog(s: State, m: ClientMessage)
    requires Opens(m)
    ensures Backlog(Received(s, m).cycles) == Backlog(s.cycles) + Pending(s, m)
  {
    var s' := Received(s, m);
    var base := if OpensNew(s, m) then NewCycle(s.nextCycle + 1, !m.Query?) else Newest(s);
    var c := s'.cycles[|Older(s, m)|];
    assert c.mutations == base.mutations + Pending(s, m);
    assert s'.cycles == Older(s, m) + [c];
    BacklogAppend(Older(s, m), [c]);
    BacklogOne(c);
    if !OpensNew(s, m) {
      assert s.cycles == Older(s, m) + [base];
      BacklogAppend(Older(s, m), [base]);
      BacklogOne(base);
    }
    assert Backlog(Older(s, m)) + (base.mutations + Pending(s, m)) == (Backlog(Older(s, m)) + base.mutations) + Pending(s, m);
  }

  lemma {:induction false} ApplyAllSnoc(names: Names, ps: seq<Mutation>, p: Mutation)
    ensures ApplyAll(names, ps + [p]) == ApplyPrepared(ApplyAll(names, ps), p)
    decreases |ps|
  {
    if ps == [] {
      assert ps + [p] == [p] && [p][1..] == [];
    } else {
      assert (ps + [p])[1..] == ps[1..] + [p];
      ApplyAllSnoc(ApplyPrepared(names, ps[0]), ps[1..], p);
    }
  }

  lemma AgreeApply(a: Names, b: Names, p: Mutation)
    requires AgreeNamed(a, b)
    ensures AgreeNamed(ApplyPrepared(a, p), ApplyPrepared(b, p))
  {
    forall n: Bytes | n != []
      ensures Lookup(ApplyPrepared(a, p), n) == Lookup(ApplyPrepared(b, p), n)
    {
      assert Lookup(a, n) == Lookup(b, n);
    }
  }

  lemma {:induction false} AgreeApplyAll(a: Names, b: Names, ps: seq<Mutation>)
    requires AgreeNamed(a, b)
    ensures AgreeNamed(ApplyAll(a, ps), ApplyAll(b, ps))
    decreases |ps|
  {
    if ps != [] {
      AgreeApply(a, b, ps[0]);
      AgreeApplyAll(ApplyPrepared(a, ps[0]), ApplyPrepared(b, ps[0]), ps[1..]);
    }
  }

  lemma ClientRefines(s: State, m: ClientMessage)
    requires Refines(s)
    ensures Refines(Received(s, m))
  {
    if Opens(m) {
      var s' := Received(s, m);
      var backlog := Backlog(s.cycles);
      ClientBacklog(s, m);
      AgreeApplyAll(s.confirmedPrepared, s'.confirmedPrepared, backlog);
      var now := ApplyAll(s'.confirmedPrepared, backlog);
      assert AgreeNamed(s.prepared, now);
      if Pending(s, m) == [] {
        assert backlog + [] == backlog;
      } else {
        var p := Pending(s, m)[0];
        assert Pending(s, m) == [p];
        ApplyAllSnoc(s'.confirmedPrepared, backlog, p);
        AgreeApply(s.prepared, now, p);
      }
    }
  }

  lemma ServerRefines(s: State, m: ServerMessage)
    requires Refines(s) && !m.ErrorResponse?
    requires Acknowledges(m) ==> Expected(s, m)
    requires m.Ready? && |s.cycles| > 1 ==> s.cycles[0].mutations == []
    ensures Refines(After(Before(s, m), m))
  {
    var s' := After(Before(s, m), m);
    if m.Ready? {
      if |s.cycles| > 1 {
        assert [] + Backlog(s.cycles[1..]) == Backlog(s.cycles[1..]);
        assert s'.cycles == s.cycles[1..];
      } else {
        assert s'.cycles == [];
      }
    } else if s.cycles != [] {
      assert s'.cycles[1..] == s.cycles[1..];
      if Acknowledges(m) {
        var p := s.cycles[0].mutations[0];
        assert Backlog(s.cycles) == [p] + Backlog(s'.cycles);
        assert Backlog(s.cycles)[1..] == Backlog(s'.cycles);
      } else {
        assert Backlog(s'.cycles) == Backlog(s.cycles);
      }
    }
  }

  lemma RefinesStep(s: State, x: Seen)
    requires AcknowledgedInTime(s, x)
    requires Drains(s, x) || (Refines(s) && !Mismatch(s, x) && x != FromServer(ErrorResponse))
    ensures Refines(Advance(s, x))
  {
    StepShape(s, x);
    match x {
      case FromClient(m, _) =>
        ClientRefines(s, m);
      case FromServer(m) =>
        if Drains(s, x) {
          assert After(Before(s, m), m).cycles == [];
        } else {
          ServerRefines(s, m);
        }
    }
    assert Refines(Left(s, x));
  }

  /** While reliable and error-free since the last drain, for a server that acknowledges in time: on every
      run the assumed prepared statements are the confirmed ones with all pending mutations applied. */
  lemma {:induction false} SpeculationRefinesConfirmation(s: State, xs: seq<Seen>)
    requires s.reliable && Refines(s)
    requires forall k :: 0 <= k < |xs| ==> AcknowledgedInTime(Run(s, xs[..k]), xs[k])
    requires Run(s, xs).reliable && NoErrorSinceDrain(s, xs)
    ensures Refines(Run(s, xs))
  {
    if xs != [] {
      var front, x := xs[..|xs| - 1], xs[|xs| - 1];
      var t := Run(s, front);
      ReliableStep(t, x);
      if !Drains(t, x) {
        forall k | 0 <= k < |front|
          ensures AcknowledgedInTime(Run(s, front[..k]), front[k])
        {
          assert front[..k] == xs[..k];
        }
        SpeculationRefinesConfirmation(s, front);
      }
      assert xs[..|xs| - 1] == front;
      RefinesStep(t, x);
    }
  }

  /** With nothing in flight the assumed and the confirmed names are the same, the unnamed ones included. */
  predicate DrainedAgree(s: State) {
    s.cycles == [] ==> s.prepared == s.confirmedPrepared && s.portals == s.confirmedPortals
  }

  lemma {:induction false} DrainedNamesCoincide(s: State, xs: seq<Seen>)
    requires DrainedAgree(s)
    ensures DrainedAgree(Run(s, xs))
  {
    if xs != [] {
      var t, x := Run(s, xs[..|xs| - 1]), xs[|xs| - 1];
      DrainedNamesCoincide(s, xs[..|xs| - 1]);
      StepShape(t, x);
      if x.FromClient? {
        ClientCycles(t, x.request);
      }
    }
  }
}
