/** The completion gate over whole runs: what a suppressed completion confirmed never reached the client, and
    exactly when that may fail. */
module GateSafety {
  import opened Base
  import opened Wire
  import opened Sql
  import opened Events
  import opened Observer
  import opened Scenarios
  import opened Relay
  import opened RelayRuns
  import opened ClientLog
  import Runs
  import Completion
  import Faults

  // ---- the observer's side: from the last CommandComplete to the verdict ----

  /** The server's label for an ended transaction. */
  function LabelOf(k: StatementClass): Bytes {
    if k == Commit then COMMIT else ROLLBACK
  }

  /** The statements whose completion is gated for that announcement. */
  predicate Judges(kind: StatementClass, name: EventName) {
    match name
    case CommitCompleted => kind == Commit
    case RollbackCompleted => kind == Rollback
    case _ => kind !in {Begin, Other, Commit, Rollback}
  }

  lemma TagOfReply(f: Frame)
    ensures ReadServer(f).CommandComplete? <==> f.tag == UPPER_C
    ensures ReadServer(f).Ready? || ReadServer(f).BadReady? <==> f.tag == UPPER_Z
  {
  }

  /** Only the oldest cycle has seen a completion. */
  predicate OthersIncomplete(s: State) {
    forall n :: 1 <= n < |s.cycles| ==> s.cycles[n].command == []
  }

  /** The observer still remembers the completion labelled `tag` that it saw in state `s`. */
  predicate Recalls(s: State, tag: Bytes, t: State) {
    && s.cycles != [] && t.cycles != [] && t.cycles[0].id == s.cycles[0].id && t.cycles[0].command == tag
    && t.tx == s.tx && (t.reliable ==> s.reliable)
  }

  /** The class of the statement that a completion arriving in `s` answers. */
  function ClassAt(s: State): StatementClass
    requires s.cycles != []
  {
    Subject(s.cycles[0], Front).kind
  }

  /** What the observer sees neither completes a statement nor ends the cycle. */
  predicate KeepsCompletion(x: Runs.Seen) {
    x.FromServer? ==> !x.reply.CommandComplete? && !x.reply.Ready?
  }

  lemma CompletionRecalled(s: State, tag: Bytes)
    requires s.cycles != []
    ensures var t := Runs.Left(s, Runs.FromServer(CommandComplete(Some(tag))));
            Recalls(s, tag, t) && t.cycles[0].last.kind == ClassAt(s)
  {
  }

  lemma RecallStep(s: State, tag: Bytes, t: State, x: Runs.Seen)
    requires Recalls(s, tag, t) && KeepsCompletion(x)
    ensures Recalls(s, tag, Runs.Left(t, x))
  {
    match x {
      case FromClient(m, _) => RecallClient(s, tag, t, m);
      case FromServer(m) =>
        Runs.ServerCycles(t, m);
        NotReadyKeeps(t, m);
    }
  }

  lemma RecallClient(s: State, tag: Bytes, t: State, m: ClientMessage)
    requires Recalls(s, tag, t)
    ensures Recalls(s, tag, Received(t, m))
  {
    Runs.ClientCycles(t, m);
  }

  lemma NotReadyKeeps(t: State, m: ServerMessage)
    requires !m.Ready?
    ensures var t' := After(Before(t, m), m); t'.tx == t.tx && (t'.reliable ==> t.reliable)
  {
  }

  lemma OthersIncompleteStep(s: State, x: Runs.Seen)
    requires OthersIncomplete(s)
    ensures OthersIncomplete(Runs.Left(s, x))
    ensures x.FromClient? && s.cycles == [] && Runs.Left(s, x).cycles != [] ==> Runs.Left(s, x).cycles[0].command == []
    ensures x.FromServer? && x.reply.Ready? && Runs.Left(s, x).cycles != [] ==> Runs.Left(s, x).cycles[0].command == []
  {
    match x {
      case FromClient(m, _) => OthersIncompleteClient(s, m);
      case FromServer(m) => Runs.ServerCycles(s, m);
    }
  }

  lemma OthersIncompleteClient(s: State, m: ClientMessage)
    requires OthersIncomplete(s)
    ensures OthersIncomplete(Received(s, m))
    ensures s.cycles == [] && Received(s, m).cycles != [] ==> Received(s, m).cycles[0].command == []
  {
    Runs.ClientCycles(s, m);
    if Opens(m) {
      var n := |Older(s, m)|;
      assert Received(s, m).cycles[n].command == Joined(s, m).command;
      assert n > 0 || s.cycles == [] ==> Joined(s, m).command == [];
    }
  }

  /** A completion announced at ReadyForQuery was judged the same at the recalled CommandComplete exactly when
      the statement answered there is one whose completion is gated for that announcement. */
  lemma VerdictWasJudged(s: State, t: State, tag: Bytes, tx: TxState, name: EventName)
    requires Completion.Completes(name) && Recalls(s, tag, t) && Verdict(t, tx) == Some(name)
    ensures tag != [] && (Boundary(s, CommandComplete(Some(tag))) == Some(name) <==> Judges(ClassAt(s), name))
  {
  }

  // ---- the relay's side: from the arrival of a frame to the verdict -----------

  /** A CommandComplete for the oldest cycle. */
  predicate CompletesAt(r: RelayState, i: Input) {
    i.ServerFrame? && r.observer.cycles != [] &&
    ReadServer(i.frame).CommandComplete? && ReadServer(i.frame).tag.Some?
  }

  /** An input that neither completes a statement nor ends the cycle. */
  predicate Within(i: Input) {
    match i
    case ServerFrame(f) => f.tag != UPPER_C && !ReadServer(f).Ready?
    case ClientFrame(_, _) => true
    case _ => false
  }

  /** The frame joins what is held. */
  predicate Shielded(r: RelayState, f: Frame) {
    Gated(r, f) || r.held != []
  }

  predicate Dropped(r: RelayState, f: Frame) {
    Suppresses(ServerFired(r, f))
  }

  datatype Whereabouts = Gone | Waiting | Written

  /** Where the frame is that arrived at that moment. */
  function Whither(t: RelayState, at: nat): Whereabouts {
    if !Kept(t, at) then Written else if Holds(t, at) then Waiting else Gone
  }

  /** What has become of the frame that arrived in `r`: dropped at once, held with nothing written since, or
      written. */
  predicate Fate(r: RelayState, dropped: bool, held: bool, t: RelayState) {
    && r.clock < t.clock
    && Whither(t, r.clock) == (if dropped then Gone else if held then Waiting else Written)
    && (held && !dropped ==> t.toClient == r.toClient)
  }

  lemma FateBegins(r: RelayState, f: Frame)
    requires r.ending == Running && OnServer(r, f).ending == Running && Timely(r) && f.tag == UPPER_C
    ensures Fate(r, Dropped(r, f), Shielded(r, f), Step(r, ServerFrame(f)))
  {
    ServerWire(r, f);
    ServerShape(r, f);
    FateOfArrival(r, Step(r, ServerFrame(f)), f, Gated(r, f), Dropped(r, f));
  }

  lemma FateOfArrival(r: RelayState, r': RelayState, f: Frame, gate: bool, dropped: bool)
    requires Timely(r) && f.tag == UPPER_C && WireStep(r, r', f, gate, dropped) && r'.clock == r.clock + 1
    ensures Fate(r, dropped, gate || r.held != [], r')
  {
    var a := Arrival(r.clock, f);
    if !dropped {
      if gate || r.held != [] {
        assert r'.held[|r.held|] == a;
      } else {
        assert r'.toClient[|r.toClient|] == a;
      }
    }
  }

  lemma BadReadyIsIgnored(s: State)
    ensures Backend(s, BadReady) == s && BackendEvents(s, BadReady) == []
  {
    assert s.cycles != [] ==> [s.cycles[0]] + s.cycles[1..] == s.cycles;
  }

  /** A ReadyForQuery whose body is not I, T or E announces nothing, yet it releases everything held. The
      cycle stays, so its completion is still to be announced, too late. */
  lemma MalformedReadyReleases(t: RelayState, f: Frame)
    requires t.ending == Running && f.tag == UPPER_Z && f.body !in {[UPPER_I], [UPPER_T], [UPPER_E]}
    ensures var t' := OnServer(t, f);
            && t'.toClient == t.toClient + t.held + [Arrival(t.clock, f)] && t'.held == []
            && t'.observer == t.observer && t'.matchers == t.matchers && t'.ending == Running
  {
    BadReadyIsIgnored(t.observer);
    NoteKeeps(t, t.observer, []);
  }

  lemma BadReadyBody(f: Frame)
    ensures ReadServer(f).BadReady? <==> f.tag == UPPER_Z && f.body !in {[UPPER_I], [UPPER_T], [UPPER_E]}
  {
  }

  lemma FateSurvives(r: RelayState, dropped: bool, held: bool, t: RelayState, i: Input)
    requires Fate(r, dropped, held, t) && Timely(t) && t.ending == Running && Step(t, i).ending == Running && Within(i)
    ensures Fate(r, dropped, held && !IsReady(i), Step(t, i))
  {
    var a := LogShape(t, i);
    if dropped {
      LogStepKeeps(t, Step(t, i), a, r.clock);
    } else if !held {
      WrittenStep(t, i, r.clock);
    } else if IsReady(i) {
      TagOfReply(i.frame);
      BadReadyBody(i.frame);
      MalformedReadyReleases(t, i.frame);
      HeldIsWritten(t, Step(t, i), i.frame, r.clock);
    } else {
      HeldStays(t, i);
      HeldIsStillHeld(t, Step(t, i), r.clock);
    }
  }

  lemma HeldIsWritten(t: RelayState, t': RelayState, f: Frame, at: nat)
    requires Holds(t, at) && t'.toClient == t.toClient + t.held + [Arrival(t.clock, f)]
    ensures !Kept(t', at)
  {
    var n :| 0 <= n < |t.held| && t.held[n].at == at;
    assert t'.toClient[|t.toClient| + n] == t.held[n];
  }

  lemma HeldIsStillHeld(t: RelayState, t': RelayState, at: nat)
    requires Holds(t, at) && t.held <= t'.held
    ensures Holds(t', at)
  {
    var n :| 0 <= n < |t.held| && t.held[n].at == at;
    assert t'.held[n] == t.held[n];
  }

  lemma ObserverLeft(r: RelayState, i: Input)
    requires r.ending == Running && (i.ClientFrame? || i.ServerFrame?)
    ensures |SeenAt(r, i)| == 1 && Runs.SameButCounters(Step(r, i).observer, Runs.Left(r.observer, SeenAt(r, i)[0]))
  {
    var xs := SeenAt(r, i);
    StepShape(r, i);
    assert xs == [xs[0]] && xs[..0] == [];
    Runs.StepShape(r.observer, xs[0]);
  }

  lemma OthersIncompleteNext(r: RelayState, i: Input)
    requires OthersIncomplete(r.observer)
    ensures OthersIncomplete(Step(r, i).observer)
    ensures r.ending == Running && r.observer.cycles == [] && Step(r, i).observer.cycles != [] ==>
              Step(r, i).observer.cycles[0].command == []
    ensures r.ending == Running && i.ServerFrame? && ReadServer(i.frame).Ready? && Step(r, i).observer.cycles != [] ==>
              Step(r, i).observer.cycles[0].command == []
  {
    if r.ending == Running && (i.ClientFrame? || i.ServerFrame?) {
      ObserverLeft(r, i);
      OthersIncompleteStep(r.observer, SeenAt(r, i)[0]);
    }
  }

  // ---- whole runs ---------------------------------------------------------

  /** The completion that arrived in `s` is the one the front cycle of `t` recalls; `cleared` tells whether a
      malformed ReadyForQuery has come since. */
  predicate Traced(s: RelayState, i: Input, cleared: bool, t: RelayState) {
    && CompletesAt(s, i) && s.ending == Running
    && Recalls(s.observer, ReadServer(i.frame).tag.value, t.observer)
    && Fate(s, Dropped(s, i.frame), Shielded(s, i.frame) && !cleared, t)
  }

  lemma TracedBegins(s: RelayState, i: Input)
    requires CompletesAt(s, i) && Timely(s) && s.ending == Running && Step(s, i).ending == Running
    ensures Traced(s, i, false, Step(s, i))
  {
    TagOfReply(i.frame);
    ObserverLeft(s, i);
    CompletionRecalled(s.observer, ReadServer(i.frame).tag.value);
    FateBegins(s, i.frame);
  }

  lemma WithinKeeps(t: RelayState, x: Input)
    requires t.ending == Running && Within(x)
    ensures |SeenAt(t, x)| == 1 && KeepsCompletion(SeenAt(t, x)[0])
  {
    if x.ServerFrame? {
      TagOfReply(x.frame);
    }
  }

  lemma TracedSurvives(s: RelayState, i: Input, cleared: bool, t: RelayState, x: Input)
    requires Traced(s, i, cleared, t) && Timely(t) && t.ending == Running && Step(t, x).ending == Running && Within(x)
    ensures Traced(s, i, cleared || IsReady(x), Step(t, x))
  {
    ObserverLeft(t, x);
    WithinKeeps(t, x);
    RecallStep(s.observer, ReadServer(i.frame).tag.value, t.observer, SeenAt(t, x)[0]);
    FateSurvives(s, Dropped(s, i.frame), Shielded(s, i.frame) && !cleared, t, x);
  }

  /** A ReadyForQuery, malformed or not, came after input `i`. */
  predicate Cleared(inputs: seq<Input>, i: nat) {
    |inputs| > i + 1 && (IsReady(inputs[|inputs| - 1]) || Cleared(inputs[..|inputs| - 1], i))
  }

  lemma {:induction false} ClearedWhen(inputs: seq<Input>, i: nat)
    ensures Cleared(inputs, i) <==> exists n :: i < n < |inputs| && IsReady(inputs[n])
  {
    if |inputs| > i + 1 {
      ClearedWhen(inputs[..|inputs| - 1], i);
    }
  }

  /** After the inputs `past` of a run comes a CommandComplete for the cycle then in front, and after that
      nothing that completes a statement or ends the cycle. */
  predicate LastCompletion(r: RelayState, inputs: seq<Input>, past: seq<Input>) {
    if inputs == [] then false
    else
      var front, x := inputs[..|inputs| - 1], inputs[|inputs| - 1];
      if past == front then CompletesAt(Relayed(r, front), x) else Within(x) && LastCompletion(r, front, past)
  }

  lemma {:induction false} LastCompletionIsLast(r: RelayState, inputs: seq<Input>, past: seq<Input>)
    requires LastCompletion(r, inputs, past)
    ensures past < inputs && CompletesAt(Relayed(r, past), inputs[|past|])
    ensures forall n :: |past| < n < |inputs| ==> Within(inputs[n])
  {
    var front := inputs[..|inputs| - 1];
    if past != front {
      LastCompletionIsLast(r, front, past);
    }
  }

  lemma {:induction false} OthersIncompleteRun(r: RelayState, inputs: seq<Input>)
    requires r.observer.cycles == []
    ensures OthersIncomplete(Relayed(r, inputs).observer)
  {
    if inputs != [] {
      OthersIncompleteRun(r, inputs[..|inputs| - 1]);
      OthersIncompleteNext(Relayed(r, inputs[..|inputs| - 1]), inputs[|inputs| - 1]);
    }
  }

  predicate HasCommand(s: State) {
    s.cycles != [] && s.cycles[0].command != []
  }

  /** Whenever the front cycle has a command, the completion that brought it is found. */
  lemma {:induction false} FindLastCompletion(r: RelayState, inputs: seq<Input>) returns (past: seq<Input>)
    requires r.observer.cycles == []
    requires Relayed(r, inputs).ending == Running && HasCommand(Relayed(r, inputs).observer)
    ensures LastCompletion(r, inputs, past)
  {
    var front, x := inputs[..|inputs| - 1], inputs[|inputs| - 1];
    OthersIncompleteRun(r, front);
    CommandOrigin(Relayed(r, front), x);
    if CompletesAt(Relayed(r, front), x) {
      past := front;
    } else {
      past := FindLastCompletion(r, front);
      LastCompletionIsLast(r, front, past);
    }
  }

  /** What that completion, `c`, which arrived in `s`, led to. */
  lemma {:induction false} LastCompletionTraced(r: RelayState, inputs: seq<Input>, past: seq<Input>, c: Input, s: RelayState)
    requires LastCompletion(r, inputs, past) && Timely(r) && Relayed(r, inputs).ending == Running
    requires past < inputs && c == inputs[|past|] && s == Relayed(r, past)
    ensures Traced(s, c, Cleared(inputs, |past|), Relayed(r, inputs))
  {
    var front, x := inputs[..|inputs| - 1], inputs[|inputs| - 1];
    TimelyRun(r, front);
    if past == front {
      TracedBegins(s, x);
    } else {
      LastCompletionIsLast(r, front, past);
      LastCompletionTraced(r, front, past, c, s);
      TracedSurvives(s, c, Cleared(front, |past|), Relayed(r, front), x);
    }
  }

  /** Where the command of the front cycle comes from. */
  lemma CommandOrigin(t: RelayState, x: Input)
    requires t.ending == Running && Step(t, x).ending == Running && OthersIncomplete(t.observer)
    requires HasCommand(Step(t, x).observer)
    ensures CompletesAt(t, x) || (Within(x) && HasCommand(t.observer))
  {
    ObserverLeft(t, x);
    SeenOrigin(t.observer, SeenAt(t, x)[0]);
    if x.ServerFrame? {
      TagOfReply(x.frame);
    }
  }

  lemma SeenOrigin(s: State, x: Runs.Seen)
    requires OthersIncomplete(s)
    requires Runs.Left(s, x).cycles != [] && Runs.Left(s, x).cycles[0].command != []
    ensures s.cycles != [] && (x.FromServer? ==> !x.reply.Ready?)
    ensures if x.FromServer? && x.reply.CommandComplete? then x.reply.tag.Some? else s.cycles[0].command != []
  {
    OthersIncompleteStep(s, x);
    match x {
      case FromClient(m, _) => Runs.ClientCycles(s, m);
      case FromServer(m) => if !m.Ready? { CommandStep(s, m); }
    }
  }

  lemma CommandStep(s: State, m: ServerMessage)
    requires !m.Ready?
    requires var s' := Runs.Left(s, Runs.FromServer(m)); s'.cycles != [] && s'.cycles[0].command != []
    ensures s.cycles != [] && (if m.CommandComplete? then m.tag.Some? else s.cycles[0].command != [])
  {
  }

  /** The scenario of matcher `q` fires at event `n` of an input and suppresses the frame. */
  predicate FiresWith(r: RelayState, i: Input, q: nat, n: nat, name: EventName) {
    var es := EventsAt(r, i);
    && q < |r.matchers| && n < |es| && es[n].name == name
    && Fires(Applied(r.matchers, es[..n])[q], es[n])
    && r.matchers[q].scenario.action.suppress == Some(true)
  }

  lemma {:induction false} AppliedKeepsUnfired(ms: seq<MatcherState>, es: seq<Event>, q: nat)
    requires q < |ms|
    ensures Applied(ms, es)[q].scenario == ms[q].scenario
    ensures !Applied(ms, es)[q].fired ==> !ms[q].fired
    decreases |es|
  {
    if es != [] {
      AppliedKeepsUnfired(ms, es[..|es| - 1], q);
    }
  }

  lemma {:induction false} MatchersStay(r: RelayState, inputs: seq<Input>)
    ensures |Relayed(r, inputs).matchers| == |r.matchers|
  {
    if inputs != [] {
      MatchersStay(r, inputs[..|inputs| - 1]);
      StepShape(Relayed(r, inputs[..|inputs| - 1]), inputs[|inputs| - 1]);
    }
  }

  /** A matcher unfired in the end was unfired before, and keeps its scenario. */
  predicate Keeps(before: seq<MatcherState>, after: seq<MatcherState>, q: nat) {
    && q < |before| && |after| == |before| && after[q].scenario == before[q].scenario
    && (!after[q].fired ==> !before[q].fired)
  }

  lemma KeepsStep(t: RelayState, i: Input, q: nat)
    requires q < |t.matchers|
    ensures Keeps(t.matchers, Step(t, i).matchers, q)
  {
    StepShape(t, i);
    AppliedKeepsUnfired(t.matchers, EventsAt(t, i), q);
  }

  lemma {:induction false} RunKeepsUnfired(r: RelayState, earlier: seq<Input>, inputs: seq<Input>, q: nat)
    requires earlier <= inputs && q < |r.matchers|
    ensures Keeps(Relayed(r, earlier).matchers, Relayed(r, inputs).matchers, q)
    decreases |inputs|
  {
    if |earlier| == |inputs| {
      assert earlier == inputs;
      MatchersStay(r, inputs);
    } else {
      var front := inputs[..|inputs| - 1];
      RunKeepsUnfired(r, earlier, front, q);
      KeepsStep(Relayed(r, front), inputs[|inputs| - 1], q);
    }
  }

  lemma {:induction false} FiredAmong(ms: seq<MatcherState>, es: seq<Event>, q: nat, n: nat)
    requires q < |ms| && n < |es| && Fires(Applied(ms, es[..n])[q], es[n])
    ensures Applied(ms, es[..n])[q].scenario in Fired(ms, es)
    decreases |es|
  {
    if n < |es| - 1 {
      assert es[..|es| - 1][..n] == es[..n];
      FiredAmong(ms, es[..|es| - 1], q, n);
    } else {
      Faults.WhoIsFiredOn(Applied(ms, es[..n]), es[n], q);
    }
  }

  lemma SuppressesIfIn(fired: seq<Scenario>, s: Scenario)
    requires s in fired && s.action.suppress == Some(true)
    ensures Suppresses(fired)
  {
  }

  /** A firing on a completion happens at a ReadyForQuery that announces it. */
  lemma FiresAtReady(r: RelayState, i: Input, q: nat, n: nat, name: EventName)
    requires Completion.Completes(name) && FiresWith(r, i, q, n, name)
    ensures r.ending == Running && i.ServerFrame? && i.frame.tag == UPPER_Z && r.observer.cycles != []
    ensures exists tx :: ReadServer(i.frame) == Ready(tx) && Verdict(r.observer, tx) == Some(name)
    ensures Suppresses(ServerFired(r, i.frame))
    ensures !r.matchers[q].fired && r.matchers[q].scenario.when.event == name
  {
    var x := SeenAt(r, i)[0];
    var es := EventsAt(r, i);
    Runs.StepShape(r.observer, x);
    Completion.OnlyReadyCompletes(r.observer, x, n);
    Completion.BeforeReady(r.observer, x.reply.tx);
    Completion.ReadyCompletes(r.observer, x.reply.tx, n);
    TagOfReply(i.frame);
    AppliedKeepsUnfired(r.matchers, es[..n], q);
    FiredAmong(r.matchers, es, q, n);
    SuppressesIfIn(ServerFired(r, i.frame), r.matchers[q].scenario);
  }

  lemma VerdictNamesItsCycle(t: RelayState, z: Input, n: nat)
    requires t.ending == Running && z.ServerFrame? && ReadServer(z.frame).Ready? && t.observer.cycles != []
    requires n < |EventsAt(t, z)|
    ensures EventsAt(t, z)[n].cycle == t.observer.cycles[0].id
  {
    Completion.BeforeReady(t.observer, ReadServer(z.frame).tx);
    Runs.StepShape(t.observer, SeenAt(t, z)[0]);
  }

  lemma VerdictNeedsCommand(s: State, tx: TxState, name: EventName)
    requires Completion.Completes(name) && Verdict(s, tx) == Some(name)
    ensures s.cycles != [] && s.cycles[0].command != []
    ensures name.CommitCompleted? ==> s.cycles[0].last.kind == Commit && s.cycles[0].command == COMMIT
    ensures name.RollbackCompleted? ==> s.cycles[0].last.kind == Rollback && s.cycles[0].command == ROLLBACK
  {
  }

  /** How the gate judged the completion behind such a firing. */
  predicate JudgedFor(s: RelayState, c: Input, name: EventName)
    requires CompletesAt(s, c)
  {
    && ReadServer(c.frame).tag != Some([])
    && (Boundary(s.observer, ReadServer(c.frame)) == Some(name) <==> Judges(ClassAt(s.observer), name))
    && (Judges(ClassAt(s.observer), name) ==> Gated(s, c.frame))
  }

  lemma FiringWasJudged(s: RelayState, c: Input, cleared: bool, t: RelayState, z: Input, q: nat, n: nat, name: EventName)
    requires Traced(s, c, cleared, t) && Completion.Completes(name) && FiresWith(t, z, q, n, name)
    requires Keeps(s.matchers, t.matchers, q)
    ensures JudgedFor(s, c, name)
  {
    FiresAtReady(t, z, q, n, name);
    var tx :| ReadServer(z.frame) == Ready(tx) && Verdict(t.observer, tx) == Some(name);
    var tag := ReadServer(c.frame).tag.value;
    VerdictWasJudged(s.observer, t.observer, tag, tx, name);
    assert Gates(s.matchers[q], name);
  }

  /** A suppressed ReadyForQuery drops what is held and writes nothing. */
  lemma DroppedAtReady(t: RelayState, f: Frame)
    requires t.ending == Running && f.tag == UPPER_Z && Suppresses(ServerFired(t, f))
    ensures OnServer(t, f).toClient == t.toClient
    ensures OnServer(t, f).ending == Running ==> OnServer(t, f).held == []
    ensures OnServer(t, f).clock == t.clock
  {
    NoteKeeps(t, Backend(t.observer, ReadServer(f)), BackendEvents(t.observer, ReadServer(f)));
  }

  /** After a ReadyForQuery that is suppressed, a frame is written if and only if it was before. */
  lemma DecidedAtReady(t: RelayState, z: Input, after: seq<Input>, at: nat)
    requires t.ending == Running && IsReady(z) && Suppresses(ServerFired(t, z.frame)) && Timely(t) && at < t.clock
    ensures Step(t, z).toClient == t.toClient
    ensures Kept(Relayed(Step(t, z), after), at) <==> Kept(t, at)
  {
    DroppedAtReady(t, z.frame);
    var t' := Step(t, z);
    if !Kept(t, at) {
      WrittenForGood(t', after, at);
    } else if t'.ending == Running {
      var a := LogShape(t, z);
      LogStepKeeps(t, t', a, at);
      DroppedForGood(t', after, at);
    } else {
      EndedForGood(t', after);
    }
  }

  lemma ConnectedFacts(id: nat, startup: Startup, scenarios: seq<Scenario>)
    ensures var r := Connected(id, startup, scenarios);
            Timely(r) && r.observer.cycles == [] && r.clock == 0 && |r.matchers| == |scenarios|
  {
  }

  lemma MiddleOf(r: RelayState, before: seq<Input>, z: Input, after: seq<Input>)
    ensures Relayed(r, before + [z]) == Step(Relayed(r, before), z)
    ensures Relayed(r, before + [z] + after) == Relayed(Step(Relayed(r, before), z), after)
  {
    assert (before + [z])[..|before|] == before;
    RelayedAppend(r, before + [z], after);
  }

  /** The completion behind a firing, found, and how it was judged. */
  lemma FindJudged(r: RelayState, before: seq<Input>, z: Input, q: nat, n: nat, name: EventName) returns (past: seq<Input>)
    requires Timely(r) && r.observer.cycles == []
    requires Completion.Completes(name) && FiresWith(Relayed(r, before), z, q, n, name)
    ensures LastCompletion(r, before, past) && past < before && CompletesAt(Relayed(r, past), before[|past|])
    ensures JudgedFor(Relayed(r, past), before[|past|], name)
    ensures EventsAt(Relayed(r, before), z)[n].cycle == Relayed(r, past).observer.cycles[0].id
  {
    var t := Relayed(r, before);
    FiresAtReady(t, z, q, n, name);
    var tx :| ReadServer(z.frame) == Ready(tx) && Verdict(t.observer, tx) == Some(name);
    VerdictNeedsCommand(t.observer, tx, name);
    VerdictNamesItsCycle(t, z, n);
    past := FindLastCompletion(r, before);
    LastCompletionIsLast(r, before, past);
    LastCompletionTraced(r, before, past, before[|past|], Relayed(r, past));
    MatchersStay(r, before);
    RunKeepsUnfired(r, past, before, q);
    FiringWasJudged(Relayed(r, past), before[|past|], Cleared(before, |past|), t, z, q, n, name);
  }

  /** The frame of `c`, which arrived in `s`, is not written in the end exactly when it was dropped at once, or
      was held and no malformed ReadyForQuery released it. If it was held throughout, nothing at all was
      written between its arrival and the verdict. */
  predicate GateOutcome(s: RelayState, c: Frame, cleared: bool, verdict: RelayState, final: RelayState) {
    && (Kept(final, s.clock) <==> Dropped(s, c) || (Shielded(s, c) && !cleared))
    && (!Dropped(s, c) && Shielded(s, c) && !cleared ==> verdict.toClient == s.toClient)
  }

  lemma OutcomeOfFiring(r: RelayState, before: seq<Input>, z: Input, after: seq<Input>, c: Input, cleared: bool,
                        s: RelayState, t: RelayState)
    requires Timely(r) && t == Relayed(r, before) && Traced(s, c, cleared, t)
    requires t.ending == Running && IsReady(z) && Suppresses(ServerFired(t, z.frame))
    ensures GateOutcome(s, c.frame, cleared, Relayed(r, before + [z]), Relayed(r, before + [z] + after))
  {
    TimelyRun(r, before);
    MiddleOf(r, before, z, after);
    DecidedAtReady(t, z, after, s.clock);
  }

  /** The last CommandComplete of the cycle that event `n` of `z` is about comes after the inputs `past`, at
      the moment with that number. */
  predicate Behind(r: RelayState, past: seq<Input>, before: seq<Input>, z: Input, n: nat) {
    && LastCompletion(r, before, past) && past < before && CompletesAt(Relayed(r, past), before[|past|])
    && Relayed(r, past).clock == |past| && Relayed(r, past).ending == Running && n < |EventsAt(Relayed(r, before), z)|
    && EventsAt(Relayed(r, before), z)[n].cycle == Relayed(r, past).observer.cycles[0].id
  }

  lemma GateExactFrom(r: RelayState, before: seq<Input>, t: RelayState, z: Input, after: seq<Input>, q: nat, n: nat,
                      name: EventName) returns (past: seq<Input>)
    requires Timely(r) && r.observer.cycles == [] && t == Relayed(r, before)
    requires Completion.Completes(name) && FiresWith(t, z, q, n, name)
    ensures LastCompletion(r, before, past) && past < before && CompletesAt(Relayed(r, past), before[|past|])
    ensures Relayed(r, past).ending == Running
    ensures EventsAt(t, z)[n].cycle == Relayed(r, past).observer.cycles[0].id
    ensures JudgedFor(Relayed(r, past), before[|past|], name)
    ensures GateOutcome(Relayed(r, past), before[|past|].frame, Cleared(before, |past|), Relayed(r, before + [z]),
                        Relayed(r, before + [z] + after))
  {
    past := FindJudged(r, before, z, q, n, name);
    FiresAtReady(t, z, q, n, name);
    LastCompletionTraced(r, before, past, before[|past|], Relayed(r, past));
    OutcomeOfFiring(r, before, z, after, before[|past|], Cleared(before, |past|), Relayed(r, past), t);
  }

  /** The gate, exactly, with nothing assumed about the server: on every run, when a suppressing scenario fires
      on a completed transaction, the last CommandComplete of that cycle was judged to lead there if and only
      if the class of the statement it answers is one the gate is for; then it was gated; and what became of
      it is decided by the gate, by what was held when it came, and by malformed ReadyForQuery messages. */
  lemma GateIsExact(id: nat, startup: Startup, scenarios: seq<Scenario>, before: seq<Input>, z: Input, after: seq<Input>,
                    q: nat, n: nat, name: EventName) returns (past: seq<Input>)
    requires Completion.Completes(name)
    requires FiresWith(Relayed(Connected(id, startup, scenarios), before), z, q, n, name)
    ensures Behind(Connected(id, startup, scenarios), past, before, z, n)
    ensures JudgedFor(Relayed(Connected(id, startup, scenarios), past), before[|past|], name)
    ensures var r := Connected(id, startup, scenarios);
            GateOutcome(Relayed(r, past), before[|past|].frame, Cleared(before, |past|), Relayed(r, before + [z]),
                        Relayed(r, before + [z] + after))
  {
    ConnectedFacts(id, startup, scenarios);
    past := GateExactFrom(Connected(id, startup, scenarios), before, Relayed(Connected(id, startup, scenarios), before), z, after, q, n, name);
    ClockCounts(Connected(id, startup, scenarios), past);
  }

  // ---- commits and rollbacks ---------------------------------------------------

  /** A PortalSuspended does not answer a commit or rollback. */
  predicate SuspensionOrderlyAt(r: RelayState, i: Input) {
    i.ServerFrame? && ReadServer(i.frame).PortalSuspended? && r.observer.cycles != [] && r.observer.cycles[0].statements != [] ==>
      !Completion.Ending(r.observer.cycles[0].statements[0].kind)
  }

  predicate SuspensionOrderly(r: RelayState, inputs: seq<Input>) {
    if inputs == [] then true
    else
      SuspensionOrderly(r, inputs[..|inputs| - 1]) &&
      SuspensionOrderlyAt(Relayed(r, inputs[..|inputs| - 1]), inputs[|inputs| - 1])
  }

  /** A commit or rollback cannot have slipped in since the completion. */
  predicate KindKept(t: State, kind: StatementClass) {
    t.cycles != [] && (Completion.Ending(t.cycles[0].last.kind) ==> t.cycles[0].last.kind == kind)
  }

  lemma KindStep(t: State, x: Runs.Seen, kind: StatementClass)
    requires KindKept(t, kind) && KeepsCompletion(x)
    requires x.FromServer? && x.reply.PortalSuspended? && t.cycles[0].statements != [] ==>
               !Completion.Ending(t.cycles[0].statements[0].kind)
    ensures KindKept(Runs.Left(t, x), kind)
  {
    if x.FromClient? {
      Runs.ClientCycles(t, x.request);
    }
  }

  lemma KindNext(t: RelayState, x: Input, kind: StatementClass)
    requires KindKept(t.observer, kind) && t.ending == Running && Within(x) && SuspensionOrderlyAt(t, x)
    ensures KindKept(Step(t, x).observer, kind)
  {
    ObserverLeft(t, x);
    WithinKeeps(t, x);
    KindStep(t.observer, SeenAt(t, x)[0], kind);
  }

  lemma KindBegins(s: RelayState, c: Input)
    requires CompletesAt(s, c) && s.ending == Running
    ensures KindKept(Step(s, c).observer, ClassAt(s.observer))
  {
    ObserverLeft(s, c);
    CompletionRecalled(s.observer, ReadServer(c.frame).tag.value);
  }

  lemma {:induction false} KindRemains(r: RelayState, inputs: seq<Input>, past: seq<Input>)
    requires LastCompletion(r, inputs, past) && Relayed(r, past).observer.cycles != []
    requires SuspensionOrderly(r, inputs) && Relayed(r, inputs).ending == Running
    ensures KindKept(Relayed(r, inputs).observer, ClassAt(Relayed(r, past).observer))
  {
    var front, x := inputs[..|inputs| - 1], inputs[|inputs| - 1];
    if past == front {
      KindBegins(Relayed(r, front), x);
    } else {
      KindRemains(r, front, past);
      KindNext(Relayed(r, front), x, ClassAt(Relayed(r, past).observer));
    }
  }

  /** Gate safety. On every run whose server never answers a commit or rollback by PortalSuspended: when a
      suppressing scenario fires on a completed commit (rollback), the last CommandComplete of that cycle
      answered one, was gated, and is never written to the client, at any time, unless a malformed
      ReadyForQuery came between the two. That is the only exception, and it always is one, but for a frame
      that another scenario had dropped itself. Otherwise nothing at all was written from its arrival to the
      verdict. */
  lemma SuppressedCompletionNeverLeaks(id: nat, startup: Startup, scenarios: seq<Scenario>, before: seq<Input>, z: Input,
                                       after: seq<Input>, q: nat, n: nat, k: StatementClass) returns (past: seq<Input>)
    requires Completion.Ending(k) && SuspensionOrderly(Connected(id, startup, scenarios), before)
    requires FiresWith(Relayed(Connected(id, startup, scenarios), before), z, q, n, Completion.DoneName(k))
    ensures Behind(Connected(id, startup, scenarios), past, before, z, n)
    ensures var r := Connected(id, startup, scenarios);
            EndingOutcome(Relayed(r, past), before[|past|].frame, k, Cleared(before, |past|), Relayed(r, before + [z]),
                          Relayed(r, before + [z] + after))
  {
    var r := Connected(id, startup, scenarios);
    past := GateIsExact(id, startup, scenarios, before, z, after, q, n, Completion.DoneName(k));
    LastAnswered(r, before, z, q, n, k, past);
    OutcomeOfEnding(Relayed(r, past), before[|past|], k, Cleared(before, |past|), Relayed(r, before + [z]),
                    Relayed(r, before + [z] + after));
  }

  lemma OutcomeOfEnding(s: RelayState, c: Input, k: StatementClass, cleared: bool, verdict: RelayState, final: RelayState)
    requires Completion.Ending(k) && CompletesAt(s, c) && ClassAt(s.observer) == k
    requires JudgedFor(s, c, Completion.DoneName(k)) && GateOutcome(s, c.frame, cleared, verdict, final)
    ensures EndingOutcome(s, c.frame, k, cleared, verdict, final)
  {
  }

  predicate WellFormedReadies(inputs: seq<Input>) {
    forall n :: 0 <= n < |inputs| && inputs[n].ServerFrame? ==> !ReadServer(inputs[n].frame).BadReady?
  }

  lemma NothingClears(r: RelayState, before: seq<Input>, past: seq<Input>)
    requires LastCompletion(r, before, past) && WellFormedReadies(before)
    ensures !Cleared(before, |past|)
  {
    LastCompletionIsLast(r, before, past);
    ClearedWhen(before, |past|);
    forall n | |past| < n < |before| && IsReady(before[n])
      ensures ReadServer(before[n].frame).BadReady?
    {
      TagOfReply(before[n].frame);
    }
  }

  /** The promise as it is made: with well-formed ReadyForQuery bodies the completion of a suppressed commit or
      rollback never reaches the client. */
  lemma OrderlyServerNeverLeaks(id: nat, startup: Startup, scenarios: seq<Scenario>, before: seq<Input>, z: Input,
                                after: seq<Input>, q: nat, n: nat, k: StatementClass) returns (past: seq<Input>)
    requires Completion.Ending(k) && SuspensionOrderly(Connected(id, startup, scenarios), before) && WellFormedReadies(before)
    requires FiresWith(Relayed(Connected(id, startup, scenarios), before), z, q, n, Completion.DoneName(k))
    ensures Behind(Connected(id, startup, scenarios), past, before, z, n)
    ensures Kept(Relayed(Connected(id, startup, scenarios), before + [z] + after), |past|)
  {
    past := SuppressedCompletionNeverLeaks(id, startup, scenarios, before, z, after, q, n, k);
    NothingClears(Connected(id, startup, scenarios), before, past);
  }

  predicate EndingOutcome(s: RelayState, c: Frame, k: StatementClass, cleared: bool, verdict: RelayState, final: RelayState) {
    && s.observer.cycles != [] && ClassAt(s.observer) == k && Gated(s, c)
    && (Kept(final, s.clock) <==> Dropped(s, c) || !cleared)
    && (!Dropped(s, c) && !cleared ==> verdict.toClient == s.toClient)
  }

  lemma LastAnswered(r: RelayState, before: seq<Input>, z: Input, q: nat, n: nat, k: StatementClass, past: seq<Input>)
    requires Completion.Ending(k) && SuspensionOrderly(r, before) && LastCompletion(r, before, past)
    requires FiresWith(Relayed(r, before), z, q, n, Completion.DoneName(k)) && Relayed(r, past).observer.cycles != []
    ensures ClassAt(Relayed(r, past).observer) == k
  {
    FiresAtReady(Relayed(r, before), z, q, n, Completion.DoneName(k));
    var tx :| ReadServer(z.frame) == Ready(tx) && Verdict(Relayed(r, before).observer, tx) == Some(Completion.DoneName(k));
    VerdictNeedsCommand(Relayed(r, before).observer, tx, Completion.DoneName(k));
    KindRemains(r, before, past);
  }

  // ---- a single scenario --------------------------------------------------------

  /** A scenario that has not fired in the end has fired nothing. */
  lemma NothingFiredBefore(ms: seq<MatcherState>, es: seq<Event>)
    requires |ms| == 1 && !Applied(ms, es)[0].fired
    ensures Fired(ms, es) == []
  {
    AppliedKeepsUnfired(ms, es, 0);
    Faults.FiredCounts(ms, es);
    assert ms[..0] == [] && Applied(ms, es)[..0] == [];
    assert Faults.FiredCount(Applied(ms, es)) == 0;
  }

  lemma NothingDropped(s: RelayState, c: Input)
    requires s.ending == Running && c.ServerFrame? && |s.matchers| == 1
    requires |Step(s, c).matchers| == 1 && !Step(s, c).matchers[0].fired
    ensures !Dropped(s, c.frame)
  {
    StepShape(s, c);
    NothingFiredBefore(s.matchers, EventsAt(s, c));
  }

  lemma StepAfter(r: RelayState, past: seq<Input>, c: Input)
    ensures Relayed(r, past + [c]) == Step(Relayed(r, past), c)
  {
    assert (past + [c])[..|past|] == past;
  }

  lemma NothingDroppedBefore(r: RelayState, past: seq<Input>, c: Input, before: seq<Input>, s: RelayState)
    requires past + [c] <= before && s == Relayed(r, past) && |s.matchers| == |r.matchers| == 1
    requires s.ending == Running && c.ServerFrame?
    requires |Relayed(r, before).matchers| == 1 && !Relayed(r, before).matchers[0].fired
    ensures !Dropped(s, c.frame)
  {
    StepAfter(r, past, c);
    RunKeepsUnfired(r, past + [c], before, 0);
    StepShape(s, c);
    NothingDropped(s, c);
  }

  /** With a single scenario the frame of `c`, which arrived in `s`, stays unwritten exactly when it answers a
      statement the gate is for, or others were held already, and no malformed ReadyForQuery came since. */
  predicate SingleOutcome(s: RelayState, name: EventName, cleared: bool, final: RelayState)
    requires s.observer.cycles != []
  {
    Kept(final, s.clock) <==> (Judges(ClassAt(s.observer), name) || s.held != []) && !cleared
  }

  lemma OutcomeOfSingle(s: RelayState, c: Input, name: EventName, cleared: bool, verdict: RelayState, final: RelayState)
    requires CompletesAt(s, c) && JudgedFor(s, c, name) && GateOutcome(s, c.frame, cleared, verdict, final)
    requires |s.matchers| == 1 && s.matchers[0].scenario.when.event == name && !Dropped(s, c.frame)
    ensures SingleOutcome(s, name, cleared, final)
  {
    assert Gated(s, c.frame) <==> Judges(ClassAt(s.observer), name);
  }

  /** With a single scenario, implicit completions included: the completion behind the firing reaches the
      client exactly when a malformed ReadyForQuery came after it, or the statement it answers is not one the
      gate is for and nothing was held already. */
  lemma SingleScenarioLeaksExactly(id: nat, startup: Startup, scenario: Scenario, before: seq<Input>, z: Input,
                                   after: seq<Input>, n: nat, name: EventName) returns (past: seq<Input>)
    requires Completion.Completes(name)
    requires FiresWith(Relayed(Connected(id, startup, [scenario]), before), z, 0, n, name)
    ensures Behind(Connected(id, startup, [scenario]), past, before, z, n)
    ensures var r := Connected(id, startup, [scenario]);
            SingleOutcome(Relayed(r, past), name, Cleared(before, |past|), Relayed(r, before + [z] + after))
  {
    ConnectedFacts(id, startup, [scenario]);
    past := SingleFrom(Connected(id, startup, [scenario]), before, Relayed(Connected(id, startup, [scenario]), before), z, after, n, name);
    ClockCounts(Connected(id, startup, [scenario]), past);
  }

  lemma SingleFrom(r: RelayState, before: seq<Input>, t: RelayState, z: Input, after: seq<Input>, n: nat, name: EventName)
    returns (past: seq<Input>)
    requires Timely(r) && r.observer.cycles == [] && |r.matchers| == 1 && t == Relayed(r, before)
    requires Completion.Completes(name) && FiresWith(t, z, 0, n, name)
    ensures LastCompletion(r, before, past) && past < before && CompletesAt(Relayed(r, past), before[|past|])
    ensures Relayed(r, past).ending == Running
    ensures EventsAt(t, z)[n].cycle == Relayed(r, past).observer.cycles[0].id
    ensures SingleOutcome(Relayed(r, past), name, Cleared(before, |past|), Relayed(r, before + [z] + after))
  {
    past := GateExactFrom(r, before, t, z, after, 0, n, name);
    PrefixNext(past, before);
    OutcomeIfSingle(r, before, t, z, past, before[|past|], Relayed(r, past), n, name, Cleared(before, |past|),
                    Relayed(r, before + [z]), Relayed(r, before + [z] + after));
  }

  lemma PrefixNext(past: seq<Input>, before: seq<Input>)
    requires past < before
    ensures past + [before[|past|]] <= before
  {
  }

  lemma OutcomeIfSingle(r: RelayState, before: seq<Input>, t: RelayState, z: Input, past: seq<Input>, c: Input, s: RelayState,
                        n: nat, name: EventName, cleared: bool, verdict: RelayState, final: RelayState)
    requires |r.matchers| == 1 && Completion.Completes(name) && t == Relayed(r, before) && FiresWith(t, z, 0, n, name)
    requires past + [c] <= before && s == Relayed(r, past) && s.ending == Running
    requires CompletesAt(s, c) && JudgedFor(s, c, name) && GateOutcome(s, c.frame, cleared, verdict, final)
    ensures SingleOutcome(s, name, cleared, final)
  {
    SingleScenarioFacts(r, before, t, z, past, c, n, name);
    OutcomeOfSingle(s, c, name, cleared, verdict, final);
  }

  lemma SingleScenarioFacts(r: RelayState, before: seq<Input>, t: RelayState, z: Input, past: seq<Input>, c: Input, n: nat,
                            name: EventName)
    requires |r.matchers| == 1 && Completion.Completes(name) && t == Relayed(r, before) && FiresWith(t, z, 0, n, name)
    requires past + [c] <= before && c.ServerFrame? && Relayed(r, past).ending == Running
    ensures var s := Relayed(r, past);
            |s.matchers| == 1 && s.matchers[0].scenario.when.event == name && !Dropped(s, c.frame)
  {
    FiresAtReady(t, z, 0, n, name);
    MatchersStay(r, before);
    RunKeepsUnfired(r, past, before, 0);
    NothingDroppedBefore(r, past, c, before, Relayed(r, past));
  }

  // ---- until the next ReadyForQuery ----------------------------------------------

  /** Whatever fires later: from the arrival of a gated frame until the next ReadyForQuery nothing is written
      to the client. */
  lemma {:induction false} GateHolds(r: RelayState, f: Frame, inputs: seq<Input>)
    requires r.ending == Running && f.tag != UPPER_Z && Gated(r, f) && !Dropped(r, f)
    requires forall n :: 0 <= n < |inputs| ==> !IsReady(inputs[n])
    requires Relayed(Step(r, ServerFrame(f)), inputs).ending == Running
    ensures var t := Relayed(Step(r, ServerFrame(f)), inputs); t.held != [] && t.toClient == r.toClient
  {
    var s := Step(r, ServerFrame(f));
    if inputs == [] {
      ServerWire(r, f);
    } else {
      var front := inputs[..|inputs| - 1];
      GateHolds(r, f, front);
      HeldStays(Relayed(s, front), inputs[|inputs| - 1]);
    }
  }
}
