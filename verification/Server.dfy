/** A conforming PostgreSQL server, after sections 55.2.2 to 55.2.4 and 55.7 of the PostgreSQL 16
    documentation: requests are answered in order, an error skips to the next Sync, and each simple query and
    each Sync gets one ReadyForQuery. */
module Servers {
  import opened Events
  import opened Observer

  /** A client message, with what the observer noted about it when it was sent. */
  datatype Request = Request(message: ClientMessage, statement: Statement, mutations: seq<Mutation>)

  /** The requests that one ReadyForQuery answers: a simple query, or extended messages up to a Sync. `todo`
      holds those still to be answered, `tracked` tells whether any of them takes part in a request cycle, and
      `empties` counts the Executes answered by EmptyQueryResponse. */
  datatype Group = Group(simple: bool, sealed: bool, tracked: bool, failed: bool, todo: seq<Request>, empties: nat)

  const NO_GROUP: Group := Group(false, false, false, false, [], 0)

  datatype Server = Server(starting: bool, groups: seq<Group>)

  const STARTED: Server := Server(true, [])

  function Noted(s: State, m: ClientMessage): Request {
    Request(m, Requested(s, m), Pending(s, m))
  }

  /** The client has not yet ended its last group. */
  predicate Open(v: Server) {
    v.groups != [] && !v.groups[|v.groups| - 1].sealed
  }

  /** The extended messages a group consists of, its Sync aside. */
  predicate Extended(m: ClientMessage) {
    m.Parse? || m.Bind? || m.Close? || m.Describe? || m.Execute? || m.Malformed?
  }

  /** What the client may send: nothing but authentication before the first ReadyForQuery, no FunctionCall or
      COPY data after it, and a Sync before the next simple query. */
  predicate MayAsk(v: Server, m: ClientMessage) {
    match m
    case OtherRequest => v.starting
    case Terminate => false
    case Query(_) => !v.starting && !Open(v)
    case _ => !v.starting
  }

  function Add(g: Group, q: Request): Group {
    g.(sealed := q.message.Sync?,
       tracked := g.tracked || Opens(q.message),
       todo := if g.failed && !q.message.Sync? then g.todo else g.todo + [q])
  }

  /** The group that an extended message joins. */
  function Latest(v: Server): Group {
    if Open(v) then v.groups[|v.groups| - 1] else NO_GROUP
  }

  /** The server receives a request; after an error it will skip what is not a Sync. */
  function Take(v: Server, q: Request): Server {
    if q.message.Query? then v.(groups := v.groups + [Group(true, true, true, false, [q], 0)])
    else if !Extended(q.message) && !q.message.Sync? then v
    else v.(groups := (if Open(v) then v.groups[..|v.groups| - 1] else v.groups) + [Add(Latest(v), q)])
  }

  /** Messages a server may send at any time. */
  predicate Async(m: ServerMessage) {
    m.ParameterStatus? || m.OtherReply?
  }

  /** A reply that fits a request. */
  predicate Answers(asked: ClientMessage, m: ServerMessage) {
    match asked
    case Parse(_, _) => m.ParseComplete? || m.ErrorResponse?
    case Bind(_, _) => m.BindComplete? || m.ErrorResponse?
    case Close(_, _) => m.CloseComplete? || m.ErrorResponse?
    case Describe => m.RowDescription? || m.NoData? || m.ErrorResponse?
    case Execute(_) => m.DataRow? || m.CommandComplete? || m.PortalSuspended? || m.EmptyQuery? || m.ErrorResponse?
    case Malformed => m.ErrorResponse?
    case Sync => m.ErrorResponse? || m.Ready?
    case Query(_) =>
      m.RowDescription? || m.DataRow? || m.CommandComplete? || m.EmptyQuery? || m.ErrorResponse? || m.Ready?
    case _ => false
  }

  /** The server is answering its oldest request. */
  predicate Busy(v: Server) {
    !v.starting && v.groups != [] && v.groups[0].todo != []
  }

  predicate MayReply(v: Server, m: ServerMessage) {
    Async(m) || (v.starting && m.Ready?) || (Busy(v) && Answers(v.groups[0].todo[0].message, m))
  }

  /** What follows the failed request in its group is skipped, up to the Sync. */
  function Fail(g: Group): Group {
    g.(failed := true, todo := if g.sealed && g.todo != [] then g.todo[|g.todo| - 1..] else [])
  }

  function Progress(g: Group, m: ServerMessage): Group {
    if g.todo == [] || g.simple || m.DataRow? || g.todo[0].message.Sync? then g
    else if m.ErrorResponse? then Fail(g)
    else g.(todo := g.todo[1..], empties := if m.EmptyQuery? then g.empties + 1 else g.empties)
  }

  /** The server sends a reply. */
  function Give(v: Server, m: ServerMessage): Server {
    if Async(m) then v
    else if v.starting || v.groups == [] then v.(starting := false)
    else if m.Ready? then v.(groups := v.groups[1..])
    else v.(groups := [Progress(v.groups[0], m)] + v.groups[1..])
  }

  // ---- the server answers in order ------------------------------------------

  /** Everything the server still has to answer, oldest first. */
  function Unanswered(gs: seq<Group>): seq<Request> {
    if gs == [] then [] else Unanswered(gs[..|gs| - 1]) + gs[|gs| - 1].todo
  }

  lemma {:induction false} UnansweredFirst(gs: seq<Group>)
    requires gs != []
    ensures Unanswered(gs) == gs[0].todo + Unanswered(gs[1..])
  {
    if |gs| == 1 {
      assert gs[..0] == [] && gs[1..] == [];
    } else {
      UnansweredFirst(gs[..|gs| - 1]);
      assert gs[..|gs| - 1][1..] == gs[1..][..|gs| - 2];
    }
  }

  /** A request joins the end of the queue, or is skipped with the rest of a failed group. */
  lemma TakeIsInOrder(v: Server, q: Request)
    requires q.message.Query? || q.message.Sync? || Extended(q.message)
    requires Open(v) ==> !q.message.Query?
    ensures Unanswered(Take(v, q).groups) == Unanswered(v.groups) + [q] ||
            (Open(v) && v.groups[|v.groups| - 1].failed && !q.message.Sync? && Unanswered(Take(v, q).groups) == Unanswered(v.groups))
  {
    var gs, gs' := v.groups, Take(v, q).groups;
    if Open(v) {
      assert gs'[..|gs'| - 1] == gs[..|gs| - 1];
    } else {
      assert gs'[..|gs'| - 1] == gs;
    }
  }

  // ---- what the groups look like ----------------------------------------------

  /** What the observer notes: one mutation for each Parse and Close, at most one for a Bind. */
  predicate WellNoted(q: Request) {
    match q.message
    case Parse(_, _) => |q.mutations| == 1 && q.mutations[0].ParseOf?
    case Close(_, _) => |q.mutations| == 1 && q.mutations[0].CloseOf?
    case Bind(_, _) => |q.mutations| <= 1 && (q.mutations != [] ==> q.mutations[0].BindOf?)
    case _ => q.mutations == []
  }

  predicate WellFormed(g: Group) {
    && (forall j :: 0 <= j < |g.todo| ==> WellNoted(g.todo[j]))
    && (g.sealed ==> g.tracked && g.todo != [])
    && (!g.tracked ==> g.empties == 0)
    && if g.simple then g.sealed && !g.failed && |g.todo| == 1 && g.todo[0].message.Query?
       else
         var n := if g.sealed then |g.todo| - 1 else |g.todo|;
         && (g.sealed ==> g.todo[n].message.Sync?)
         && (forall j :: 0 <= j < n ==> Extended(g.todo[j].message))
         && (g.failed ==> n == 0)
         && (!g.tracked ==> forall j :: 0 <= j < n ==> g.todo[j].message.Describe?)
  }

  /** Only the last group may be unfinished, only the first may have failed. */
  predicate Orderly(v: Server) {
    && (v.starting ==> v.groups == [])
    && (forall i :: 0 <= i < |v.groups| ==> WellFormed(v.groups[i]))
    && (forall i :: 0 <= i < |v.groups| - 1 ==> v.groups[i].sealed)
    && (forall i :: 1 <= i < |v.groups| ==> !v.groups[i].failed)
  }

  lemma AddWellFormed(g: Group, q: Request)
    requires WellFormed(g) && !g.sealed && WellNoted(q) && (Extended(q.message) || q.message.Sync?)
    ensures WellFormed(Add(g, q))
  {
  }

  lemma TakeOrderly(v: Server, q: Request)
    requires Orderly(v) && WellNoted(q) && MayAsk(v, q.message)
    ensures Orderly(Take(v, q))
  {
    if Extended(q.message) || q.message.Sync? {
      AddWellFormed(Latest(v), q);
    }
  }

  lemma ProgressWellFormed(g: Group, m: ServerMessage)
    requires WellFormed(g) && g.todo != [] && Answers(g.todo[0].message, m) && !m.Ready?
    ensures WellFormed(Progress(g, m)) && Progress(g, m).sealed == g.sealed && Progress(g, m).tracked == g.tracked
  {
  }

  lemma GiveOrderly(v: Server, m: ServerMessage)
    requires Orderly(v) && MayReply(v, m)
    ensures Orderly(Give(v, m))
  {
    if !Async(m) && !v.starting && !m.Ready? {
      ProgressWellFormed(v.groups[0], m);
    }
  }

  lemma NotedWell(s: State, m: ClientMessage)
    ensures WellNoted(Noted(s, m))
  {
  }

  lemma ProgressDrops(g: Group, m: ServerMessage) returns (n: nat)
    ensures n <= |g.todo| && Progress(g, m).todo == g.todo[n..]
    ensures n > 1 ==> m.ErrorResponse?
  {
    n := |g.todo| - |Progress(g, m).todo|;
  }

  /** A reply finishes at most the request at the head of the queue; only an error skips more. */
  lemma GiveIsInOrder(v: Server, m: ServerMessage) returns (n: nat)
    requires Orderly(v) && MayReply(v, m)
    ensures n <= |Unanswered(v.groups)| && Unanswered(Give(v, m).groups) == Unanswered(v.groups)[n..]
    ensures n > 1 ==> m.ErrorResponse?
  {
    n := 0;
    if !Async(m) && !v.starting {
      var gs := v.groups;
      if m.Ready? {
        ReadyIsLast(gs[0]);
        UnansweredFirst(gs);
        n := 1;
      } else {
        n := ProgressDrops(gs[0], m);
        FirstDrops(gs, Progress(gs[0], m), n);
      }
    }
  }

  lemma ReadyIsLast(g: Group)
    requires WellFormed(g) && g.todo != [] && (g.todo[0].message.Query? || g.todo[0].message.Sync?)
    ensures |g.todo| == 1
  {
  }

  lemma FirstDrops(gs: seq<Group>, g: Group, n: nat)
    requires gs != [] && n <= |gs[0].todo| && g.todo == gs[0].todo[n..]
    ensures n <= |Unanswered(gs)| && Unanswered([g] + gs[1..]) == Unanswered(gs)[n..]
  {
    UnansweredFirst(gs);
    UnansweredFirst([g] + gs[1..]);
    assert ([g] + gs[1..])[1..] == gs[1..];
  }
}
