/** The life of the server's connections across its loops (TcpServer.cpp, TcpConnection.cpp):
    the base loop accepts and removes, each connection's own loop establishes and destroys. */
module Lifecycles {
  import opened ConnStates
  import opened Numbers

  type LoopId = nat
  type ConnId = nat

  const BASE: LoopId := 0

  /** A connection: its loop, its state, and how often its `handleClose` has run.  Its id is
      the number in its name. */
  datatype Conn = Conn(loop: LoopId, state: ConnState, closes: nat)

  /** The functors that the life of a connection puts into the loops' queues. */
  datatype Task = Establish(c: ConnId) | Remove(c: ConnId) | Destroy(c: ConnId) | ForceCloseInLoop(c: ConnId)

  /** `queues[l]` is what loop `l` still has to run, in order; `log` is the history of
      `connEstablished`, `removeConnectionInLoop` and `connDestroyed`.  `failed` is set, and
      the system stops, when an assertion of the source fails. */
  datatype State = State(
    nextConnId: ConnId,
    conns: map<ConnId, Conn>,
    connections: set<ConnId>,
    queues: map<LoopId, seq<Task>>,
    log: seq<Task>,
    failed: bool)

  const INIT: State := State(1, map[], {}, map[], [], false)

  datatype Event =
    | NewConnection(loop: LoopId)
    | Shutdown(c: ConnId)
    | ForceClose(c: ConnId)
    | CloseEvent(c: ConnId)
    | RunTask(loop: LoopId)

  function Queue(s: State, l: LoopId): seq<Task> { if l in s.queues then s.queues[l] else [] }

  function Push(s: State, l: LoopId, t: Task): State { s.(queues := s.queues[l := Queue(s, l) + [t]]) }

  function Pop(s: State, l: LoopId): State
    requires Queue(s, l) != []
  {
    s.(queues := s.queues[l := Queue(s, l)[1..]])
  }

  function Record(s: State, t: Task): State { s.(log := s.log + [t]) }

  function Closed(s: State, c: ConnId): State
    requires c in s.conns
  {
    s.(conns := s.conns[c := s.conns[c].(closes := s.conns[c].closes + 1)])
  }

  function Erased(s: State, c: ConnId): State { s.(connections := s.connections - {c}) }

  function SetState(s: State, c: ConnId, st: ConnState): State
    requires c in s.conns
  {
    s.(conns := s.conns[c := s.conns[c].(state := st)])
  }

  function ConnEstablished(s: State, c: ConnId): State
    requires c in s.conns
  {
    if !s.conns[c].state.Connecting? then s.(failed := true)
    else Record(SetState(s, c, Connected), Establish(c))
  }

  function ConnDestroyed(s: State, c: ConnId): State
    requires c in s.conns
  {
    if !Up(s.conns[c].state) then s.(failed := true)
    else Record(SetState(s, c, Disconnected), Destroy(c))
  }

  /** `removeConnectionInLoop`: the erase must remove one entry. */
  function RemoveInLoop(s: State, c: ConnId): State
    requires c in s.conns
  {
    if c !in s.connections then s.(failed := true)
    else Push(Record(Erased(s, c), Remove(c)), s.conns[c].loop, Destroy(c))
  }

  /** `handleClose`, and `removeConnection` through the close callback: on the base loop's
      own thread the removal runs at once. */
  function HandleClose(s: State, c: ConnId): State
    requires c in s.conns
  {
    if !Up(s.conns[c].state) then s.(failed := true)
    else
      var n := Closed(s, c);
      if s.conns[c].loop == BASE then RemoveInLoop(n, c) else Push(n, BASE, Remove(c))
  }

  function Added(s: State, l: LoopId): State {
    var c := s.nextConnId;
    s.(nextConnId := c + 1, conns := s.conns[c := Conn(l, Connecting, 0)], connections := s.connections + {c})
  }

  /** `newConnection`: file the new connection, and establish it on its own loop. */
  function NewConn(s: State, l: LoopId): State {
    var c := s.nextConnId;
    if l == BASE then ConnEstablished(Added(s, l), c) else Push(Added(s, l), l, Establish(c))
  }

  predicate Enabled(s: State, e: Event) {
    match e
    case NewConnection(_) => true
    case Shutdown(c) => c in s.conns
    case ForceClose(c) => c in s.conns
    case CloseEvent(c) => c in s.conns && Up(s.conns[c].state)
    case RunTask(l) => Queue(s, l) != [] && Queue(s, l)[0].c in s.conns
  }

  function RunHead(s: State, l: LoopId): State
    requires Enabled(s, RunTask(l))
  {
    var t := Queue(s, l)[0];
    var n := Pop(s, l);
    match t
    case Establish(c) => ConnEstablished(n, c)
    case Remove(c) => RemoveInLoop(n, c)
    case Destroy(c) => ConnDestroyed(n, c)
    case ForceCloseInLoop(c) => if Up(n.conns[c].state) then HandleClose(n, c) else n
  }

  function Step(s: State, e: Event): State {
    if s.failed || !Enabled(s, e) then s
    else
      match e
      case NewConnection(l) => NewConn(s, l)
      case Shutdown(c) => if s.conns[c].state.Connected? then SetState(s, c, Disconnecting) else s
      case ForceClose(c) =>
        if Up(s.conns[c].state) then Push(SetState(s, c, Disconnecting), s.conns[c].loop, ForceCloseInLoop(c)) else s
      case CloseEvent(c) => HandleClose(s, c)
      case RunTask(l) => RunHead(s, l)
  }

  function Run(es: seq<Event>): State {
    if es == [] then INIT else Step(Run(es[..|es| - 1]), es[|es| - 1])
  }

  // ----- Counting functors -----

  function Count(q: seq<Task>, t: Task): nat {
    if q == [] then 0 else Count(q[..|q| - 1], t) + One(q[|q| - 1] == t)
  }

  function Waiting(s: State, l: LoopId, t: Task): nat { Count(Queue(s, l), t) }

  function Done(s: State, t: Task): nat { Count(s.log, t) }

  lemma CountSnoc(q: seq<Task>, t: Task, u: Task)
    ensures Count(q + [t], u) == Count(q, u) + One(u == t)
  {
    assert (q + [t])[..|q|] == q;
  }

  lemma {:induction false} CountFront(q: seq<Task>, u: Task)
    requires q != []
    ensures Count(q, u) == One(q[0] == u) + Count(q[1..], u)
  {
    if |q| > 1 {
      CountFront(q[..|q| - 1], u);
      assert q[..|q| - 1][1..] == q[1..][..|q| - 2];
    }
  }

  lemma {:induction false} CountNone(q: seq<Task>, u: Task)
    ensures Count(q, u) == 0 <==> u !in q
  {
    if q != [] {
      CountNone(q[..|q| - 1], u);
      assert q == q[..|q| - 1] + [q[|q| - 1]];
    }
  }

  lemma PushCounts(s: State, l: LoopId, t: Task)
    ensures forall m, u :: Waiting(Push(s, l, t), m, u) == Waiting(s, m, u) + One(m == l && u == t)
  {
    forall m, u ensures Waiting(Push(s, l, t), m, u) == Waiting(s, m, u) + One(m == l && u == t) {
      CountSnoc(Queue(s, l), t, u);
    }
  }

  lemma PopCounts(s: State, l: LoopId)
    requires Queue(s, l) != []
    ensures forall m, u :: Waiting(s, m, u) == Waiting(Pop(s, l), m, u) + One(m == l && u == Queue(s, l)[0])
  {
    forall m, u ensures Waiting(s, m, u) == Waiting(Pop(s, l), m, u) + One(m == l && u == Queue(s, l)[0]) {
      CountFront(Queue(s, l), u);
    }
  }

  lemma RecordCounts(s: State, t: Task)
    ensures forall u :: Done(Record(s, t), u) == Done(s, u) + One(u == t)
  {
    forall u ensures Done(Record(s, t), u) == Done(s, u) + One(u == t) {
      CountSnoc(s.log, t, u);
    }
  }

  // ----- Invariants -----

  /** Every functor waits on the loop it belongs to. */
  ghost predicate WellPlaced(s: State) {
    forall l, t :: t in Queue(s, l) ==>
      t.c in s.conns && l == (if t.Remove? then BASE else s.conns[t.c].loop)
  }

  /** What a connection's books are about: its record, whether it is in the map, and how
      often each of its functors waits and has been done. */
  datatype Book = Book(k: Conn, inMap: bool, wE: nat, dE: nat, wR: nat, dR: nat, wD: nat, dD: nat)

  function BookOf(s: State, c: ConnId): Book
    requires c in s.conns
  {
    var l := s.conns[c].loop;
    Book(s.conns[c], c in s.connections,
         Waiting(s, l, Establish(c)), Done(s, Establish(c)),
         Waiting(s, BASE, Remove(c)), Done(s, Remove(c)),
         Waiting(s, l, Destroy(c)), Done(s, Destroy(c)))
  }

  /** A `Remove` is waiting for every close but the one that took the connection out of the
      map; `Destroy` follows that one. */
  predicate Balanced(b: Book) {
    var out := One(!b.inMap);
    && b.wE == One(b.k.state.Connecting?) && b.dE == One(!b.k.state.Connecting?)
    && (b.k.state.Connecting? ==> b.k.closes == 0)
    && b.k.closes == b.wR + out && b.dR == out
    && b.wD + b.dD == out && b.dD == One(b.k.state.Disconnected?)
  }

  ghost predicate Books(s: State) {
    && WellPlaced(s)
    && (forall c :: c in s.connections ==> c in s.conns)
    && (forall c :: c in s.conns ==> c < s.nextConnId && Balanced(BookOf(s, c)))
    && (forall t :: t in s.log ==> t.c < s.nextConnId)
  }

  ghost predicate ClosedTwice(s: State) { exists c :: c in s.conns && s.conns[c].closes >= 2 }

  ghost predicate Inv(s: State) { if s.failed then ClosedTwice(s) else Books(s) }

  /** No book but that of `c` differs. */
  ghost predicate OthersSame(s: State, r: State, c: ConnId) {
    && s.nextConnId <= r.nextConnId && s.failed == r.failed
    && (forall x :: x != c ==> (x in r.conns <==> x in s.conns) && (x in r.connections <==> x in s.connections))
    && (forall x :: x != c && x in s.conns ==> BookOf(r, x) == BookOf(s, x))
  }

  lemma PushOthers(s: State, l: LoopId, t: Task)
    ensures OthersSame(s, Push(s, l, t), t.c)
  {
    hide Waiting, Count, Queue;
    PushCounts(s, l, t);
  }

  lemma PopOthers(s: State, l: LoopId)
    requires Queue(s, l) != []
    ensures OthersSame(s, Pop(s, l), Queue(s, l)[0].c)
  {
    hide Waiting, Count, Queue;
    PopCounts(s, l);
  }

  lemma RecordOthers(s: State, t: Task)
    ensures OthersSame(s, Record(s, t), t.c)
  {
    hide Done, Count;
    RecordCounts(s, t);
  }

  /** The books of everyone but `c`, and what holds whatever the books say. */
  ghost predicate BooksBut(s: State, c: ConnId) {
    && !s.failed && WellPlaced(s)
    && (forall x :: x in s.connections ==> x in s.conns)
    && (forall x :: x in s.conns ==> x < s.nextConnId && (x != c ==> Balanced(BookOf(s, x))))
    && (forall t :: t in s.log ==> t.c < s.nextConnId)
  }

  lemma BooksButFrame(s: State, r: State, c: ConnId)
    requires BooksBut(s, c) && OthersSame(s, r, c) && WellPlaced(r)
    requires c in r.connections ==> c in r.conns
    requires c in r.conns ==> c < r.nextConnId
    requires forall t :: t in r.log ==> t in s.log || t.c == c
    requires c in r.conns || r.log == s.log
    ensures BooksBut(r, c)
  {
  }

  /** The book with one more waiting, or one more done, of the kind of `t`. */
  function Owing(b: Book, t: Task): Book {
    match t
    case Establish(_) => b.(wE := b.wE + 1)
    case Remove(_) => b.(wR := b.wR + 1)
    case Destroy(_) => b.(wD := b.wD + 1)
    case ForceCloseInLoop(_) => b
  }

  function Entered(b: Book, t: Task): Book {
    match t
    case Establish(_) => b.(dE := b.dE + 1)
    case Remove(_) => b.(dR := b.dR + 1)
    case Destroy(_) => b.(dD := b.dD + 1)
    case ForceCloseInLoop(_) => b
  }

  predicate Place(s: State, l: LoopId, t: Task) {
    t.c in s.conns && l == (if t.Remove? then BASE else s.conns[t.c].loop)
  }

  lemma PushBook(s: State, l: LoopId, t: Task)
    requires Place(s, l, t)
    ensures BookOf(Push(s, l, t), t.c) == Owing(BookOf(s, t.c), t)
  {
    hide Waiting, Count, Queue;
    PushCounts(s, l, t);
  }

  lemma PushPlaced(s: State, l: LoopId, t: Task)
    requires WellPlaced(s) && Place(s, l, t)
    ensures WellPlaced(Push(s, l, t))
  {
    assert forall m :: m != l ==> Queue(Push(s, l, t), m) == Queue(s, m);
  }

  lemma PushKeeps(s: State, l: LoopId, t: Task)
    requires BooksBut(s, t.c) && Place(s, l, t)
    ensures BooksBut(Push(s, l, t), t.c)
  {
    PushPlaced(s, l, t);
    PushOthers(s, l, t);
    BooksButFrame(s, Push(s, l, t), t.c);
  }

  lemma PopBook(s: State, l: LoopId)
    requires Queue(s, l) != [] && Place(s, l, Queue(s, l)[0])
    ensures var t := Queue(s, l)[0]; BookOf(s, t.c) == Owing(BookOf(Pop(s, l), t.c), t)
  {
    hide Waiting, Count, Queue;
    PopCounts(s, l);
  }

  lemma PopPlaced(s: State, l: LoopId)
    requires WellPlaced(s) && Queue(s, l) != []
    ensures WellPlaced(Pop(s, l)) && Place(s, l, Queue(s, l)[0])
  {
    assert Queue(s, l)[0] in Queue(s, l);
    assert forall m :: m != l ==> Queue(Pop(s, l), m) == Queue(s, m);
  }

  lemma PopKeeps(s: State, l: LoopId)
    requires Books(s) && !s.failed && Queue(s, l) != []
    ensures Place(s, l, Queue(s, l)[0]) && BooksBut(Pop(s, l), Queue(s, l)[0].c)
  {
    PopPlaced(s, l);
    PopOthers(s, l);
    BooksButFrame(s, Pop(s, l), Queue(s, l)[0].c);
  }

  lemma RecordBook(s: State, t: Task)
    requires t.c in s.conns
    ensures BookOf(Record(s, t), t.c) == Entered(BookOf(s, t.c), t)
  {
    hide Done, Count;
    RecordCounts(s, t);
    assert forall m :: Queue(Record(s, t), m) == Queue(s, m);
  }

  /** Every functor keeps its place while no queue, no loop and no connection goes away. */
  lemma SamePlaces(s: State, r: State)
    requires WellPlaced(s) && r.queues == s.queues
    requires forall x :: x in s.conns ==> x in r.conns && r.conns[x].loop == s.conns[x].loop
    ensures WellPlaced(r)
  {
    forall l, t | t in Queue(r, l) ensures Place(r, l, t) {
      assert t in Queue(s, l);
    }
  }

  lemma RecordKeeps(s: State, t: Task)
    requires BooksBut(s, t.c) && t.c in s.conns
    ensures BooksBut(Record(s, t), t.c)
  {
    RecordOthers(s, t);
    SamePlaces(s, Record(s, t));
    BooksButFrame(s, Record(s, t), t.c);
  }

  /** Neither the queues nor the log change, and of the records at most that of `c`. */
  lemma RestKeeps(s: State, r: State, c: ConnId)
    requires BooksBut(s, c) && c in s.conns && c in r.conns && r.conns[c].loop == s.conns[c].loop
    requires r == s.(conns := s.conns[c := r.conns[c]], connections := r.connections)
    requires r.connections == s.connections || r.connections == s.connections - {c}
    ensures BooksBut(r, c)
    ensures BookOf(r, c) == BookOf(s, c).(k := r.conns[c], inMap := c in r.connections)
  {
    RestBook(s, r, c);
    RestOthers(s, r, c);
    SamePlaces(s, r);
    BooksButFrame(s, r, c);
  }

  lemma RestBook(s: State, r: State, c: ConnId)
    requires c in s.conns && c in r.conns && r.conns[c].loop == s.conns[c].loop
    requires r.queues == s.queues && r.log == s.log
    ensures BookOf(r, c) == BookOf(s, c).(k := r.conns[c], inMap := c in r.connections)
  {
    assert forall m :: Queue(r, m) == Queue(s, m);
  }

  lemma RestOthers(s: State, r: State, c: ConnId)
    requires c in s.conns && c in r.conns
    requires r == s.(conns := s.conns[c := r.conns[c]], connections := r.connections)
    requires r.connections == s.connections || r.connections == s.connections - {c}
    ensures OthersSame(s, r, c)
  {
    assert forall m :: Queue(r, m) == Queue(s, m);
  }

  // ----- What every step keeps -----

  lemma CloseBooks(s: State, c: ConnId)
    requires BooksBut(s, c) && c in s.conns && Balanced(BookOf(s, c))
    ensures Books(s) && !s.failed
  {
  }

  lemma OpenBooks(s: State, c: ConnId)
    requires Books(s) && !s.failed && c in s.conns
    ensures BooksBut(s, c) && Balanced(BookOf(s, c))
    ensures BookOf(s, c).k == s.conns[c] && BookOf(s, c).inMap == (c in s.connections)
  {
  }

  lemma EstablishKeeps(s: State, c: ConnId)
    requires BooksBut(s, c) && c in s.conns && Balanced(Owing(BookOf(s, c), Establish(c)))
    ensures !ConnEstablished(s, c).failed && Books(ConnEstablished(s, c))
  {
    var n := SetState(s, c, Connected);
    hide BooksBut, BookOf, Books;
    RestKeeps(s, n, c);
    RecordKeeps(n, Establish(c));
    RecordBook(n, Establish(c));
    CloseBooks(Record(n, Establish(c)), c);
  }

  lemma DestroyKeeps(s: State, c: ConnId)
    requires BooksBut(s, c) && c in s.conns && Balanced(Owing(BookOf(s, c), Destroy(c)))
    ensures !ConnDestroyed(s, c).failed && Books(ConnDestroyed(s, c))
  {
    var n := SetState(s, c, Disconnected);
    hide BooksBut, BookOf, Books;
    RestKeeps(s, n, c);
    RecordKeeps(n, Destroy(c));
    RecordBook(n, Destroy(c));
    CloseBooks(Record(n, Destroy(c)), c);
  }

  lemma ErasedKeeps(s: State, c: ConnId)
    requires BooksBut(s, c) && c in s.conns
    ensures var m := Record(Erased(s, c), Remove(c));
            BooksBut(m, c) && BookOf(m, c) == Entered(BookOf(s, c).(inMap := false), Remove(c))
  {
    RestKeeps(s, Erased(s, c), c);
    hide BooksBut, BookOf;
    RecordKeeps(Erased(s, c), Remove(c));
    RecordBook(Erased(s, c), Remove(c));
  }

  lemma RemovalBalances(b: Book, t: Task, u: Task)
    requires Balanced(Owing(b, t)) && b.inMap && t.Remove? && u.Destroy?
    ensures Balanced(Owing(Entered(b.(inMap := false), t), u))
  {
  }

  lemma RemovedKeeps(s: State, c: ConnId)
    requires BooksBut(s, c) && c in s.connections && c in s.conns && Balanced(Owing(BookOf(s, c), Remove(c)))
    requires BookOf(s, c).inMap
    ensures Books(RemoveInLoop(s, c)) && !RemoveInLoop(s, c).failed
  {
    var m := Record(Erased(s, c), Remove(c));
    hide BooksBut, BookOf, Books, Balanced;
    ErasedKeeps(s, c);
    RemovalBalances(BookOf(s, c), Remove(c), Destroy(c));
    PushKeeps(m, s.conns[c].loop, Destroy(c));
    PushBook(m, s.conns[c].loop, Destroy(c));
    CloseBooks(RemoveInLoop(s, c), c);
  }

  /** The erase fails exactly for a connection that has been closed before. */
  lemma RemoveKeeps(s: State, c: ConnId)
    requires BooksBut(s, c) && c in s.conns && Balanced(Owing(BookOf(s, c), Remove(c)))
    ensures var r := RemoveInLoop(s, c);
            Inv(r) && (r.failed <==> s.conns[c].closes >= 2 && c !in s.connections)
  {
    if c in s.connections {
      assert BookOf(s, c).inMap;
      hide BooksBut, BookOf, Books, Balanced;
      RemovedKeeps(s, c);
    }
  }

  /** Each close owes one removal. */
  lemma ClosedBalances(b: Book, k: Conn, t: Task)
    requires Balanced(b) && Up(b.k.state) && k == b.k.(closes := b.k.closes + 1) && t.Remove?
    ensures Balanced(Owing(b.(k := k), t))
  {
  }

  lemma ClosedKeeps(s: State, c: ConnId)
    requires !s.failed && Books(s) && c in s.conns && Up(s.conns[c].state)
    ensures BooksBut(Closed(s, c), c) && Balanced(Owing(BookOf(Closed(s, c), c), Remove(c)))
  {
    OpenBooks(s, c);
    hide BooksBut, BookOf, Books;
    RestKeeps(s, Closed(s, c), c);
    ClosedBalances(BookOf(s, c), Closed(s, c).conns[c], Remove(c));
  }

  lemma OwedRemovalKeeps(s: State, c: ConnId)
    requires BooksBut(s, c) && c in s.conns && Balanced(Owing(BookOf(s, c), Remove(c)))
    ensures Inv(Push(s, BASE, Remove(c)))
  {
    hide BooksBut, BookOf, Books, Balanced;
    PushKeeps(s, BASE, Remove(c));
    PushBook(s, BASE, Remove(c));
    CloseBooks(Push(s, BASE, Remove(c)), c);
  }

  lemma CloseKeeps(s: State, c: ConnId)
    requires !s.failed && Books(s) && c in s.conns && Up(s.conns[c].state)
    ensures Inv(HandleClose(s, c))
  {
    hide BooksBut, BookOf, Books, Balanced, Inv, RemoveInLoop;
    ClosedKeeps(s, c);
    if s.conns[c].loop == BASE {
      RemoveKeeps(Closed(s, c), c);
    } else {
      OwedRemovalKeeps(Closed(s, c), c);
    }
  }

  /** A connection with a new number has no functor anywhere. */
  lemma NewBook(s: State, l: LoopId)
    requires !s.failed && Books(s)
    ensures var c := s.nextConnId;
            var n := Added(s, l);
            BooksBut(n, c) && BookOf(n, c) == Book(Conn(l, Connecting, 0), true, 0, 0, 0, 0, 0, 0)
  {
    var c := s.nextConnId;
    var n := Added(s, l);
    NewUnknown(s, l);
    AddedOthers(s, l);
    SamePlaces(s, n);
    BooksButFrame(s, n, c);
  }

  lemma AddedOthers(s: State, l: LoopId)
    ensures OthersSame(s, Added(s, l), s.nextConnId)
  {
    assert forall m :: Queue(Added(s, l), m) == Queue(s, m);
  }

  lemma NewUnknown(s: State, l: LoopId)
    requires Books(s)
    ensures forall m, t: Task | t.c == s.nextConnId ::
              Waiting(Added(s, l), m, t) == 0 && Done(Added(s, l), t) == 0
  {
    forall m, t: Task | t.c == s.nextConnId
      ensures Waiting(Added(s, l), m, t) == 0 && Done(Added(s, l), t) == 0
    {
      Unknown(s, m, t);
      assert Queue(Added(s, l), m) == Queue(s, m);
      assert Waiting(Added(s, l), m, t) == Waiting(s, m, t) && Done(Added(s, l), t) == Done(s, t);
    }
  }

  lemma Unknown(s: State, l: LoopId, t: Task)
    requires Books(s) && t.c >= s.nextConnId
    ensures Waiting(s, l, t) == 0 && Done(s, t) == 0
  {
    hide Count, BookOf;
    CountNone(Queue(s, l), t);
    CountNone(s.log, t);
  }

  lemma NewKeeps(s: State, l: LoopId)
    requires !s.failed && Books(s)
    ensures !NewConn(s, l).failed && Books(NewConn(s, l))
  {
    hide BooksBut, BookOf, Books;
    var c := s.nextConnId;
    NewBook(s, l);
    if l == BASE {
      EstablishKeeps(Added(s, l), c);
    } else {
      PushKeeps(Added(s, l), l, Establish(c));
      PushBook(Added(s, l), l, Establish(c));
      CloseBooks(NewConn(s, l), c);
    }
  }

  lemma ShutdownKeeps(s: State, c: ConnId)
    requires !s.failed && Books(s) && c in s.conns && Up(s.conns[c].state)
    ensures var n := SetState(s, c, Disconnecting); !n.failed && Books(n)
  {
    hide BooksBut, BookOf, Books;
    OpenBooks(s, c);
    RestKeeps(s, SetState(s, c, Disconnecting), c);
    CloseBooks(SetState(s, c, Disconnecting), c);
  }

  lemma ForceCloseKeeps(s: State, c: ConnId)
    requires !s.failed && Books(s) && c in s.conns && Up(s.conns[c].state)
    ensures var n := Push(SetState(s, c, Disconnecting), s.conns[c].loop, ForceCloseInLoop(c)); !n.failed && Books(n)
  {
    var n := SetState(s, c, Disconnecting);
    hide BooksBut, BookOf, Books;
    ShutdownKeeps(s, c);
    OpenBooks(n, c);
    PushKeeps(n, s.conns[c].loop, ForceCloseInLoop(c));
    PushBook(n, s.conns[c].loop, ForceCloseInLoop(c));
    CloseBooks(Push(n, s.conns[c].loop, ForceCloseInLoop(c)), c);
  }

  lemma RunHeadKeeps(s: State, l: LoopId)
    requires !s.failed && Books(s) && Enabled(s, RunTask(l))
    ensures Inv(RunHead(s, l))
  {
    var n := Pop(s, l);
    OpenBooks(s, Queue(s, l)[0].c);
    PopKeeps(s, l);
    PopBook(s, l);
    hide BooksBut, BookOf, Books;
    match Queue(s, l)[0] {
      case Establish(c) => EstablishKeeps(n, c);
      case Remove(c) => RemoveKeeps(n, c);
      case Destroy(c) => DestroyKeeps(n, c);
      case ForceCloseInLoop(c) =>
        CloseBooks(n, c);
        if Up(n.conns[c].state) { CloseKeeps(n, c); }
    }
  }

  lemma StepKeepsInv(s: State, e: Event)
    requires Inv(s)
    ensures Inv(Step(s, e))
  {
    if !s.failed && Enabled(s, e) {
      match e {
        case NewConnection(l) => NewKeeps(s, l);
        case Shutdown(c) => if s.conns[c].state.Connected? { ShutdownKeeps(s, c); }
        case ForceClose(c) => if Up(s.conns[c].state) { ForceCloseKeeps(s, c); }
        case CloseEvent(c) => CloseKeeps(s, c);
        case RunTask(l) => RunHeadKeeps(s, l);
      }
    }
  }

  lemma {:induction false} RunKeepsInv(es: seq<Event>)
    ensures Inv(Run(es))
  {
    if es != [] {
      RunKeepsInv(es[..|es| - 1]);
      StepKeepsInv(Run(es[..|es| - 1]), es[|es| - 1]);
    }
  }

  // ----- Main theorems -----

  /** No assertion of the source fails unless `handleClose` has run twice for a connection. */
  lemma FailureMeansClosedTwice(es: seq<Event>)
    ensures Run(es).failed ==> ClosedTwice(Run(es))
  {
    RunKeepsInv(es);
  }

  /** In every run, however often connections are closed: a connection is in the map until
      its removal, and no functor of its life runs twice. */
  lemma EachAtMostOnce(es: seq<Event>, c: ConnId)
    requires !Run(es).failed && c in Run(es).conns
    ensures var s := Run(es);
            && (c in s.connections <==> Done(s, Remove(c)) == 0)
            && Done(s, Establish(c)) <= 1 && Done(s, Remove(c)) <= 1 && Done(s, Destroy(c)) <= 1
            && (s.conns[c].state.Connecting? <==> Done(s, Establish(c)) == 0)
            && (s.conns[c].state.Disconnected? <==> Done(s, Destroy(c)) == 1)
            && (c in s.connections ==> c < s.nextConnId)
  {
    RunKeepsInv(es);
    OpenBooks(Run(es), c);
  }

  /** Nothing in the map but connections that were created. */
  lemma OnlyCreatedAreFiled(es: seq<Event>)
    requires !Run(es).failed
    ensures Run(es).connections == set c | c in Run(es).conns && Done(Run(es), Remove(c)) == 0
  {
    RunKeepsInv(es);
    forall c | c in Run(es).conns
      ensures c in Run(es).connections <==> Done(Run(es), Remove(c)) == 0
    {
      EachAtMostOnce(es, c);
    }
  }

  /** When the loops have nothing left to run, every connection that was closed has been
      removed and destroyed, and no other has. */
  lemma NothingLeaks(es: seq<Event>, c: ConnId)
    requires !Run(es).failed && c in Run(es).conns
    requires forall l :: Queue(Run(es), l) == []
    ensures var s := Run(es);
            && s.conns[c].closes <= 1 && Done(s, Establish(c)) == 1
            && Done(s, Remove(c)) == s.conns[c].closes == Done(s, Destroy(c))
  {
    RunKeepsInv(es);
    OpenBooks(Run(es), c);
  }

  /** What must have been done before `t`. */
  predicate Follows(log: seq<Task>, t: Task) {
    match t
    case Establish(_) => true
    case Remove(c) => Establish(c) in log
    case Destroy(c) => Establish(c) in log && Remove(c) in log
    case ForceCloseInLoop(_) => false
  }

  ghost predicate InOrder(log: seq<Task>) {
    forall i :: 0 <= i < |log| ==> Follows(log[..i], log[i]) && log[i] !in log[..i]
  }

  lemma LogGrows(s: State, e: Event)
    requires !Step(s, e).failed
    ensures var r := Step(s, e);
            r.log == s.log || exists t :: r.log == s.log + [t] && t.c in r.conns && !t.ForceCloseInLoop?
  {
  }

  /** The last entry of a balanced log comes after what it must follow. */
  lemma LastFollows(s: State, r: State, t: Task)
    requires Books(r) && !r.failed && r.log == s.log + [t] && t.c in r.conns && !t.ForceCloseInLoop?
    ensures Follows(s.log, t) && t !in s.log
  {
    var c := t.c;
    OpenBooks(r, c);
    forall u: Task | u != t && Done(r, u) >= 1 ensures u in s.log {
      CountSnoc(s.log, t, u);
      CountNone(s.log, u);
    }
    CountSnoc(s.log, t, t);
    CountNone(s.log, t);
    assert Done(r, t) == Done(s, t) + 1;
  }

  /** `connEstablished` comes before the removal, and that before `connDestroyed`, once each. */
  lemma {:induction false} LifeInOrder(es: seq<Event>)
    ensures InOrder(Run(es).log)
  {
    if es != [] {
      var s, e := Run(es[..|es| - 1]), es[|es| - 1];
      LifeInOrder(es[..|es| - 1]);
      RunKeepsInv(es);
      StepInOrder(s, e);
    }
  }

  lemma StepInOrder(s: State, e: Event)
    requires Inv(Step(s, e)) && InOrder(s.log)
    ensures InOrder(Step(s, e).log)
  {
    var r := Step(s, e);
    hide Step;
    if r.failed {
      FailureKeepsLog(s, e);
    } else {
      LogGrows(s, e);
      if r.log != s.log {
        var t :| r.log == s.log + [t] && t.c in r.conns && !t.ForceCloseInLoop?;
        LastFollows(s, r, t);
        OrderGrows(s.log, t);
      }
    }
  }

  lemma OrderGrows(log: seq<Task>, t: Task)
    requires InOrder(log) && Follows(log, t) && t !in log
    ensures InOrder(log + [t])
  {
    var r := log + [t];
    forall i | 0 <= i < |r| ensures Follows(r[..i], r[i]) && r[i] !in r[..i] {
      assert r[..i] == log[..i];
      if i == |log| { assert r[..i] == log; }
    }
  }

  lemma FailureKeepsLog(s: State, e: Event)
    requires Step(s, e).failed
    ensures Step(s, e).log == s.log
  {
  }

  // ----- A second close is fatal -----

  /** The base loop runs `n` more functors. */
  function Drain(s: State, n: nat): State {
    if n == 0 then s else Step(Drain(s, n - 1), RunTask(BASE))
  }

  /** While it runs its queue the base loop adds no removal to it: its own connections are
      removed on the spot. */
  lemma BaseTail(s: State)
    requires WellPlaced(s) && !s.failed && Enabled(s, RunTask(BASE))
    ensures var q, r := Queue(s, BASE), Queue(Step(s, RunTask(BASE)), BASE);
            r == q[1..] || exists c :: r == q[1..] + [Destroy(c)]
  {
    PopPlaced(s, BASE);
    var t, n := Queue(s, BASE)[0], Pop(s, BASE);
    assert Queue(n, BASE) == Queue(s, BASE)[1..];
    match t {
      case Establish(c) =>
      case Remove(c) => EraseTail(n, c);
      case Destroy(c) =>
      case ForceCloseInLoop(c) => EraseTail(Closed(n, c), c);
    }
  }

  lemma EraseTail(s: State, c: ConnId)
    requires c in s.conns
    ensures var q, r := Queue(s, BASE), Queue(RemoveInLoop(s, c), BASE);
            r == q || r == q + [Destroy(c)]
  {
  }

  /** Of what the base loop had to run, the first `n` have been run and no removal added. */
  ghost predicate Drained(q: seq<Task>, n: nat, r: seq<Task>) {
    && n <= |q| && |q| - n <= |r| && r[..|q| - n] == q[n..]
    && forall i :: |q| - n <= i < |r| ==> !r[i].Remove?
  }

  lemma DrainedOneMore(q: seq<Task>, n: nat, r: seq<Task>, r': seq<Task>)
    requires Drained(q, n, r) && n < |q|
    requires r' == r[1..] || exists c :: r' == r[1..] + [Destroy(c)]
    ensures Drained(q, n + 1, r')
  {
    assert r'[..|q| - n - 1] == r[..|q| - n][1..];
  }

  lemma DrainUnfolds(s: State, n: nat)
    ensures Drain(s, n) == if n == 0 then s else Step(Drain(s, n - 1), RunTask(BASE))
  {
  }

  lemma NothingDrained(q: seq<Task>)
    ensures Drained(q, 0, q)
  {
  }

  lemma {:induction false} DrainKeeps(s: State, n: nat)
    requires Inv(s) && n <= |Queue(s, BASE)|
    ensures Inv(Drain(s, n))
    ensures !Drain(s, n).failed ==> Drained(Queue(s, BASE), n, Queue(Drain(s, n), BASE))
  {
    hide *;
    DrainUnfolds(s, n);
    if n == 0 {
      NothingDrained(Queue(s, BASE));
    } else {
      var m := Drain(s, n - 1);
      DrainKeeps(s, n - 1);
      DrainStep(Queue(s, BASE), n - 1, m);
    }
  }

  lemma DrainStep(q: seq<Task>, n: nat, s: State)
    requires Inv(s) && n < |q| && (!s.failed ==> Drained(q, n, Queue(s, BASE)))
    ensures var r := Step(s, RunTask(BASE)); Inv(r) && (!r.failed ==> Drained(q, n + 1, Queue(r, BASE)))
  {
    var r := Step(s, RunTask(BASE));
    StepKeepsInv(s, RunTask(BASE));
    if !s.failed {
      HeadIsKnown(s, BASE);
      BaseTail(s);
      hide Step;
      DrainedOneMore(q, n, Queue(s, BASE), Queue(r, BASE));
    }
  }

  lemma HeadIsKnown(s: State, l: LoopId)
    requires Books(s) && !s.failed && Queue(s, l) != []
    ensures Enabled(s, RunTask(l))
  {
    PopPlaced(s, l);
  }

  lemma ClosedAtMostOnce(s: State, c: ConnId)
    requires Books(s) && !s.failed && c in s.conns && Remove(c) !in Queue(s, BASE)
    ensures s.conns[c].closes <= 1
  {
    OpenBooks(s, c);
    CountNone(Queue(s, BASE), Remove(c));
  }

  /** Once the base loop, on its own, has run what it has to run now, an assertion has failed
      exactly if some connection was closed twice. */
  lemma SecondCloseIsFatal(es: seq<Event>)
    ensures var d := Drain(Run(es), |Queue(Run(es), BASE)|);
            d.failed <==> ClosedTwice(d)
  {
    var s := Run(es);
    var d := Drain(s, |Queue(s, BASE)|);
    RunKeepsInv(es);
    DrainKeeps(s, |Queue(s, BASE)|);
    if !d.failed {
      forall c | c in d.conns ensures d.conns[c].closes <= 1 {
        ClosedAtMostOnce(d, c);
      }
    }
  }

  lemma OneClose(s: State, c: ConnId)
    requires !s.failed && c in s.conns && Up(s.conns[c].state)
    ensures var r := Step(s, CloseEvent(c));
            && c in r.conns && r.conns[c] == s.conns[c].(closes := s.conns[c].closes + 1)
            && (r.failed <==> s.conns[c].loop == BASE && c !in s.connections)
            && (s.conns[c].loop == BASE ==> c !in r.connections)
  {
  }

  lemma UnclosedIsFiled(s: State, c: ConnId)
    requires Inv(s) && !s.failed && c in s.conns && s.conns[c].closes == 0
    ensures c in s.connections
  {
    OpenBooks(s, c);
  }

  /** A first close goes through; a second one runs `handleClose` again, and on the base
      loop fails on the spot. */
  lemma CloseTwice(s: State, c: ConnId)
    requires Inv(s) && !s.failed && c in s.conns && Up(s.conns[c].state) && s.conns[c].closes == 0
    ensures var r := Step(s, CloseEvent(c));
            var t := Step(r, CloseEvent(c));
            && !r.failed && c in r.conns && r.conns[c].closes == 1
            && c in t.conns && t.conns[c].closes == 2 && (t.failed <==> s.conns[c].loop == BASE)
  {
    hide Inv, Step;
    UnclosedIsFiled(s, c);
    OneClose(s, c);
    OneClose(Step(s, CloseEvent(c)), c);
  }

  lemma ClosesOnlyGrow(s: State, e: Event, c: ConnId)
    requires c in s.conns && Inv(s)
    ensures c in Step(s, e).conns && Step(s, e).conns[c].closes >= s.conns[c].closes
  {
    hide BookOf, Balanced, WellPlaced;
  }

  lemma {:induction false} DrainOnlyCloses(s: State, n: nat, c: ConnId)
    requires Inv(s) && n <= |Queue(s, BASE)| && c in s.conns
    ensures c in Drain(s, n).conns && Drain(s, n).conns[c].closes >= s.conns[c].closes
  {
    hide *;
    DrainUnfolds(s, n);
    if n > 0 {
      DrainOnlyCloses(s, n - 1, c);
      DrainKeeps(s, n - 1);
      ClosesOnlyGrow(Drain(s, n - 1), RunTask(BASE), c);
    }
  }

  /** A connection closed twice makes the base loop's next drain fail, or has already. */
  lemma ClosedTwiceDrains(es: seq<Event>, c: ConnId)
    requires c in Run(es).conns && Run(es).conns[c].closes >= 2
    ensures Drain(Run(es), |Queue(Run(es), BASE)|).failed
  {
    RunKeepsInv(es);
    DrainOnlyCloses(Run(es), |Queue(Run(es), BASE)|, c);
    SecondCloseIsFatal(es);
  }

  /** One dispatch closes twice when the peer hangs up with nothing to read: the close
      callback and then the read callback, which reads 0 bytes.  In a server with one loop
      the erase fails at once. */
  lemma HangUpClosesTwice()
    ensures Run([NewConnection(BASE), CloseEvent(1), CloseEvent(1)]).failed
  {
    var es := [NewConnection(BASE), CloseEvent(1), CloseEvent(1)];
    assert es[..2][..1] == [NewConnection(BASE)] && es[..2][..1][..0] == [];
    var a := Step(INIT, NewConnection(BASE));
    assert Run(es[..2][..1]) == a;
    var b := Step(a, CloseEvent(1));
    assert Run(es[..2]) == b;
  }

  // ----- ... whatever the other loops do -----

  /** How many functors the base loop runs in `fs`. */
  function BaseTurns(fs: seq<Event>): nat {
    if fs == [] then 0 else BaseTurns(fs[..|fs| - 1]) + One(fs[|fs| - 1] == RunTask(BASE))
  }

  lemma QueueGrows(s: State, e: Event)
    requires e != RunTask(BASE)
    ensures Queue(s, BASE) <= Queue(Step(s, e), BASE) && s.log <= Step(s, e).log
  {
  }

  lemma FrontLogged(s: State)
    requires Enabled(s, RunTask(BASE)) && !s.failed && !Step(s, RunTask(BASE)).failed
    ensures var t, r := Queue(s, BASE)[0], Step(s, RunTask(BASE));
            s.log <= r.log && (t.Remove? ==> s.log + [t] <= r.log)
  {
    hide Queue;
  }

  /** The functor at the front is taken off, and if it is a removal, it is carried out. */
  lemma FrontRuns(s: State)
    requires Books(s) && !s.failed && Queue(s, BASE) != [] && !Step(s, RunTask(BASE)).failed
    ensures var q, r := Queue(s, BASE), Step(s, RunTask(BASE));
            && q[1..] <= Queue(r, BASE) && s.log <= r.log
            && (q[0].Remove? ==> s.log + [q[0]] <= r.log)
  {
    HeadIsKnown(s, BASE);
    BaseTail(s);
    FrontLogged(s);
    hide Step, Queue, Books;
  }

  /** Of the queue `q` and the log `log` at the start: the first `k` functors of `q` have been
      run, and each removal among them is in the log. */
  ghost predicate RanFirst(q: seq<Task>, log: seq<Task>, k: nat, s: State, t: Task) {
    && k <= |q| && q[k..] <= Queue(s, BASE)
    && Count(s.log, t) >= Count(log, t) + Count(q[..k], t)
  }

  lemma {:induction false} CountPrefix(a: seq<Task>, b: seq<Task>, t: Task)
    requires a <= b
    ensures Count(a, t) <= Count(b, t)
  {
    if |a| < |b| {
      CountPrefix(a, b[..|b| - 1], t);
    } else {
      assert a == b;
    }
  }

  lemma SuffixPops(q: seq<Task>, k: nat, was: seq<Task>, is_: seq<Task>)
    requires k < |q| && q[k..] <= was && (was != [] ==> was[1..] <= is_)
    ensures was != [] && was[0] == q[k] && q[k + 1..] <= is_
  {
    assert q[k + 1..] == q[k..][1..];
  }

  lemma CountsOneMore(q: seq<Task>, k: nat, was: seq<Task>, is_: seq<Task>, t: Task)
    requires k < |q| && t.Remove? && was <= is_ && (q[k].Remove? ==> was + [q[k]] <= is_)
    ensures Count(q[..k + 1], t) == Count(q[..k], t) + One(q[k] == t)
    ensures Count(is_, t) >= Count(was, t) + One(q[k] == t)
  {
    assert q[..k + 1] == q[..k] + [q[k]];
    CountSnoc(q[..k], q[k], t);
    CountSnoc(was, q[k], t);
    CountPrefix(if q[k] == t then was + [t] else was, is_, t);
  }

  lemma RanOneMore(q: seq<Task>, log: seq<Task>, k: nat, s: State, t: Task)
    requires Books(s) && !s.failed && RanFirst(q, log, k, s, t) && k < |q| && t.Remove?
    requires !Step(s, RunTask(BASE)).failed
    ensures RanFirst(q, log, k + 1, Step(s, RunTask(BASE)), t)
  {
    hide Step, Books, Count, Queue;
    var r := Step(s, RunTask(BASE));
    assert q[k] in q[k..] && Queue(s, BASE) != [];
    FrontRuns(s);
    SuffixPops(q, k, Queue(s, BASE), Queue(r, BASE));
    CountsOneMore(q, k, s.log, r.log, t);
  }

  lemma RanNoLess(q: seq<Task>, log: seq<Task>, k: nat, s: State, t: Task, e: Event)
    requires RanFirst(q, log, k, s, t) && e != RunTask(BASE)
    ensures RanFirst(q, log, k, Step(s, e), t)
  {
    QueueGrows(s, e);
    CountPrefix(s.log, Step(s, e).log, t);
  }

  lemma RanAll(q: seq<Task>, log: seq<Task>, s: State, t: Task)
    requires Books(s) && !s.failed && RanFirst(q, log, |q|, s, t) && !Step(s, RunTask(BASE)).failed
    ensures RanFirst(q, log, |q|, Step(s, RunTask(BASE)), t)
  {
    if Queue(s, BASE) != [] {
      FrontRuns(s);
    }
    CountPrefix(s.log, Step(s, RunTask(BASE)).log, t);
  }

  /** In every continuation that has not failed, the base loop's turns have worked off the
      queue it started with. */
  lemma {:induction false} TurnsRun(s: State, es: seq<Event>, t: Task)
    requires Inv(s) && !RunFrom(s, es).failed && t.Remove?
    ensures !s.failed && Books(RunFrom(s, es))
    ensures var q := Queue(s, BASE); RanFirst(q, s.log, Min(BaseTurns(es), |q|), RunFrom(s, es), t)
  {
    hide Step, Inv, Books, RanFirst, RunFrom, BaseTurns, Queue, Count;
    var q := Queue(s, BASE);
    if es == [] {
      NothingRan(s, t);
    } else {
      var front, e := es[..|es| - 1], es[|es| - 1];
      var m := RunFrom(s, front);
      OneMoreStep(s, es);
      FailedStays(m, e);
      TurnsRun(s, front, t);
      KeepsBooks(m, e);
      var k := Min(BaseTurns(front), |q|);
      if e != RunTask(BASE) {
        RanNoLess(q, s.log, k, m, t, e);
      } else if k < |q| {
        RanOneMore(q, s.log, k, m, t);
      } else {
        RanAll(q, s.log, m, t);
      }
    }
  }

  lemma NothingRan(s: State, t: Task)
    requires Inv(s) && !RunFrom(s, []).failed
    ensures !s.failed && Books(RunFrom(s, [])) && BaseTurns([]) == 0
    ensures Min(0, |Queue(s, BASE)|) == 0 && RanFirst(Queue(s, BASE), s.log, 0, RunFrom(s, []), t)
  {
    assert Queue(s, BASE)[..0] == [];
  }

  lemma OneMoreStep(s: State, es: seq<Event>)
    requires es != []
    ensures RunFrom(s, es) == Step(RunFrom(s, es[..|es| - 1]), es[|es| - 1])
    ensures BaseTurns(es) == BaseTurns(es[..|es| - 1]) + (if es[|es| - 1] == RunTask(BASE) then 1 else 0)
  {
  }

  lemma FailedStays(s: State, e: Event)
    ensures s.failed ==> Step(s, e) == s
  {
  }

  lemma KeepsBooks(s: State, e: Event)
    requires Books(s) && !s.failed && !Step(s, e).failed
    ensures Books(Step(s, e))
  {
    StepKeepsInv(s, e);
  }

  function RunFrom(s: State, es: seq<Event>): State {
    if es == [] then s else Step(RunFrom(s, es[..|es| - 1]), es[|es| - 1])
  }

  lemma {:induction false} RunsOn(es: seq<Event>, fs: seq<Event>)
    ensures Run(es + fs) == RunFrom(Run(es), fs)
  {
    hide Step;
    if fs == [] {
      assert es + fs == es;
    } else {
      RunsOn(es, fs[..|fs| - 1]);
      assert (es + fs)[..|es + fs| - 1] == es + fs[..|fs| - 1];
    }
  }

  lemma {:induction false} NoneLost(s: State, es: seq<Event>, c: ConnId)
    requires Inv(s) && c in s.conns
    ensures Inv(RunFrom(s, es)) && c in RunFrom(s, es).conns
  {
    if es != [] {
      hide Inv, Step;
      var m, e := RunFrom(s, es[..|es| - 1]), es[|es| - 1];
      NoneLost(s, es[..|es| - 1], c);
      ClosesOnlyGrow(m, e, c);
      StepKeepsInv(m, e);
    }
  }

  lemma RemovalBooks(s: State, c: ConnId)
    requires Books(s) && !s.failed && c in s.conns
    ensures Count(Queue(s, BASE), Remove(c)) + Count(s.log, Remove(c)) == s.conns[c].closes
    ensures Count(s.log, Remove(c)) <= 1
  {
    OpenBooks(s, c);
  }

  /** Every removal queued or done for a connection closed twice is more than there may be. */
  lemma TooManyRemovals(s: State, r: State, c: ConnId)
    requires Books(s) && !s.failed && c in s.conns && s.conns[c].closes >= 2
    requires Books(r) && !r.failed && c in r.conns
    ensures !RanFirst(Queue(s, BASE), s.log, |Queue(s, BASE)|, r, Remove(c))
  {
    hide Count, Queue, Books;
    RemovalBooks(s, c);
    RemovalBooks(r, c);
    assert Queue(s, BASE)[..|Queue(s, BASE)|] == Queue(s, BASE);
  }

  /** A second close is fatal in every interleaving: once a connection has been closed twice,
      any continuation in which the base loop runs as many functors as it has queued at that
      time ends with a failed assertion, whatever all loops do in between. */
  lemma SecondCloseIsFatalAnyway(es: seq<Event>, c: ConnId, fs: seq<Event>)
    requires c in Run(es).conns && Run(es).conns[c].closes >= 2
    requires BaseTurns(fs) >= |Queue(Run(es), BASE)|
    ensures Run(es + fs).failed
  {
    var s := Run(es);
    RunKeepsInv(es);
    RunsOn(es, fs);
    NoneLost(s, fs, c);
    hide Step, RanFirst;
    if !RunFrom(s, fs).failed {
      TurnsRun(s, fs, Remove(c));
      TooManyRemovals(s, RunFrom(s, fs), c);
    }
  }

  // ----- The server as it runs -----

  /** The server's fields, and the loops it posts functors to.  `log` is history, kept for
      the specification. */
  class TcpServer {
    var nextConnId: ConnId
    var conns: map<ConnId, Conn>
    var connections: set<ConnId>
    var queues: map<LoopId, seq<Task>>
    ghost var log: seq<Task>
    var failed: bool

    ghost function View(): State
      reads this
    {
      State(nextConnId, conns, connections, queues, log, failed)
    }

    constructor ()
      ensures View() == INIT
    {
      nextConnId, conns, connections, queues, log, failed := 1, map[], {}, map[], [], false;
    }

    method QueueInLoop(l: LoopId, t: Task)
      modifies this`queues
      ensures View() == Push(old(View()), l, t)
    {
      queues := queues[l := (if l in queues then queues[l] else []) + [t]];
    }

    method Establish(c: ConnId)
      requires c in conns
      modifies this`conns, this`log, this`failed
      ensures View() == ConnEstablished(old(View()), c)
      ensures c in conns && if old(conns)[c].state.Connecting? then failed == old(failed) && conns[c].state.Connected?
                            else failed
    {
      if !conns[c].state.Connecting? { failed := true; return; }
      conns := conns[c := conns[c].(state := Connected)];
      log := log + [Task.Establish(c)];
    }

    method Destroy(c: ConnId)
      requires c in conns
      modifies this`conns, this`log, this`failed
      ensures View() == ConnDestroyed(old(View()), c)
    {
      if !Up(conns[c].state) { failed := true; return; }
      conns := conns[c := conns[c].(state := Disconnected)];
      log := log + [Task.Destroy(c)];
    }

    method NewConnection(l: LoopId)
      modifies this
      ensures View() == NewConn(old(View()), l)
      ensures nextConnId == old(nextConnId) + 1 && connections == old(connections) + {old(nextConnId)}
      ensures failed == old(failed)
      ensures var c := old(nextConnId);
              && c in conns && conns[c].loop == l
              && if l == BASE then conns[c].state.Connected?
                 else Queue(View(), l) == Queue(old(View()), l) + [Task.Establish(c)]
    {
      var c := nextConnId;
      nextConnId := nextConnId + 1;
      conns := conns[c := Conn(l, Connecting, 0)];
      connections := connections + {c};
      if l == BASE {
        Establish(c);
      } else {
        QueueInLoop(l, Task.Establish(c));
      }
    }

    method RemoveConnectionInLoop(c: ConnId)
      requires c in conns
      modifies this`connections, this`queues, this`log, this`failed
      ensures View() == RemoveInLoop(old(View()), c)
      ensures if c !in old(connections) then failed
              else failed == old(failed) && connections == old(connections) - {c}
                   && Queue(View(), conns[c].loop) == Queue(old(View()), conns[c].loop) + [Task.Destroy(c)]
    {
      if c !in connections { failed := true; return; }
      connections := connections - {c};
      log := log + [Remove(c)];
      QueueInLoop(conns[c].loop, Task.Destroy(c));
    }

    /** `TcpConnection::handleClose` with the server's close callback. */
    method Close(c: ConnId)
      requires c in conns
      modifies this
      ensures View() == HandleClose(old(View()), c)
      ensures c in conns && (Up(old(conns)[c].state) ==> conns[c].closes == old(conns)[c].closes + 1)
    {
      if !Up(conns[c].state) { failed := true; return; }
      conns := conns[c := conns[c].(closes := conns[c].closes + 1)];
      if conns[c].loop == BASE {
        RemoveConnectionInLoop(c);
      } else {
        QueueInLoop(BASE, Remove(c));
      }
    }

    method Shutdown(c: ConnId)
      requires c in conns && !failed
      modifies this`conns
      ensures View() == Step(old(View()), Event.Shutdown(c))
    {
      if conns[c].state.Connected? {
        conns := conns[c := conns[c].(state := Disconnecting)];
      }
    }

    method ForceClose(c: ConnId)
      requires c in conns && !failed
      modifies this`conns, this`queues
      ensures View() == Step(old(View()), Event.ForceClose(c))
    {
      if Up(conns[c].state) {
        conns := conns[c := conns[c].(state := Disconnecting)];
        QueueInLoop(conns[c].loop, ForceCloseInLoop(c));
      }
    }

    /** Loop `l` runs the functor at the front of its queue. */
    method RunOne(l: LoopId)
      requires !failed && Enabled(View(), RunTask(l))
      modifies this
      ensures View() == Step(old(View()), RunTask(l))
    {
      var t := queues[l][0];
      queues := queues[l := queues[l][1..]];
      match t {
        case Establish(c) => Establish(c);
        case Remove(c) => RemoveConnectionInLoop(c);
        case Destroy(c) => Destroy(c);
        case ForceCloseInLoop(c) => if Up(conns[c].state) { Close(c); }
      }
    }

    /** The base loop runs what it has to run now: it ends with a failed assertion exactly
        if some connection was closed twice. */
    method DrainBase(ghost es: seq<Event>)
      requires View() == Run(es)
      modifies this
      ensures View() == Drain(old(View()), |Queue(old(View()), BASE)|)
      ensures failed <==> ClosedTwice(View())
    {
      hide Step, Enabled, Run;
      var n := if BASE in queues then |queues[BASE]| else 0;
      ghost var s := View();
      var i := 0;
      while i < n && !failed
        invariant 0 <= i <= n && View() == Drain(s, i)
      {
        DrainEnabled(es, i);
        RunOne(BASE);
        i := i + 1;
      }
      DrainStops(s, i, n);
      SecondCloseIsFatal(es);
    }
  }

  lemma DrainEnabled(es: seq<Event>, n: nat)
    requires n < |Queue(Run(es), BASE)| && !Drain(Run(es), n).failed
    ensures Enabled(Drain(Run(es), n), RunTask(BASE))
  {
    RunKeepsInv(es);
    DrainKeeps(Run(es), n);
    HeadIsKnown(Drain(Run(es), n), BASE);
  }

  lemma {:induction false} DrainStops(s: State, i: nat, n: nat)
    requires i <= n && (i == n || Drain(s, i).failed)
    ensures Drain(s, n) == Drain(s, i)
  {
    if i < n {
      DrainStops(s, i, n - 1);
    }
  }
}
