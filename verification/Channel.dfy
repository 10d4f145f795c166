/** One dispatch of a channel's events (Channel.cpp), and what it does to a connection. */
module Dispatches {
  import opened ConnStates
  import L = Lifecycles

  /** The bits of `revents`, as in `<poll.h>`. */
  type Events = bv8

  const POLLIN: Events := 0x01
  const POLLPRI: Events := 0x02
  const POLLOUT: Events := 0x04
  const POLLERR: Events := 0x08
  const POLLHUP: Events := 0x10
  const POLLNVAL: Events := 0x20

  datatype Callback = OnError | OnClose | OnRead | OnWrite {
    function Rank(): nat {
      match this
      case OnError => 0
      case OnClose => 1
      case OnRead => 2
      case OnWrite => 3
    }
  }

  predicate Has(revents: Events, mask: Events) { revents & mask != 0 }

  /** The events call for the callback. */
  predicate Wants(revents: Events, cb: Callback) {
    match cb
    case OnError => Has(revents, POLLERR | POLLNVAL)
    case OnClose => Has(revents, POLLHUP) && !Has(revents, POLLIN)
    case OnRead => Has(revents, POLLIN | POLLPRI | POLLHUP)
    case OnWrite => Has(revents, POLLOUT)
  }

  /** Event bit `k` of `<poll.h>`: 0 in, 1 pri, 2 out, 3 err, 4 hup, 5 nval. */
  predicate Bit(revents: Events, k: nat)
    requires k < 8
  {
    (revents >> k) & 1 == 1
  }

  /** Which bits call for which callback. */
  lemma WantsBits(revents: Events)
    ensures Wants(revents, OnError) <==> Bit(revents, 3) || Bit(revents, 5)
    ensures Wants(revents, OnClose) <==> Bit(revents, 4) && !Bit(revents, 0)
    ensures Wants(revents, OnRead) <==> Bit(revents, 0) || Bit(revents, 1) || Bit(revents, 4)
    ensures Wants(revents, OnWrite) <==> Bit(revents, 2)
  {
  }

  function OfRank(k: nat): (cb: Callback)
    requires k < 4
    ensures cb.Rank() == k
  {
    if k == 0 then OnError else if k == 1 then OnClose else if k == 2 then OnRead else OnWrite
  }

  function Maybe(installed: set<Callback>, wanted: bool, cb: Callback): seq<Callback> {
    if wanted && cb in installed then [cb] else []
  }

  /** The callbacks of rank below `k` that a dispatch runs, in order. */
  function Runs(revents: Events, installed: set<Callback>, k: nat): seq<Callback>
    requires k <= 4
  {
    if k == 0 then []
    else Runs(revents, installed, k - 1) + Maybe(installed, Wants(revents, OfRank(k - 1)), OfRank(k - 1))
  }

  ghost predicate Rising(cbs: seq<Callback>) {
    forall i, j :: 0 <= i < j < |cbs| ==> cbs[i].Rank() < cbs[j].Rank()
  }

  /** `cbs` is each installed and wanted callback of rank below `k`, once and in order. */
  ghost predicate ExactBelow(cbs: seq<Callback>, revents: Events, installed: set<Callback>, k: nat) {
    Rising(cbs) && forall cb :: cb in cbs <==> cb in installed && Wants(revents, cb) && cb.Rank() < k
  }

  lemma RisingSnoc(cbs: seq<Callback>, cb: Callback)
    requires Rising(cbs) && forall c :: c in cbs ==> c.Rank() < cb.Rank()
    ensures Rising(cbs + [cb])
  {
    assert forall i :: 0 <= i < |cbs| ==> cbs[i] in cbs;
  }

  lemma ExactNext(cbs: seq<Callback>, revents: Events, installed: set<Callback>, k: nat)
    requires k < 4 && ExactBelow(cbs, revents, installed, k)
    ensures ExactBelow(cbs + Maybe(installed, Wants(revents, OfRank(k)), OfRank(k)), revents, installed, k + 1)
  {
    hide Wants, Rising;
    RisingSnoc(cbs, OfRank(k));
    forall cb: Callback ensures cb.Rank() < k + 1 <==> cb == OfRank(k) || cb.Rank() < k {}
    if OfRank(k) !in installed || !Wants(revents, OfRank(k)) {
      assert cbs + [] == cbs;
    }
  }

  lemma {:induction false} RunsIsExact(revents: Events, installed: set<Callback>, k: nat)
    requires k <= 4
    ensures ExactBelow(Runs(revents, installed, k), revents, installed, k)
  {
    if k > 0 {
      hide Wants, ExactBelow;
      RunsIsExact(revents, installed, k - 1);
      ExactNext(Runs(revents, installed, k - 1), revents, installed, k - 1);
    }
  }

  lemma RunsUnfold(revents: Events, installed: set<Callback>)
    ensures Runs(revents, installed, 0) == []
    ensures Runs(revents, installed, 1) == Maybe(installed, Wants(revents, OnError), OnError)
    ensures Runs(revents, installed, 2)
            == Runs(revents, installed, 1) + Maybe(installed, Wants(revents, OnClose), OnClose)
    ensures Runs(revents, installed, 3)
            == Runs(revents, installed, 2) + Maybe(installed, Wants(revents, OnRead), OnRead)
    ensures Runs(revents, installed, 4)
            == Runs(revents, installed, 3) + Maybe(installed, Wants(revents, OnWrite), OnWrite)
  {
  }

  class EventChannel {
    const installed: set<Callback>
    var revents: Events
    var eventHandling: bool
    /** The callbacks run by the latest dispatch. */
    ghost var fired: seq<Callback>

    constructor (installed: set<Callback>)
      ensures this.installed == installed && fired == [] && !eventHandling
    {
      this.installed := installed;
      revents, eventHandling, fired := 0, false, [];
    }

    method Fire(cb: Callback)
      modifies this`fired
      ensures fired == old(fired) + Maybe(installed, true, cb)
    {
      if cb in installed {
        fired := fired + [cb];
      }
    }

    /** Exactly the installed callbacks the events call for are run: each once, the error
        callback first, then close, read and write. */
    method HandleEventWithGuard()
      modifies this`eventHandling, this`fired
      ensures !eventHandling
      ensures ExactBelow(fired, revents, installed, 4) && fired == Runs(revents, installed, 4)
    {
      RunsUnfold(revents, installed);
      hide Has, ExactBelow, Runs;
      eventHandling, fired := true, [];
      if Has(revents, POLLERR | POLLNVAL) {
        Fire(OnError);
      }
      assert fired == Runs(revents, installed, 1);
      if Has(revents, POLLHUP) && !Has(revents, POLLIN) {
        Fire(OnClose);
      }
      assert fired == Runs(revents, installed, 2);
      if Has(revents, POLLIN | POLLPRI | POLLHUP) {
        Fire(OnRead);
      }
      assert fired == Runs(revents, installed, 3);
      if Has(revents, POLLOUT) {
        Fire(OnWrite);
      }
      eventHandling := false;
      assert fired == Runs(revents, installed, 4);
      RunsIsExact(revents, installed, 4);
    }
  }

  // ----- What a dispatch does to a server connection -----

  /** What `readFd` returned, sorted as `TcpConnection::handleRead` sorts it. */
  datatype Received = Data | EndOfStream | ReadError

  /** The callbacks a TcpConnection installs. */
  const INSTALLED: set<Callback> := {OnClose, OnRead}

  /** One `handleClose` for the close callback, and one for a read that ends the stream. */
  function Closes(cbs: seq<Callback>, received: Received, c: L.ConnId): seq<L.Event> {
    if cbs == [] then []
    else
      var closing := cbs[0].OnClose? || (cbs[0].OnRead? && received.EndOfStream?);
      (if closing then [L.CloseEvent(c)] else []) + Closes(cbs[1..], received, c)
  }

  /** The peer hung up, there is nothing to read, and the read says so. */
  predicate HangsUp(revents: Events, received: Received) {
    Wants(revents, OnClose) && received.EndOfStream?
  }

  lemma RunsOfConnection(revents: Events)
    ensures Runs(revents, INSTALLED, 4)
            == Maybe(INSTALLED, Wants(revents, OnClose), OnClose) + Maybe(INSTALLED, Wants(revents, OnRead), OnRead)
  {
    assert Runs(revents, INSTALLED, 1) == [];
    assert Runs(revents, INSTALLED, 2) == Maybe(INSTALLED, Wants(revents, OnClose), OnClose);
    assert Runs(revents, INSTALLED, 4) == Runs(revents, INSTALLED, 3);
  }

  /** How often one dispatch closes the connection. */
  lemma ClosesOfDispatch(revents: Events, received: Received, c: L.ConnId)
    ensures var cs := Closes(Runs(revents, INSTALLED, 4), received, c);
            && cs == (if HangsUp(revents, received) then [L.CloseEvent(c), L.CloseEvent(c)]
                      else if Wants(revents, OnClose) || (Wants(revents, OnRead) && received.EndOfStream?)
                      then [L.CloseEvent(c)] else [])
  {
    RunsOfConnection(revents);
    HangUpReads(revents);
    hide Wants, Runs;
    var cbs := Runs(revents, INSTALLED, 4);
    assert [OnRead][1..] == [] && Closes([], received, c) == [];
    assert Closes([OnRead], received, c) == if received.EndOfStream? then [L.CloseEvent(c)] else [];
    if Wants(revents, OnClose) {
      assert cbs == [OnClose, OnRead] && cbs[1..] == [OnRead];
      assert Closes(cbs, received, c) == [L.CloseEvent(c)] + Closes([OnRead], received, c);
    } else if Wants(revents, OnRead) {
      assert cbs == [OnRead];
    }
  }

  /** A hang-up runs the read callback too. */
  lemma HangUpReads(revents: Events)
    ensures Wants(revents, OnClose) ==> Wants(revents, OnRead)
  {
    assert revents & POLLHUP != 0 ==> revents & (POLLIN | POLLPRI | POLLHUP) != 0;
  }

  /** In every reachable state of a server, for a live connection on any loop that has not
      been closed: one dispatch runs `handleClose` twice exactly when the peer hung up and the
      read returns 0.  Then an assertion fails: at once if the connection lives on the base
      loop, else when the base loop has run what it has queued; and nothing fails at once
      otherwise. */
  lemma DispatchFailsExactlyWhen(es: seq<L.Event>, c: L.ConnId, revents: Events, received: Received)
    requires !L.Run(es).failed && c in L.Run(es).conns
    requires Up(L.Run(es).conns[c].state) && L.Run(es).conns[c].closes == 0
    ensures var s := L.Run(es + Closes(Runs(revents, INSTALLED, 4), received, c));
            && c in s.conns && (s.conns[c].closes == 2 <==> HangsUp(revents, received))
            && (s.failed <==> HangsUp(revents, received) && L.Run(es).conns[c].loop == L.BASE)
            && (HangsUp(revents, received) ==> L.Drain(s, |L.Queue(s, L.BASE)|).failed)
  {
    hide *;
    var e := L.CloseEvent(c);
    var cs := Closes(Runs(revents, INSTALLED, 4), received, c);
    ClosesOfDispatch(revents, received, c);
    TwoCloses(es, c);
    if |cs| == 2 {
      assert es + cs == (es + [e]) + [e];
      L.ClosedTwiceDrains(es + cs, c);
    } else if |cs| == 0 {
      assert es + cs == es;
    }
  }

  lemma TwoCloses(es: seq<L.Event>, c: L.ConnId)
    requires !L.Run(es).failed && c in L.Run(es).conns
    requires Up(L.Run(es).conns[c].state) && L.Run(es).conns[c].closes == 0
    ensures var r := L.Run(es + [L.CloseEvent(c)]);
            var t := L.Run(es + [L.CloseEvent(c)] + [L.CloseEvent(c)]);
            && !r.failed && c in r.conns && r.conns[c].closes == 1
            && c in t.conns && t.conns[c].closes == 2 && (t.failed <==> L.Run(es).conns[c].loop == L.BASE)
  {
    L.RunKeepsInv(es);
    L.CloseTwice(L.Run(es), c);
    RunSnoc(es, L.CloseEvent(c));
    RunSnoc(es + [L.CloseEvent(c)], L.CloseEvent(c));
  }

  lemma RunSnoc(es: seq<L.Event>, e: L.Event)
    ensures L.Run(es + [e]) == L.Step(L.Run(es), e)
  {
    assert (es + [e])[..|es|] == es;
  }
}
