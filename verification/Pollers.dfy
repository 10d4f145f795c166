/** Interest in descriptors, and the two pollers that keep it for the kernel: epoll's
    three-state index over a kernel set (EpollPoller.cpp) and poll's array with swap-remove
    (PollPoller.cpp), both driven by the channel's interest methods (Channel.h). */
module Interests {

  /** Poll event bits, as in `<poll.h>`. */
  type Mask = bv8

  const NONE: Mask := 0
  const READ: Mask := 3
  const WRITE: Mask := 4

  type Fd = nat

  datatype Op =
    | EnableReading(fd: Fd)
    | EnableWriting(fd: Fd)
    | DisableWriting(fd: Fd)
    | DisableAll(fd: Fd)
    | Remove(fd: Fd)

  /** The interest mask after the operation. */
  function NewMask(old_: Mask, op: Op): Mask {
    match op
    case EnableReading(_) => old_ | READ
    case EnableWriting(_) => old_ | WRITE
    case DisableWriting(_) => old_ & !WRITE
    case DisableAll(_) => NONE
    case Remove(_) => old_
  }

  /** What a poller is for: which descriptors are registered, and with which interest.  A
      channel that is not registered has an empty mask; its object is new, since a removed
      channel is not used again. */
  type Registry = map<Fd, Mask>

  function MaskOf(r: Registry, fd: Fd): Mask { if fd in r then r[fd] else NONE }

  /** `removeChannel` asserts that the channel is registered with no interest left. */
  predicate Legal(r: Registry, op: Op) { op.Remove? ==> op.fd in r && r[op.fd] == NONE }

  function Apply(r: Registry, op: Op): Registry {
    if !Legal(r, op) then r
    else if op.Remove? then r - {op.fd}
    else r[op.fd := NewMask(MaskOf(r, op.fd), op)]
  }

  function ApplyAll(ops: seq<Op>): Registry {
    if ops == [] then map[] else Apply(ApplyAll(ops[..|ops| - 1]), ops[|ops| - 1])
  }

  // ----- The registry, read from the operations alone -----

  /** Reading was enabled for the descriptor, and not all interest taken away since. */
  predicate Reads(ops: seq<Op>, fd: Fd) {
    if ops == [] then false
    else
      match ops[|ops| - 1]
      case EnableReading(f) => f == fd || Reads(ops[..|ops| - 1], fd)
      case DisableAll(f) => f != fd && Reads(ops[..|ops| - 1], fd)
      case _ => Reads(ops[..|ops| - 1], fd)
  }

  /** Writing was enabled for the descriptor, and not disabled since. */
  predicate Writes(ops: seq<Op>, fd: Fd) {
    if ops == [] then false
    else
      match ops[|ops| - 1]
      case EnableWriting(f) => f == fd || Writes(ops[..|ops| - 1], fd)
      case DisableWriting(f) => f != fd && Writes(ops[..|ops| - 1], fd)
      case DisableAll(f) => f != fd && Writes(ops[..|ops| - 1], fd)
      case _ => Writes(ops[..|ops| - 1], fd)
  }

  /** The descriptor was operated on, and not removed since; it is removed only without
      interest. */
  predicate Listed(ops: seq<Op>, fd: Fd) {
    if ops == [] then false
    else
      var before := ops[..|ops| - 1];
      match ops[|ops| - 1]
      case Remove(f) => Listed(before, fd) && (f == fd ==> Reads(before, fd) || Writes(before, fd))
      case op => op.fd == fd || Listed(before, fd)
  }

  /** Poll's bits: 1 and 2 for reading, 4 for writing. */
  function MaskFor(r: bool, w: bool): Mask {
    match (r, w)
    case (false, false) => 0
    case (true, false) => 3
    case (false, true) => 4
    case (true, true) => 7
  }

  lemma NewMaskFor(r: bool, w: bool, op: Op)
    requires !op.Remove?
    ensures NewMask(MaskFor(r, w), op)
            == MaskFor(op.EnableReading? || (r && !op.DisableAll?),
                       op.EnableWriting? || (w && !op.DisableAll? && !op.DisableWriting?))
  {
    assert 4 | 3 == 7 as bv8 && 0 & !4 == 0 as bv8 && 3 & !4 == 3 as bv8 && 4 & !4 == 0 as bv8 && 7 & !4 == 3 as bv8;
  }

  /** The registry is what the operations on each descriptor make of it: registered exactly
      from its first operation to its removal, with the interest that was enabled last and
      not disabled since. */
  lemma {:induction false} RegistryIsInterest(ops: seq<Op>, fd: Fd)
    ensures fd in ApplyAll(ops) <==> Listed(ops, fd)
    ensures MaskOf(ApplyAll(ops), fd) == MaskFor(Reads(ops, fd), Writes(ops, fd))
  {
    if ops != [] {
      var before, op := ops[..|ops| - 1], ops[|ops| - 1];
      RegistryIsInterest(before, fd);
      hide MaskFor;
      NoInterest(Reads(before, fd), Writes(before, fd));
      if !op.Remove? {
        NewMaskFor(Reads(before, fd), Writes(before, fd), op);
      }
      hide NewMask;
    }
  }

  lemma NoInterest(r: bool, w: bool)
    ensures MaskFor(r, w) == NONE <==> !r && !w
  {
  }

  /** The descriptors registered without interest and not operated on since. */
  function IdleSince(ops: seq<Op>): set<Fd> {
    if ops == [] then {}
    else ApplyIdle(IdleSince(ops[..|ops| - 1]), ApplyAll(ops[..|ops| - 1]), ops[|ops| - 1])
  }

  function ApplyIdle(idle: set<Fd>, r: Registry, op: Op): set<Fd> {
    if !Legal(r, op) then idle
    else if !op.Remove? && op.fd !in r && NewMask(NONE, op) == NONE then idle + {op.fd}
    else idle - {op.fd}
  }

  /** No channel is removed that was registered without interest and not operated on since. */
  ghost predicate NoIdleRemoval(ops: seq<Op>) {
    forall k :: 0 <= k < |ops| && ops[k].Remove? && Legal(ApplyAll(ops[..k]), ops[k]) ==>
      ops[k].fd !in IdleSince(ops[..k])
  }

  /** What the kernel should watch: the registered descriptors with some interest. */
  function Watched(r: Registry): map<Fd, Mask> { map fd | fd in r && r[fd] != NONE :: r[fd] }

  /** What the kernel is asked about after one more operation.  A descriptor is asked about
      even with an empty mask, because errors and hang-ups are reported regardless; only
      taking away its last interest makes the poller stop asking. */
  function ApplyAsked(asked: map<Fd, Mask>, r: Registry, op: Op): map<Fd, Mask> {
    var events := NewMask(MaskOf(r, op.fd), op);
    if !Legal(r, op) then asked
    else if op.Remove? || (op.fd in asked && events == NONE) then asked - {op.fd}
    else asked[op.fd := events]
  }

  lemma AskedOthers(asked: map<Fd, Mask>, r: Registry, op: Op)
    ensures var b := ApplyAsked(asked, r, op);
            forall g :: g != op.fd ==> (g in b <==> g in asked) && (g in asked ==> b[g] == asked[g])
  {
  }

  function Asked(ops: seq<Op>): map<Fd, Mask> {
    if ops == [] then map[]
    else ApplyAsked(Asked(ops[..|ops| - 1]), ApplyAll(ops[..|ops| - 1]), ops[|ops| - 1])
  }
}

module Epoll {
  import opened Interests

  datatype Index = New | Added | Deleted

  datatype Chan = Chan(events: Mask, index: Index)

  /** `channels` is `channels_`; `kernel` is the epoll object's interest list, and `errors`
      counts the `epoll_ctl` calls it refused. */
  datatype State = State(channels: map<Fd, Chan>, kernel: map<Fd, Mask>, errors: nat)

  const EMPTY: State := State(map[], map[], 0)

  /** `epoll_ctl`: ADD fails on a descriptor in the list, MOD and DEL on one that is not. */
  datatype Ctl = Add | Mod | Del

  function Control(s: State, ctl: Ctl, fd: Fd, events: Mask): State {
    match ctl
    case Add => if fd in s.kernel then s.(errors := s.errors + 1) else s.(kernel := s.kernel[fd := events])
    case Mod => if fd in s.kernel then s.(kernel := s.kernel[fd := events]) else s.(errors := s.errors + 1)
    case Del => if fd in s.kernel then s.(kernel := s.kernel - {fd}) else s.(errors := s.errors + 1)
  }

  function IndexOf(s: State, fd: Fd): Index { if fd in s.channels then s.channels[fd].index else New }

  /** `updateChannel` of a channel whose mask has become `events`. */
  function Update(s: State, fd: Fd, events: Mask): State {
    if !IndexOf(s, fd).Added? then
      Control(s.(channels := s.channels[fd := Chan(events, Added)]), Add, fd, events)
    else if events == NONE then
      Control(s.(channels := s.channels[fd := Chan(events, Deleted)]), Del, fd, events)
    else
      Control(s.(channels := s.channels[fd := Chan(events, Added)]), Mod, fd, events)
  }

  /** A channel whose own mask has changed, before the poller hears of it. */
  function WithMask(s: State, fd: Fd, events: Mask): State {
    if fd in s.channels then s.(channels := s.channels[fd := s.channels[fd].(events := events)]) else s
  }

  lemma UpdateForgetsMask(s: State, fd: Fd, events: Mask)
    ensures Update(WithMask(s, fd, events), fd, events) == Update(s, fd, events)
  {
  }

  function Erase(s: State, fd: Fd): State
    requires fd in s.channels
  {
    var c := if s.channels[fd].index.Added? then Control(s, Del, fd, s.channels[fd].events) else s;
    c.(channels := c.channels - {fd})
  }

  function Registered(s: State): Registry { map fd | fd in s.channels :: s.channels[fd].events }

  function Step(s: State, op: Op): State {
    if !Legal(Registered(s), op) then s
    else if op.Remove? then Erase(s, op.fd)
    else Update(s, op.fd, NewMask(MaskOf(Registered(s), op.fd), op))
  }

  function Run(ops: seq<Op>): State {
    if ops == [] then EMPTY else Step(Run(ops[..|ops| - 1]), ops[|ops| - 1])
  }

  /** A descriptor is in the kernel's list exactly when its index is `Added`, and then with
      the channel's mask; a channel in the map but not in the list has no interest. */
  ghost predicate Inv(s: State) {
    && s.errors == 0
    && (forall fd :: fd in s.kernel <==> fd in s.channels && s.channels[fd].index.Added?)
    && (forall fd :: fd in s.kernel ==> s.kernel[fd] == s.channels[fd].events)
    && (forall fd :: fd in s.channels ==> !s.channels[fd].index.New?)
    && (forall fd :: fd in s.channels && s.channels[fd].index.Deleted? ==> s.channels[fd].events == NONE)
  }

  lemma UpdateKeepsInv(s: State, fd: Fd, events: Mask)
    requires Inv(s)
    ensures Inv(Update(s, fd, events))
  {
  }

  lemma UpdateRegisters(s: State, fd: Fd, events: Mask)
    ensures Registered(Update(s, fd, events)) == Registered(s)[fd := events]
  {
  }

  lemma EraseKeepsInv(s: State, fd: Fd)
    requires Inv(s) && fd in s.channels
    ensures Inv(Erase(s, fd))
  {
  }

  lemma EraseForgets(s: State, fd: Fd)
    requires fd in s.channels
    ensures Registered(Erase(s, fd)) == Registered(s) - {fd}
  {
  }

  lemma StepKeepsInv(s: State, op: Op)
    requires Inv(s)
    ensures Inv(Step(s, op)) && Registered(Step(s, op)) == Apply(Registered(s), op)
  {
    if Legal(Registered(s), op) {
      if op.Remove? {
        EraseKeepsInv(s, op.fd);
        EraseForgets(s, op.fd);
      } else {
        var events := NewMask(MaskOf(Registered(s), op.fd), op);
        UpdateKeepsInv(s, op.fd, events);
        UpdateRegisters(s, op.fd, events);
      }
    }
  }

  /** One operation asks the kernel what the rule for asking says. */
  lemma StepAsks(s: State, op: Op)
    requires Inv(s)
    ensures Step(s, op).kernel == ApplyAsked(s.kernel, Registered(s), op)
  {
  }

  lemma KernelWatches(s: State)
    requires Inv(s)
    ensures Watched(s.kernel) == Watched(Registered(s))
  {
  }

  /** Over every sequence of operations: no `epoll_ctl` is ever refused, the poller's
      records are the registry, the kernel's list is exactly what is to be asked, empty masks
      included, and what it watches is what the registry wants watched. */
  lemma {:induction false} SimulatesRegistry(ops: seq<Op>)
    ensures var s := Run(ops);
            && Inv(s) && Registered(s) == ApplyAll(ops) && s.kernel == Asked(ops)
            && Watched(s.kernel) == Watched(ApplyAll(ops))
  {
    if ops != [] {
      SimulatesRegistry(ops[..|ops| - 1]);
      StepKeepsInv(Run(ops[..|ops| - 1]), ops[|ops| - 1]);
      StepAsks(Run(ops[..|ops| - 1]), ops[|ops| - 1]);
    }
    KernelWatches(Run(ops));
  }
}

module Poll {
  import opened Interests

  datatype PollFd = PollFd(fd: int, events: Mask)

  datatype Chan = Chan(events: Mask, index: nat)

  /** `failed` is set, and the poller stops, when an assertion of the source fails. */
  datatype State = State(pollfds: seq<PollFd>, channels: map<Fd, Chan>, failed: bool)

  const EMPTY: State := State([], map[], false)

  /** An ignored descriptor is stored as `-fd - 1`. */
  function Park(fd: Fd): int { -(fd as int) - 1 }

  function Decode(fd: int): Fd { if fd < 0 then -fd - 1 else fd }

  /** `updateChannel` of a channel whose mask has become `events`. */
  function Update(s: State, fd: Fd, events: Mask): State
    requires fd in s.channels ==> s.channels[fd].index < |s.pollfds|
  {
    if fd !in s.channels then
      s.(pollfds := s.pollfds + [PollFd(fd, events)], channels := s.channels[fd := Chan(events, |s.pollfds|)])
    else
      var i := s.channels[fd].index;
      var p := PollFd(if events == NONE then Park(fd) else s.pollfds[i].fd, events);
      s.(pollfds := s.pollfds[i := p], channels := s.channels[fd := Chan(events, i)])
  }

  function WithMask(s: State, fd: Fd, events: Mask): State {
    if fd in s.channels then s.(channels := s.channels[fd := s.channels[fd].(events := events)]) else s
  }

  lemma UpdateForgetsMask(s: State, fd: Fd, events: Mask)
    requires fd in s.channels ==> s.channels[fd].index < |s.pollfds|
    ensures Update(WithMask(s, fd, events), fd, events) == Update(s, fd, events)
  {
  }

  /** `removeChannel`: swap with the last entry, tell the channel there, and pop. */
  function Erase(s: State, fd: Fd): State
    requires fd in s.channels && s.channels[fd].index < |s.pollfds|
    requires Decode(s.pollfds[|s.pollfds| - 1].fd) in s.channels
  {
    var i, last := s.channels[fd].index, |s.pollfds| - 1;
    var others := s.channels - {fd};
    if i == last then s.(pollfds := s.pollfds[..last], channels := others)
    else
      var g := Decode(s.pollfds[last].fd);
      s.(pollfds := s.pollfds[i := s.pollfds[last]][..last],
         channels := if g in others then others[g := others[g].(index := i)] else others)
  }

  /** `channels_` and `pollfds_` are in bijection, entry for entry. */
  ghost predicate Inv(s: State) {
    && (forall fd :: fd in s.channels ==>
          && s.channels[fd].index < |s.pollfds|
          && Decode(s.pollfds[s.channels[fd].index].fd) == fd
          && s.pollfds[s.channels[fd].index].events == s.channels[fd].events)
    && |s.pollfds| == |s.channels|
    && (forall i :: 0 <= i < |s.pollfds| ==>
          Decode(s.pollfds[i].fd) in s.channels && s.channels[Decode(s.pollfds[i].fd)].index == i)
  }

  function Registered(s: State): Registry { map fd | fd in s.channels :: s.channels[fd].events }

  /** A registered descriptor that `poll` has been told to ignore. */
  predicate Parked(s: State, fd: Fd) {
    fd in s.channels && s.channels[fd].index < |s.pollfds| && s.pollfds[s.channels[fd].index].fd < 0
  }

  /** `removeChannel` asserts that the entry is parked. */
  ghost function Step(s: State, op: Op): State
    requires Inv(s)
  {
    if s.failed || !Legal(Registered(s), op) then s
    else if op.Remove? then if Parked(s, op.fd) then Erase(s, op.fd) else s.(failed := true)
    else Update(s, op.fd, NewMask(MaskOf(Registered(s), op.fd), op))
  }

  /** The registration of one descriptor: its entry in the array. */
  function Lookup(s: State, fd: Fd): PollFd
    requires fd in s.channels && s.channels[fd].index < |s.pollfds|
  {
    s.pollfds[s.channels[fd].index]
  }

  /** `r` differs from `s` in the registration of `fd` only. */
  ghost predicate OthersKept(s: State, r: State, fd: Fd)
    requires Inv(s) && Inv(r)
  {
    forall g :: g != fd ==>
      (g in r.channels <==> g in s.channels) && (g in s.channels ==> Lookup(r, g) == Lookup(s, g))
  }

  lemma RegisterKeepsInv(s: State, fd: Fd, events: Mask)
    requires Inv(s) && fd !in s.channels
    ensures Inv(Update(s, fd, events))
  {
    var r := Update(s, fd, events);
    assert forall i :: 0 <= i < |s.pollfds| ==> r.pollfds[i] == s.pollfds[i];
  }

  lemma ModifyKeepsInv(s: State, fd: Fd, events: Mask)
    requires Inv(s) && fd in s.channels
    ensures Inv(Update(s, fd, events))
  {
    var r, at := Update(s, fd, events), s.channels[fd].index;
    forall i | 0 <= i < |r.pollfds|
      ensures Decode(r.pollfds[i].fd) in r.channels && r.channels[Decode(r.pollfds[i].fd)].index == i
    {
      assert Decode(r.pollfds[i].fd) == Decode(s.pollfds[i].fd);
    }
    assert forall g :: g in s.channels && g != fd ==> s.channels[g].index != at;
  }

  lemma UpdateKeepsInv(s: State, fd: Fd, events: Mask)
    requires Inv(s)
    ensures Inv(Update(s, fd, events))
  {
    if fd in s.channels {
      ModifyKeepsInv(s, fd, events);
    } else {
      RegisterKeepsInv(s, fd, events);
    }
  }

  lemma UpdateKeepsOthers(s: State, fd: Fd, events: Mask)
    requires Inv(s) && Inv(Update(s, fd, events))
    ensures OthersKept(s, Update(s, fd, events), fd)
  {
    forall g | g != fd && g in s.channels ensures Lookup(Update(s, fd, events), g) == Lookup(s, g) {
      OtherKept(s, fd, events, g);
    }
  }

  lemma OtherKept(s: State, fd: Fd, events: Mask, g: Fd)
    requires Inv(s) && Inv(Update(s, fd, events)) && g != fd && g in s.channels
    ensures var r := Update(s, fd, events);
            && s.channels[g].index < |s.pollfds|
            && g in r.channels && r.channels[g].index < |r.pollfds| && Lookup(r, g) == Lookup(s, g)
  {
    OwnPlaces(s, fd, g);
  }

  /** Two channels never share an entry. */
  lemma OwnPlaces(s: State, fd: Fd, g: Fd)
    requires Inv(s) && g in s.channels && g != fd
    ensures s.channels[g].index < |s.pollfds| && (fd in s.channels ==> s.channels[fd].index != s.channels[g].index)
  {
  }

  lemma UpdateRegisters(s: State, fd: Fd, events: Mask)
    requires Inv(s)
    ensures Registered(Update(s, fd, events)) == Registered(s)[fd := events]
  {
  }

  /** Only the entry that takes the place of the last one is gone. */
  lemma SwappedFront(entries: seq<PollFd>, i: nat)
    requires i < |entries|
    ensures var last := |entries| - 1;
            entries[i := entries[last]][last := entries[i]][..last] == entries[i := entries[last]][..last]
  {
  }

  /** Where the entry of each remaining channel is after the swap. */
  lemma EraseMoves(s: State, fd: Fd, g: Fd)
    requires Inv(s) && fd in s.channels && g in s.channels && g != fd
    ensures var r := Erase(s, fd);
            && g in r.channels && r.channels[g].events == s.channels[g].events
            && r.channels[g].index < |r.pollfds|
            && r.pollfds[r.channels[g].index] == s.pollfds[s.channels[g].index]
  {
    var i, last := s.channels[fd].index, |s.pollfds| - 1;
    assert Decode(s.pollfds[last].fd) in s.channels;
    assert s.channels[g].index != i;
  }

  lemma EraseKeepsInv(s: State, fd: Fd)
    requires Inv(s) && fd in s.channels
    ensures Inv(Erase(s, fd)) && OthersKept(s, Erase(s, fd), fd)
  {
    EraseKeepsForward(s, fd);
    EraseKeepsBack(s, fd);
    EraseKeepsChannels(s, fd);
    hide Erase;
  }

  lemma EraseKeepsChannels(s: State, fd: Fd)
    requires Inv(s) && fd in s.channels
    ensures forall g :: g in Erase(s, fd).channels <==> g in s.channels && g != fd
  {
  }

  /** Each remaining channel points at the entry it had. */
  lemma EraseKeepsForward(s: State, fd: Fd)
    requires Inv(s) && fd in s.channels
    ensures var r := Erase(s, fd);
            forall g :: g in r.channels ==>
              && g in s.channels && s.channels[g].index < |s.pollfds|
              && r.channels[g].index < |r.pollfds|
              && Decode(r.pollfds[r.channels[g].index].fd) == g
              && r.pollfds[r.channels[g].index].events == r.channels[g].events
              && r.pollfds[r.channels[g].index] == s.pollfds[s.channels[g].index]
  {
    var r := Erase(s, fd);
    forall g | g in r.channels
      ensures r.channels[g].index < |r.pollfds|
      ensures Decode(r.pollfds[r.channels[g].index].fd) == g
      ensures r.pollfds[r.channels[g].index].events == r.channels[g].events
      ensures r.pollfds[r.channels[g].index] == s.pollfds[s.channels[g].index]
    {
      EraseMoves(s, fd, g);
    }
  }

  /** What `removeChannel` relies on about the last entry. */
  lemma LastEntry(s: State, fd: Fd)
    requires Inv(s) && fd in s.channels
    ensures var last := |s.pollfds| - 1;
            last >= 0 && s.channels[fd].index <= last
            && var g := Decode(s.pollfds[last].fd);
            g in s.channels && s.channels[g].index == last && (g == fd <==> s.channels[fd].index == last)
  {
    var last := |s.pollfds| - 1;
    assert Decode(s.pollfds[last].fd) in s.channels;
  }

  /** A parked channel without interest is erased, and the bijection kept. */
  lemma Removal(s: State, fd: Fd)
    requires Inv(s) && Parked(s, fd) && s.channels[fd].events == NONE && !s.failed
    ensures Decode(s.pollfds[|s.pollfds| - 1].fd) in s.channels
    ensures Step(s, Remove(fd)) == Erase(s, fd) && Inv(Erase(s, fd))
  {
    hide Inv, Erase, Registered, Legal, Parked;
    RemovalIsLegal(s, fd);
    LastEntry(s, fd);
    EraseKeepsInv(s, fd);
  }

  lemma RemovalIsLegal(s: State, fd: Fd)
    requires Parked(s, fd) && s.channels[fd].events == NONE
    ensures fd in s.channels && Legal(Registered(s), Remove(fd))
  {
  }

  lemma UnparkedRemoval(s: State, fd: Fd)
    requires Inv(s) && fd in s.channels && s.channels[fd].events == NONE && !s.failed
    ensures s.channels[fd].index < |s.pollfds| && (Parked(s, fd) <==> Lookup(s, fd).fd == Park(fd))
    ensures !Parked(s, fd) ==> Step(s, Remove(fd)) == s.(failed := true) && Inv(s.(failed := true))
  {
  }

  lemma EntryOf(s: State, i: nat)
    requires Inv(s) && i < |s.pollfds|
    ensures var g := Decode(s.pollfds[i].fd); g in s.channels && s.channels[g].index == i
  {
  }

  /** Each remaining entry is still pointed at by its channel. */
  lemma EraseKeepsBack(s: State, fd: Fd)
    requires Inv(s) && fd in s.channels
    ensures var r := Erase(s, fd);
            && |r.pollfds| == |r.channels|
            && forall i :: 0 <= i < |r.pollfds| ==>
                 Decode(r.pollfds[i].fd) in r.channels && r.channels[Decode(r.pollfds[i].fd)].index == i
  {
    var r := Erase(s, fd);
    var at, last := s.channels[fd].index, |s.pollfds| - 1;
    forall i | 0 <= i < |r.pollfds|
      ensures Decode(r.pollfds[i].fd) in r.channels && r.channels[Decode(r.pollfds[i].fd)].index == i
    {
      assert r.pollfds[i] == s.pollfds[if i == at then last else i];
      assert s.channels[Decode(s.pollfds[i].fd)].index == i;
      assert s.channels[Decode(s.pollfds[last].fd)].index == last;
    }
  }

  lemma EraseForgets(s: State, fd: Fd)
    requires Inv(s) && fd in s.channels
    ensures Registered(Erase(s, fd)) == Registered(s) - {fd}
  {
  }

  /** An operation on one channel keeps the bijection and leaves every other registration
      as it was, wherever a removed entry stood; the records stay those of the registry. */
  lemma StepKeepsOthers(s: State, op: Op)
    requires Inv(s)
    ensures var r := Step(s, op);
            && Inv(r) && OthersKept(s, r, op.fd)
            && (!r.failed ==> Registered(r) == Apply(Registered(s), op))
            && (s.failed ==> r.failed)
  {
    if !s.failed && Legal(Registered(s), op) {
      if op.Remove? {
        if Parked(s, op.fd) {
          EraseKeepsInv(s, op.fd);
          EraseForgets(s, op.fd);
        }
      } else {
        var events := NewMask(MaskOf(Registered(s), op.fd), op);
        UpdateKeepsInv(s, op.fd, events);
        UpdateKeepsOthers(s, op.fd, events);
        UpdateRegisters(s, op.fd, events);
      }
    }
  }

  ghost function Run(ops: seq<Op>): (s: State)
    ensures Inv(s)
  {
    if ops == [] then EMPTY
    else
      var p := Run(ops[..|ops| - 1]);
      StepKeepsOthers(p, ops[|ops| - 1]);
      Step(p, ops[|ops| - 1])
  }

  /** What `poll` is asked about: the entries with a descriptor that is not negative. */
  function Asks(s: State): map<Fd, Mask> {
    map fd | fd in s.channels && !Parked(s, fd) :: s.channels[fd].events
  }

  /** The operation is applied to a parked channel, other than to remove it: `updateChannel`
      does not restore its descriptor. */
  predicate TouchesParked(s: State, op: Op) { !op.Remove? && Parked(s, op.fd) }

  /** Of what `poll` is asked about, that in which there is some interest. */
  function Listening(s: State): map<Fd, Mask> {
    map fd | fd in s.channels && !Parked(s, fd) && s.channels[fd].events != NONE :: s.channels[fd].events
  }

  /** The operation gives interest to a parked channel; `updateChannel` does not restore its
      descriptor. */
  predicate Revives(s: State, op: Op) {
    !op.Remove? && Parked(s, op.fd) && NewMask(MaskOf(Registered(s), op.fd), op) != NONE
  }

  lemma AgreesWhenParkedIdle(s: State)
    requires Inv(s)
    ensures Listening(s) == Watched(Registered(s)) <==>
            forall fd :: Parked(s, fd) ==> s.channels[fd].events == NONE
  {
    if Listening(s) == Watched(Registered(s)) {
      forall fd | Parked(s, fd) ensures s.channels[fd].events == NONE {
        assert fd !in Listening(s);
        assert fd !in Watched(Registered(s));
      }
    }
  }

  ghost predicate NeverRevives(ops: seq<Op>) { forall k :: 0 <= k < |ops| ==> !Revives(Run(ops[..k]), ops[k]) }

  /** After every prefix of the operations no assertion has failed, and the descriptors with
      some interest are those of the registry. */
  ghost predicate AgreesThroughout(ops: seq<Op>) {
    forall k :: 0 <= k <= |ops| ==>
      !Run(ops[..k]).failed && Listening(Run(ops[..k])) == Watched(ApplyAll(ops[..k]))
  }

  lemma {:induction false} RecordsRegistry(ops: seq<Op>)
    ensures !Run(ops).failed ==> Registered(Run(ops)) == ApplyAll(ops)
  {
    if ops != [] {
      RecordsRegistry(ops[..|ops| - 1]);
      StepKeepsOthers(Run(ops[..|ops| - 1]), ops[|ops| - 1]);
    }
  }

  lemma OneMore(ops: seq<Op>, k: nat)
    requires k < |ops|
    ensures var s := Run(ops[..k]);
            && Run(ops[..k + 1]) == Step(s, ops[k])
            && (s.failed ==> Run(ops[..k + 1]).failed)
            && (!s.failed ==>
                  && Registered(s) == ApplyAll(ops[..k])
                  && Asked(ops[..k + 1]) == ApplyAsked(Asked(ops[..k]), Registered(s), ops[k])
                  && IdleSince(ops[..k + 1]) == ApplyIdle(IdleSince(ops[..k]), Registered(s), ops[k]))
  {
    assert ops[..k + 1][..k] == ops[..k];
    RecordsRegistry(ops[..k]);
  }

  lemma {:induction false} FailureStays(ops: seq<Op>, k: nat, n: nat)
    requires k <= n <= |ops| && Run(ops[..k]).failed
    ensures Run(ops[..n]).failed
    decreases n - k
  {
    if k < n {
      OneMore(ops, k);
      hide *;
      FailureStays(ops, k + 1, n);
    }
  }

  // ----- Which removals fail -----

  /** `idle` holds the channels without interest whose entry is not parked. */
  ghost predicate IdleIs(s: State, idle: set<Fd>) {
    forall fd :: fd in idle <==> fd in s.channels && s.channels[fd].events == NONE && !Parked(s, fd)
  }

  lemma OwnIdle(s: State, op: Op, idle: set<Fd>)
    requires Inv(s) && !s.failed && IdleIs(s, idle) && !Step(s, op).failed
    ensures var r := Step(s, op);
            op.fd in ApplyIdle(idle, Registered(s), op) <==>
              op.fd in r.channels && r.channels[op.fd].events == NONE && !Parked(r, op.fd)
  {
  }

  lemma OthersIdle(s: State, r: State, fd: Fd)
    requires Inv(s) && Inv(r) && OthersKept(s, r, fd)
    ensures forall g :: g != fd ==>
              (g in r.channels && r.channels[g].events == NONE && !Parked(r, g)
               <==> g in s.channels && s.channels[g].events == NONE && !Parked(s, g))
  {
    forall g | g != fd && g in s.channels
      ensures r.channels[g].events == s.channels[g].events && (Parked(r, g) <==> Parked(s, g))
    {
      assert Lookup(r, g) == Lookup(s, g);
    }
  }

  lemma ApplyIdleOthers(idle: set<Fd>, r: Registry, op: Op)
    ensures forall g :: g != op.fd ==> (g in ApplyIdle(idle, r, op) <==> g in idle)
  {
  }

  lemma StepIdle(s: State, op: Op, idle: set<Fd>)
    requires Inv(s) && !s.failed && IdleIs(s, idle) && !Step(s, op).failed
    ensures IdleIs(Step(s, op), ApplyIdle(idle, Registered(s), op))
  {
    StepKeepsOthers(s, op);
    OwnIdle(s, op, idle);
    OthersIdle(s, Step(s, op), op.fd);
    ApplyIdleOthers(idle, Registered(s), op);
    hide Step, Inv, ApplyIdle, Parked, OthersKept;
  }

  lemma {:induction false} IdleUpTo(ops: seq<Op>, k: nat)
    requires k <= |ops| && !Run(ops[..k]).failed
    ensures IdleIs(Run(ops[..k]), IdleSince(ops[..k]))
  {
    hide *;
    if k == 0 {
      NothingAsked(ops);
    } else {
      OneMore(ops, k - 1);
      IdleUpTo(ops, k - 1);
      StepIdle(Run(ops[..k - 1]), ops[k - 1], IdleSince(ops[..k - 1]));
    }
  }

  lemma StepFailsExactly(s: State, op: Op, idle: set<Fd>)
    requires Inv(s) && !s.failed && IdleIs(s, idle)
    ensures Step(s, op).failed <==> op.Remove? && Legal(Registered(s), op) && op.fd in idle
  {
  }

  /** After any run, the removal of a registered channel without interest fails the assertion
      about its entry exactly if the channel was registered without interest and has not been
      operated on since. */
  lemma RemovalFailsExactlyWhen(ops: seq<Op>, fd: Fd)
    requires !Run(ops).failed && Legal(ApplyAll(ops), Remove(fd))
    ensures Step(Run(ops), Remove(fd)).failed <==> fd in IdleSince(ops)
  {
    assert ops[..|ops|] == ops;
    IdleUpTo(ops, |ops|);
    RecordsRegistry(ops);
    StepFailsExactly(Run(ops), Remove(fd), IdleSince(ops));
  }

  lemma NextFailsExactly(ops: seq<Op>, k: nat)
    requires k < |ops| && !Run(ops[..k]).failed
    ensures Run(ops[..k + 1]).failed <==>
              ops[k].Remove? && Legal(ApplyAll(ops[..k]), ops[k]) && ops[k].fd in IdleSince(ops[..k])
  {
    hide *;
    OneMore(ops, k);
    IdleUpTo(ops, k);
    StepFailsExactly(Run(ops[..k]), ops[k], IdleSince(ops[..k]));
  }

  lemma {:induction false} NoFailureUpTo(ops: seq<Op>, k: nat)
    requires NoIdleRemoval(ops) && k <= |ops|
    ensures !Run(ops[..k]).failed
  {
    hide *;
    if k == 0 {
      NothingFailed(ops);
    } else {
      NoFailureUpTo(ops, k - 1);
      NoneIdle(ops, k - 1);
      NextFailsExactly(ops, k - 1);
    }
  }

  lemma NothingFailed(ops: seq<Op>)
    ensures !Run(ops[..0]).failed
  {
  }

  lemma NoneIdle(ops: seq<Op>, k: nat)
    requires NoIdleRemoval(ops) && k < |ops|
    ensures !(ops[k].Remove? && Legal(ApplyAll(ops[..k]), ops[k]) && ops[k].fd in IdleSince(ops[..k]))
  {
  }

  /** A run fails exactly if it removes such a channel. */
  lemma RunFailsExactlyWhen(ops: seq<Op>)
    ensures Run(ops).failed <==> !NoIdleRemoval(ops)
  {
    assert ops[..|ops|] == ops;
    hide Run, IdleSince, ApplyAll, Legal;
    if NoIdleRemoval(ops) {
      NoFailureUpTo(ops, |ops|);
    } else {
      var k :| 0 <= k < |ops| && ops[k].Remove? && Legal(ApplyAll(ops[..k]), ops[k])
               && ops[k].fd in IdleSince(ops[..k]);
      if Run(ops[..k]).failed {
        FailureStays(ops, k, |ops|);
      } else {
        NextFailsExactly(ops, k);
        FailureStays(ops, k + 1, |ops|);
      }
    }
  }

  lemma PrefixFails(ops: seq<Op>, k: nat)
    requires k <= |ops| && Run(ops[..k]).failed
    ensures Run(ops).failed
  {
    FailureStays(ops, k, |ops|);
    assert ops[..|ops|] == ops;
  }

  // ----- What becomes of parked channels -----

  ghost predicate ParkedIdle(s: State) { forall fd :: Parked(s, fd) ==> s.channels[fd].events == NONE }

  lemma OthersStayIdle(s: State, r: State, fd: Fd)
    requires Inv(s) && Inv(r) && OthersKept(s, r, fd) && ParkedIdle(s)
    ensures forall g :: g != fd && Parked(r, g) ==> r.channels[g].events == NONE
  {
    forall g | g != fd && Parked(r, g) ensures r.channels[g].events == NONE {
      assert Lookup(r, g) == Lookup(s, g) && Parked(s, g);
    }
  }

  /** After the operation its own channel is parked with interest exactly if it was revived. */
  lemma OwnParked(s: State, op: Op)
    requires Inv(s) && !s.failed && ParkedIdle(s)
    ensures var r := Step(s, op);
            Parked(r, op.fd) && r.channels[op.fd].events != NONE <==> Revives(s, op)
  {
  }

  lemma ParkedIdleStep(s: State, op: Op)
    requires Inv(s) && !s.failed && ParkedIdle(s)
    ensures ParkedIdle(Step(s, op)) <==> !Revives(s, op)
  {
    StepKeepsOthers(s, op);
    OthersStayIdle(s, Step(s, op), op.fd);
    OwnParked(s, op);
    hide Step, Inv, Revives, Parked;
  }

  lemma {:induction false} ParkedIdleUpTo(ops: seq<Op>, k: nat)
    requires NeverRevives(ops) && k <= |ops| && !Run(ops[..k]).failed
    ensures ParkedIdle(Run(ops[..k]))
  {
    if k > 0 {
      hide Run, Revives, Step, Inv, ParkedIdle;
      OneMore(ops, k - 1);
      ParkedIdleUpTo(ops, k - 1);
      ParkedIdleStep(Run(ops[..k - 1]), ops[k - 1]);
    } else {
      assert ParkedIdle(EMPTY);
    }
  }

  // ----- What poll is asked -----

  ghost predicate NeverTouchesParked(ops: seq<Op>) {
    forall k :: 0 <= k < |ops| ==> !TouchesParked(Run(ops[..k]), ops[k])
  }

  /** After every prefix of the operations no assertion has failed, and `poll` is asked
      exactly what it should be. */
  ghost predicate AsksThroughout(ops: seq<Op>) {
    forall k :: 0 <= k <= |ops| ==> !Run(ops[..k]).failed && Asks(Run(ops[..k])) == Asked(ops[..k])
  }

  /** An operation on a channel that is not parked changes what is asked by the rule. */
  lemma StepAsks(s: State, op: Op)
    requires Inv(s) && !TouchesParked(s, op) && !s.failed && !Step(s, op).failed
    ensures Asks(Step(s, op)) == ApplyAsked(Asks(s), Registered(s), op)
  {
    hide *;
    StepKeepsOthers(s, op);
    OwnAsked(s, op);
    OthersAsked(s, Step(s, op), op.fd);
    AskedOthers(Asks(s), Registered(s), op);
  }

  lemma OwnAsked(s: State, op: Op)
    requires Inv(s) && !TouchesParked(s, op) && !s.failed && !Step(s, op).failed
    ensures var a, b := Asks(Step(s, op)), ApplyAsked(Asks(s), Registered(s), op);
            (op.fd in a <==> op.fd in b) && (op.fd in a ==> a[op.fd] == b[op.fd])
  {
  }

  lemma OthersAsked(s: State, r: State, fd: Fd)
    requires Inv(s) && Inv(r) && OthersKept(s, r, fd)
    ensures forall g :: g != fd ==>
              (g in Asks(r) <==> g in Asks(s)) && (g in Asks(s) ==> Asks(r)[g] == Asks(s)[g])
  {
    forall g | g != fd && g in s.channels ensures Parked(r, g) <==> Parked(s, g) {
      assert Lookup(r, g) == Lookup(s, g);
    }
    forall g | g != fd && g in s.channels ensures r.channels[g].events == s.channels[g].events {
      assert Lookup(r, g) == Lookup(s, g);
    }
  }

  /** ... and one on a parked channel leaves it parked, when it should be asked about. */
  lemma TouchIsLost(s: State, op: Op)
    requires Inv(s) && TouchesParked(s, op) && !s.failed
    ensures op.fd !in Asks(Step(s, op)) && op.fd in ApplyAsked(Asks(s), Registered(s), op)
  {
  }

  lemma Untouched(ops: seq<Op>, k: nat)
    requires NeverTouchesParked(ops) && k < |ops|
    ensures !TouchesParked(Run(ops[..k]), ops[k])
  {
  }

  lemma NothingAsked(ops: seq<Op>)
    ensures Asks(Run(ops[..0])) == Asked(ops[..0]) && IdleIs(Run(ops[..0]), IdleSince(ops[..0]))
  {
  }

  lemma {:induction false} AsksUpTo(ops: seq<Op>, k: nat)
    requires NeverTouchesParked(ops) && k <= |ops| && !Run(ops[..k]).failed
    ensures Asks(Run(ops[..k])) == Asked(ops[..k])
  {
    hide *;
    if k == 0 {
      NothingAsked(ops);
    } else {
      OneMore(ops, k - 1);
      AsksUpTo(ops, k - 1);
      Untouched(ops, k - 1);
      StepAsks(Run(ops[..k - 1]), ops[k - 1]);
    }
  }

  /** Exactly when `poll` fails no assertion and is asked what it should be asked, empty masks
      included, all the way through: when no operation but removal is applied to a parked
      channel, and no channel is removed that was registered without interest and not
      operated on since. */
  lemma AsksExactlyWhenParkedIsLeft(ops: seq<Op>)
    ensures AsksThroughout(ops) <==> NeverTouchesParked(ops) && NoIdleRemoval(ops)
  {
    RunFailsExactlyWhen(ops);
    hide Asks, Asked, Run, TouchesParked, NoIdleRemoval;
    if NeverTouchesParked(ops) && NoIdleRemoval(ops) {
      forall k | 0 <= k <= |ops| ensures !Run(ops[..k]).failed && Asks(Run(ops[..k])) == Asked(ops[..k]) {
        if Run(ops[..k]).failed { PrefixFails(ops, k); }
        AsksUpTo(ops, k);
      }
    }
    if AsksThroughout(ops) {
      assert ops[..|ops|] == ops;
      forall k | 0 <= k < |ops| ensures !TouchesParked(Run(ops[..k]), ops[k]) {
        AskedMeansLeft(ops, k);
      }
    }
  }

  lemma AskedMeansLeft(ops: seq<Op>, k: nat)
    requires k < |ops| && !Run(ops[..k]).failed
    requires Asks(Run(ops[..k])) == Asked(ops[..k]) && Asks(Run(ops[..k + 1])) == Asked(ops[..k + 1])
    ensures !TouchesParked(Run(ops[..k]), ops[k])
  {
    hide *;
    OneMore(ops, k);
    if TouchesParked(Run(ops[..k]), ops[k]) {
      TouchIsLost(Run(ops[..k]), ops[k]);
    }
  }

  // ----- What poll listens to -----

  /** Exactly when no assertion fails and the descriptors in which there is interest are those
      of the registry, all the way through: when no operation gives interest back to a parked
      channel, and no channel is removed that was registered without interest and not
      operated on since. */
  lemma AgreesExactlyWhenNotRevived(ops: seq<Op>)
    ensures AgreesThroughout(ops) <==> NeverRevives(ops) && NoIdleRemoval(ops)
  {
    RunFailsExactlyWhen(ops);
    hide Run, ApplyAll, Listening, Watched, Registered, Revives, NoIdleRemoval;
    if NeverRevives(ops) && NoIdleRemoval(ops) {
      forall k | 0 <= k <= |ops|
        ensures !Run(ops[..k]).failed && Listening(Run(ops[..k])) == Watched(ApplyAll(ops[..k]))
      {
        if Run(ops[..k]).failed { PrefixFails(ops, k); }
        ParkedIdleUpTo(ops, k);
        ListensExactly(ops[..k]);
      }
    }
    if AgreesThroughout(ops) {
      assert ops[..|ops|] == ops;
      forall k | 0 <= k < |ops| ensures !Revives(Run(ops[..k]), ops[k]) {
        OneMore(ops, k);
        ListensExactly(ops[..k]);
        ListensExactly(ops[..k + 1]);
        ParkedIdleStep(Run(ops[..k]), ops[k]);
      }
    }
  }

  lemma ListensExactly(ops: seq<Op>)
    requires !Run(ops).failed
    ensures Listening(Run(ops)) == Watched(ApplyAll(ops)) <==> ParkedIdle(Run(ops))
  {
    RecordsRegistry(ops);
    AgreesWhenParkedIdle(Run(ops));
  }

  /** An operation leaves its channel with no interest and not parked exactly if it registers
      it without interest. */
  lemma UnparkedExactlyWhen(s: State, op: Op)
    requires Inv(s) && !s.failed && !op.Remove?
    ensures var r := Step(s, op);
            op.fd in r.channels
            && (r.channels[op.fd].events == NONE && !Parked(r, op.fd) <==>
                op.fd !in s.channels && NewMask(NONE, op) == NONE)
  {
    UpdateKeepsInv(s, op.fd, NewMask(MaskOf(Registered(s), op.fd), op));
  }
}

module Pollers {
  import opened Interests
  import Epoll
  import Poll

  /** The two pollers have one meaning exactly when no operation but removal is applied to a
      channel that poll has parked, and no channel is removed that was registered without
      interest and not operated on since: then, after every prefix of the operations, poll has
      failed no assertion, and both ask the kernel for the same descriptors with the same
      masks. */
  lemma SameMeaning(ops: seq<Op>)
    ensures (forall k :: 0 <= k <= |ops| ==>
               !Poll.Run(ops[..k]).failed && Poll.Asks(Poll.Run(ops[..k])) == Epoll.Run(ops[..k]).kernel)
            <==> Poll.NeverTouchesParked(ops) && NoIdleRemoval(ops)
  {
    Poll.AsksExactlyWhenParkedIsLeft(ops);
    forall k | 0 <= k <= |ops| ensures Epoll.Run(ops[..k]).kernel == Asked(ops[..k]) {
      Epoll.SimulatesRegistry(ops[..k]);
    }
    hide Epoll.Run, Poll.Run, Poll.Asks, Asked, Poll.NeverTouchesParked, NoIdleRemoval;
  }

  /** The same of the descriptors in which there is interest: they stay the same if no parked
      channel gets interest again. */
  lemma SameInterest(ops: seq<Op>)
    requires Poll.NeverRevives(ops) && NoIdleRemoval(ops)
    ensures !Poll.Run(ops).failed
    ensures Poll.Listening(Poll.Run(ops)) == Watched(Epoll.Run(ops).kernel) == Watched(ApplyAll(ops))
  {
    Epoll.SimulatesRegistry(ops);
    Poll.AgreesExactlyWhenNotRevived(ops);
    assert ops[..|ops|] == ops;
  }

  /** A channel registered without interest and removed: epoll carries the removal out, poll
      fails its assertion. */
  lemma IdleRemovalDiffers(fd: Fd)
    ensures var ops := [] + [DisableAll(fd)] + [Remove(fd)];
            && Poll.Run(ops).failed && Poll.NeverTouchesParked(ops)
            && fd !in Epoll.Run(ops).channels && Epoll.Run(ops).errors == 0
  {
    hide *;
    var a: seq<Op> := [] + [DisableAll(fd)];
    RunsSnoc([], DisableAll(fd));
    RunsSnoc(a, Remove(fd));
    IdleEntry(fd);
    EpollAddsAndRemoves(fd);
    NoneIsTouched(fd);
  }

  lemma NoneIsTouched(fd: Fd)
    ensures Poll.NeverTouchesParked([] + [DisableAll(fd)] + [Remove(fd)])
  {
    var ops := [] + [DisableAll(fd)] + [Remove(fd)];
    hide Poll.Step, Poll.Inv;
    forall k | 0 <= k < |ops| ensures !Poll.TouchesParked(Poll.Run(ops[..k]), ops[k]) {
      if k == 0 {
        assert ops[..0] == [];
      }
    }
  }

  lemma IdleEntry(fd: Fd)
    ensures Poll.Inv(Poll.EMPTY)
    ensures var s := Poll.Step(Poll.EMPTY, DisableAll(fd));
            Poll.Inv(s) && !s.failed && !Poll.Parked(s, fd) && Poll.Step(s, Remove(fd)).failed
  {
    Poll.StepKeepsOthers(Poll.EMPTY, DisableAll(fd));
  }

  lemma EpollAddsAndRemoves(fd: Fd)
    ensures var s := Epoll.Step(Epoll.Step(Epoll.EMPTY, DisableAll(fd)), Remove(fd));
            fd !in s.channels && s.errors == 0
  {
    var a := Epoll.Step(Epoll.EMPTY, DisableAll(fd));
    assert a.channels == map[fd := Epoll.Chan(NONE, Epoll.Added)] && a.kernel == map[fd := NONE];
  }

  /** Disabling twice, as a close followed by the destruction of a connection does: epoll is
      asked about the descriptor again, poll is not. */
  lemma SecondDisableDiffers(fd: Fd)
    ensures var ops := [] + [EnableReading(fd)] + [DisableAll(fd)] + [DisableAll(fd)];
            && fd in Epoll.Run(ops).kernel && Epoll.Run(ops).kernel[fd] == NONE
            && Poll.Parked(Poll.Run(ops), fd)
  {
    var a: seq<Op> := [] + [EnableReading(fd)];
    var b := a + [DisableAll(fd)];
    RunsSnoc([], EnableReading(fd));
    RunsSnoc(a, DisableAll(fd));
    RunsSnoc(b, DisableAll(fd));
    hide Epoll.Run, Poll.Run, Poll.Inv;
    EpollRelists(fd);
    PollParksTwice(fd);
  }

  lemma RunsSnoc(ops: seq<Op>, op: Op)
    ensures Epoll.Run([]) == Epoll.EMPTY && Poll.Run([]) == Poll.EMPTY
    ensures Epoll.Run(ops + [op]) == Epoll.Step(Epoll.Run(ops), op)
    ensures Poll.Run(ops + [op]) == Poll.Step(Poll.Run(ops), op)
  {
    assert (ops + [op])[..|ops|] == ops;
  }

  lemma EpollRelists(fd: Fd)
    ensures var s := Epoll.Step(Epoll.Step(Epoll.Step(Epoll.EMPTY, EnableReading(fd)), DisableAll(fd)), DisableAll(fd));
            fd in s.kernel && s.kernel[fd] == NONE
  {
    var a := Epoll.Step(Epoll.EMPTY, EnableReading(fd));
    assert a.channels == map[fd := Epoll.Chan(READ, Epoll.Added)] && a.kernel == map[fd := READ];
    var b := Epoll.Step(a, DisableAll(fd));
    assert b.channels == map[fd := Epoll.Chan(NONE, Epoll.Deleted)] && fd !in b.kernel;
  }

  lemma PollParksTwice(fd: Fd)
    ensures Poll.Inv(Poll.EMPTY)
    ensures var a := Poll.Step(Poll.EMPTY, EnableReading(fd));
            Poll.Inv(a)
            && var b := Poll.Step(a, DisableAll(fd));
            Poll.Inv(b) && Poll.Parked(Poll.Step(b, DisableAll(fd)), fd)
  {
    PollRegisters(fd);
    PollParks(fd);
    PollStaysParked(fd);
    hide Poll.Step, Poll.Inv;
  }

  function OneEntry(fd: Fd, stored: int, events: Mask): Poll.State {
    Poll.State([Poll.PollFd(stored, events)], map[fd := Poll.Chan(events, 0)], false)
  }

  lemma PollRegisters(fd: Fd)
    ensures Poll.Inv(Poll.EMPTY) && Poll.Step(Poll.EMPTY, EnableReading(fd)) == OneEntry(fd, fd, READ)
  {
    var none: Registry := map[];
    assert Poll.Registered(Poll.EMPTY) == none;
  }

  lemma PollParks(fd: Fd)
    ensures Poll.Inv(OneEntry(fd, fd, READ))
    ensures Poll.Step(OneEntry(fd, fd, READ), DisableAll(fd)) == OneEntry(fd, Poll.Park(fd), NONE)
  {
  }

  lemma PollStaysParked(fd: Fd)
    ensures Poll.Inv(OneEntry(fd, Poll.Park(fd), NONE))
    ensures Poll.Parked(Poll.Step(OneEntry(fd, Poll.Park(fd), NONE), DisableAll(fd)), fd)
    ensures fd !in Poll.Listening(Poll.Step(OneEntry(fd, Poll.Park(fd), NONE), EnableReading(fd)))
  {
  }

  /** Without that restriction even the interest differs: poll goes on ignoring a descriptor
      that epoll watches again. */
  lemma RevivedChannelIsLost(fd: Fd)
    ensures var ops := [] + [EnableReading(fd)] + [DisableAll(fd)] + [EnableReading(fd)];
            fd in Watched(Epoll.Run(ops).kernel) && fd !in Poll.Listening(Poll.Run(ops))
  {
    var a: seq<Op> := [] + [EnableReading(fd)];
    var b := a + [DisableAll(fd)];
    RunsSnoc([], EnableReading(fd));
    RunsSnoc(a, DisableAll(fd));
    RunsSnoc(b, EnableReading(fd));
    hide Epoll.Run, Poll.Run, Poll.Inv, Poll.Step;
    EpollWatchesAgain(fd);
    PollRegisters(fd);
    PollParks(fd);
    PollStaysParked(fd);
  }

  lemma EpollWatchesAgain(fd: Fd)
    ensures var parked := Epoll.Step(Epoll.Step(Epoll.EMPTY, EnableReading(fd)), DisableAll(fd));
            fd in Watched(Epoll.Step(parked, EnableReading(fd)).kernel)
  {
    var a := Epoll.Step(Epoll.EMPTY, EnableReading(fd));
    assert a.channels == map[fd := Epoll.Chan(READ, Epoll.Added)] && a.kernel == map[fd := READ];
    var b := Epoll.Step(a, DisableAll(fd));
    assert b.channels == map[fd := Epoll.Chan(NONE, Epoll.Deleted)] && fd !in b.kernel;
  }
}
