/** Binding, serving and releasing the web listeners. */
module WebListeners {
  import opened Results
  import opened Sequences

  // ---------------------------------------------------------------- the outside world

  datatype Context = BindContext(address: string, vrf: string) | ServeContext(vrf: string)

  /** Errors that the outside world reports, the two rejections of the exporter, and their combinations. */
  datatype Error =
    | Foreign(code: int)
    | SystemdConflict(vrf: string)
    | VsockConflict(vrf: string, address: string)
    | Joined(errors: seq<Error>)
    | Wrapped(context: Context, cause: Error)

  /** A listener is named by its position in the address list. */
  datatype Listener = Listener(id: nat, address: string)

  datatype Action =
    | Opened(l: Listener)
    | OpenFailed(address: string)
    | Closed(l: Listener)
    | Served(ls: seq<Listener>)
    | Delegated

  /** What the calls would return; None stands for no error. */
  datatype World = World(open: Listener -> Option<Error>, close: Listener -> Option<Error>, serve: Option<Error>,
                         delegated: Option<Error>)

  datatype Request = Request(vrf: string, systemdSocket: bool, addresses: seq<string>)

  // ---------------------------------------------------------------- specification

  /** The listeners for the addresses, in order. */
  function ListenersFor(addresses: seq<string>): seq<Listener> {
    seq(|addresses|, i requires 0 <= i < |addresses| => Listener(i, addresses[i]))
  }

  /** The listeners that get opened: all up to the first that cannot be. */
  function Bound(w: World, wanted: seq<Listener>): seq<Listener> {
    if wanted == [] then []
    else if w.open(wanted[0]).Some? then []
    else [wanted[0]] + Bound(w, wanted[1..])
  }

  function ToOpened(l: Listener): Action { Opened(l) }
  function ToClosed(l: Listener): Action { Closed(l) }

  /** The errors of the closes that fail, in order. */
  function CloseErrors(w: World, ls: seq<Listener>): seq<Error> {
    if ls == [] then []
    else CloseErrors(w, ls[..|ls| - 1]) + match w.close(ls[|ls| - 1]) case None => [] case Some(e) => [e]
  }

  function JoinErrors(errors: seq<Error>): Option<Error> {
    if errors == [] then None else Some(Joined(errors))
  }

  function WithCloseErrors(e: Error, closeErrors: seq<Error>): Error {
    if closeErrors == [] then e else Joined([e, Joined(closeErrors)])
  }

  predicate IsVsock(address: string) {
    "vsock://" <= address
  }

  function FirstVsock(addresses: seq<string>): Option<string> {
    if addresses == [] then None else if IsVsock(addresses[0]) then Some(addresses[0]) else FirstVsock(addresses[1..])
  }

  function BindError(w: World, vrf: string, wanted: seq<Listener>): Option<Error> {
    var ls := Bound(w, wanted);
    if |ls| >= |wanted| then None
    else
      match w.open(wanted[|ls|])
      case None => None
      case Some(e) => Some(Wrapped(BindContext(wanted[|ls|].address, vrf), WithCloseErrors(e, CloseErrors(w, ls))))
  }

  function BindTrace(w: World, wanted: seq<Listener>): seq<Action> {
    var ls := Bound(w, wanted);
    Map(ToOpened, ls) + if |ls| >= |wanted| then [] else [OpenFailed(wanted[|ls|].address)] + Map(ToClosed, ls)
  }

  function ServeError(vrf: string, e: Error, closeErrors: seq<Error>): Error {
    if closeErrors == [] then e else Wrapped(ServeContext(vrf), WithCloseErrors(e, closeErrors))
  }

  /** The error of a whole serve call. */
  function Outcome(w: World, r: Request): Option<Error> {
    var wanted := ListenersFor(r.addresses);
    if r.vrf == "" then w.delegated
    else if r.systemdSocket then Some(SystemdConflict(r.vrf))
    else if FirstVsock(r.addresses).Some? then Some(VsockConflict(r.vrf, FirstVsock(r.addresses).value))
    else if BindError(w, r.vrf, wanted).Some? then BindError(w, r.vrf, wanted)
    else if w.serve.None? then None
    else Some(ServeError(r.vrf, w.serve.value, CloseErrors(w, wanted)))
  }

  /** What a whole serve call does to the outside world. */
  function Trace(w: World, r: Request): seq<Action> {
    var wanted := ListenersFor(r.addresses);
    if r.vrf == "" then [Delegated]
    else if r.systemdSocket || FirstVsock(r.addresses).Some? then []
    else if BindError(w, r.vrf, wanted).Some? then BindTrace(w, wanted)
    else Map(ToOpened, wanted) + [Served(wanted)] + if w.serve.None? then [] else Map(ToClosed, wanted)
  }

  // ---------------------------------------------------------------- the server

  class WebServer {
    const world: World

    /** Everything done to the outside world so far. */
    var log: seq<Action>

    constructor (world: World)
      ensures this.world == world && log == []
    {
      this.world := world;
      log := [];
    }

    method Listen(l: Listener) returns (error: Option<Error>)
      modifies this
      ensures error == world.open(l)
      ensures log == old(log) + [if error.None? then Opened(l) else OpenFailed(l.address)]
    {
      error := world.open(l);
      log := log + [if error.None? then Opened(l) else OpenFailed(l.address)];
    }

    method Close(l: Listener) returns (error: Option<Error>)
      modifies this
      ensures error == world.close(l)
      ensures log == old(log) + [Closed(l)]
    {
      error := world.close(l);
      log := log + [Closed(l)];
    }

    /** Closes every listener, whether or not earlier closes failed. */
    method CloseWebListeners(ls: seq<Listener>) returns (error: Option<Error>)
      modifies this
      ensures error == JoinErrors(CloseErrors(world, ls))
      ensures log == old(log) + Map(ToClosed, ls)
    {
      var errors := [];
      assert ls[..0] == [];
      for i := 0 to |ls|
        invariant errors == CloseErrors(world, ls[..i])
        invariant log == old(log) + Map(ToClosed, ls[..i])
      {
        TakeSnoc(ls, i);
        var failed := Close(ls[i]);
        if failed.Some? {
          errors := errors + [failed.value];
        }
      }
      assert ls[..|ls|] == ls;
      error := JoinErrors(errors);
    }

    method BindWebListeners(addresses: seq<string>, vrf: string) returns (outcome: Result<seq<Listener>, Error>)
      modifies this
      ensures log == old(log) + BindTrace(world, ListenersFor(addresses))
      ensures outcome == match BindError(world, vrf, ListenersFor(addresses))
                         case None => Success(ListenersFor(addresses))
                         case Some(e) => Failure(e)
    {
      ghost var wanted := ListenersFor(addresses);
      var listeners: seq<Listener> := [];
      for i := 0 to |addresses|
        invariant HasOpened(old(log), wanted, i, listeners)
      {
        var failure;
        failure, listeners := BindNext(old(log), wanted, i, vrf, listeners, addresses[i]);
        if failure.Some? {
          return Failure(failure.value);
        }
      }
      assert wanted[..|wanted|] == wanted;
      BindCompleted(world, vrf, wanted);
      outcome := Success(listeners);
    }

    /** Since the log was `start`, the first `i` listeners have been opened, and nothing else was done. */
    ghost predicate HasOpened(start: seq<Action>, wanted: seq<Listener>, i: nat, listeners: seq<Listener>)
      reads this
    {
      && i <= |wanted|
      && listeners == wanted[..i]
      && AllOpen(world, wanted[..i])
      && log == start + Map(ToOpened, listeners)
    }

    /** The body of the bind loop: opens the next listener, or releases the earlier ones. */
    method BindNext(ghost start: seq<Action>, ghost wanted: seq<Listener>, i: nat, vrf: string,
                    listeners: seq<Listener>, address: string)
      returns (failure: Option<Error>, listeners': seq<Listener>)
      requires i < |wanted| && wanted[i] == Listener(i, address) && HasOpened(start, wanted, i, listeners)
      modifies this
      ensures failure.None? ==> HasOpened(start, wanted, i + 1, listeners')
      ensures failure.Some? ==> log == start + BindTrace(world, wanted) && BindError(world, vrf, wanted) == failure
    {
      var listener := Listener(i, address);
      var error := Listen(listener);
      if error.Some? {
        var e := Abandon(start, wanted, i, vrf, listeners, address, error.value);
        return Some(e), listeners;
      }
      TakeSnoc(wanted, i);
      MapSnoc(ToOpened, wanted[..i + 1]);
      failure, listeners' := None, listeners + [listener];
    }

    /** Releases what was opened before a bind that failed. */
    method Abandon(ghost start: seq<Action>, ghost wanted: seq<Listener>, ghost i: nat, vrf: string,
                   listeners: seq<Listener>, address: string, e: Error)
      returns (failure: Error)
      requires i < |wanted| && listeners == wanted[..i] && AllOpen(world, wanted[..i])
           && world.open(wanted[i]) == Some(e)
      requires address == wanted[i].address
      requires log == start + Map(ToOpened, listeners) + [OpenFailed(wanted[i].address)]
      modifies this
      ensures log == start + BindTrace(world, wanted)
      ensures BindError(world, vrf, wanted) == Some(failure)
    {
      BindStopped(world, vrf, wanted, i);
      Reassociate(start, Map(ToOpened, listeners), [OpenFailed(wanted[i].address)], Map(ToClosed, listeners));
      var closeError := CloseWebListeners(listeners);
      failure := Wrapped(BindContext(address, vrf), if closeError.Some? then Joined([e, closeError.value]) else e);
    }

    method Serve(r: Request) returns (error: Option<Error>)
      modifies this
      ensures error == Outcome(world, r)
      ensures log == old(log) + Trace(world, r)
    {
      if r.vrf == "" {
        log := log + [Delegated];
        return world.delegated;
      }
      if r.systemdSocket {
        return Some(SystemdConflict(r.vrf));
      }
      for i := 0 to |r.addresses|
        invariant FirstVsock(r.addresses) == FirstVsock(r.addresses[i..])
        invariant log == old(log)
      {
        assert r.addresses[i..][1..] == r.addresses[i + 1..];
        if IsVsock(r.addresses[i]) {
          return Some(VsockConflict(r.vrf, r.addresses[i]));
        }
      }
      error := ServeBound(r);
    }

    /** The part of a serve call after the checks. */
    method ServeBound(r: Request) returns (error: Option<Error>)
      requires r.vrf != "" && !r.systemdSocket && FirstVsock(r.addresses).None?
      modifies this
      ensures error == Outcome(world, r)
      ensures log == old(log) + Trace(world, r)
    {
      ghost var start, wanted := log, ListenersFor(r.addresses);
      BoundTraces(world, r);
      Reassociate(start, Map(ToOpened, wanted), [Served(wanted)], Map(ToClosed, wanted));
      var bound := BindWebListeners(r.addresses, r.vrf);
      if bound.Failure? {
        return Some(bound.error);
      }
      log := log + [Served(bound.value)];
      if world.serve.None? {
        return None;
      }
      var closeError := CloseWebListeners(bound.value);
      if closeError.Some? {
        return Some(Wrapped(ServeContext(r.vrf), Joined([world.serve.value, closeError.value])));
      }
      error := world.serve;
    }
  }

  /** All of these listeners can be opened. */
  ghost predicate AllOpen(w: World, ls: seq<Listener>) {
    forall j :: 0 <= j < |ls| ==> w.open(ls[j]).None?
  }

  lemma {:induction false} BoundStops(w: World, wanted: seq<Listener>, i: nat)
    requires i < |wanted| && w.open(wanted[i]).Some?
    requires forall j :: 0 <= j < i ==> w.open(wanted[j]).None?
    ensures Bound(w, wanted) == wanted[..i]
  {
    if i > 0 {
      BoundStops(w, wanted[1..], i - 1);
    }
  }

  lemma BindStopped(w: World, vrf: string, wanted: seq<Listener>, i: nat)
    requires i < |wanted| && w.open(wanted[i]).Some?
    requires AllOpen(w, wanted[..i])
    ensures BindTrace(w, wanted) == Map(ToOpened, wanted[..i]) + [OpenFailed(wanted[i].address)]
         + Map(ToClosed, wanted[..i])
    ensures BindError(w, vrf, wanted) ==
      Some(Wrapped(BindContext(wanted[i].address, vrf),
                   WithCloseErrors(w.open(wanted[i]).value, CloseErrors(w, wanted[..i]))))
  {
    assert forall j :: 0 <= j < i ==> wanted[..i][j] == wanted[j];
    BoundStops(w, wanted, i);
  }

  lemma {:induction false} BoundAll(w: World, wanted: seq<Listener>)
    requires forall j :: 0 <= j < |wanted| ==> w.open(wanted[j]).None?
    ensures Bound(w, wanted) == wanted
  {
    if wanted != [] {
      BoundAll(w, wanted[1..]);
    }
  }

  lemma BindCompleted(w: World, vrf: string, wanted: seq<Listener>)
    requires AllOpen(w, wanted)
    ensures BindTrace(w, wanted) == Map(ToOpened, wanted) && BindError(w, vrf, wanted).None?
  {
    BoundAll(w, wanted);
  }

  lemma Reassociate(log: seq<Action>, a: seq<Action>, b: seq<Action>, c: seq<Action>)
    ensures log + a + b + c == log + (a + b + c)
    ensures log + a + b == log + (a + b)
  {
  }

  lemma BoundTraces(w: World, r: Request)
    requires r.vrf != "" && !r.systemdSocket && FirstVsock(r.addresses).None?
    ensures var wanted := ListenersFor(r.addresses);
            && (BindError(w, r.vrf, wanted).Some? ==> Trace(w, r) == BindTrace(w, wanted))
            && (BindError(w, r.vrf, wanted).None? ==>
                BindTrace(w, wanted) == Map(ToOpened, wanted)
                && Trace(w, r) == Map(ToOpened, wanted) + [Served(wanted)]
                                  + if w.serve.None? then [] else Map(ToClosed, wanted))
  {
    BoundOrStopped(w, ListenersFor(r.addresses));
  }

  /** Binding either opens everything, or stops at a listener that cannot be opened. */
  lemma {:induction false} BoundOrStopped(w: World, wanted: seq<Listener>)
    ensures Bound(w, wanted) <= wanted
    ensures |Bound(w, wanted)| < |wanted| ==> w.open(wanted[|Bound(w, wanted)|]).Some?
    ensures forall j :: 0 <= j < |Bound(w, wanted)| ==> w.open(wanted[j]).None?
  {
    if wanted != [] && w.open(wanted[0]).None? {
      BoundOrStopped(w, wanted[1..]);
    }
  }

  // ---------------------------------------------------------------- resource safety

  function Opens(l: Listener): Action -> bool { (a: Action) => a == Opened(l) }
  function Closes(l: Listener): Action -> bool { (a: Action) => a == Closed(l) }

  function Times(p: Action -> bool, trace: seq<Action>): nat {
    |Filter(p, trace)|
  }

  lemma TimesAppend(p: Action -> bool, a: seq<Action>, b: seq<Action>)
    ensures Times(p, a + b) == Times(p, a) + Times(p, b)
  {
    FilterAppend(p, a, b);
  }

  ghost predicate DistinctIds(ls: seq<Listener>) {
    forall i, j :: 0 <= i < j < |ls| ==> ls[i].id != ls[j].id
  }

  lemma {:induction false} TimesOpened(ls: seq<Listener>, l: Listener)
    requires DistinctIds(ls)
    ensures Times(Opens(l), Map(ToOpened, ls)) == (if l in ls then 1 else 0)
    ensures Times(Closes(l), Map(ToOpened, ls)) == 0
  {
    if ls != [] {
      var front := ls[..|ls| - 1];
      assert ls == front + [ls[|ls| - 1]];
      TimesOpened(front, l);
    }
  }

  lemma {:induction false} TimesClosed(ls: seq<Listener>, l: Listener)
    requires DistinctIds(ls)
    ensures Times(Closes(l), Map(ToClosed, ls)) == (if l in ls then 1 else 0)
    ensures Times(Opens(l), Map(ToClosed, ls)) == 0
  {
    if ls != [] {
      var front := ls[..|ls| - 1];
      assert ls == front + [ls[|ls| - 1]];
      TimesClosed(front, l);
    }
  }

  /** Opened, something in between that is neither, closed: each listener once. */
  lemma OpenedThenClosed(ls: seq<Listener>, between: Action, l: Listener)
    requires DistinctIds(ls) && !between.Opened? && !between.Closed?
    ensures Times(Opens(l), Map(ToOpened, ls) + [between] + Map(ToClosed, ls)) == (if l in ls then 1 else 0)
    ensures Times(Closes(l), Map(ToOpened, ls) + [between] + Map(ToClosed, ls)) == (if l in ls then 1 else 0)
  {
    TimesOpened(ls, l);
    TimesClosed(ls, l);
    TimesAppend(Opens(l), Map(ToOpened, ls), [between]);
    TimesAppend(Closes(l), Map(ToOpened, ls), [between]);
    TimesAppend(Opens(l), Map(ToOpened, ls) + [between], Map(ToClosed, ls));
    TimesAppend(Closes(l), Map(ToOpened, ls) + [between], Map(ToClosed, ls));
  }

  lemma BoundDistinct(w: World, addresses: seq<string>)
    ensures DistinctIds(ListenersFor(addresses)) && DistinctIds(Bound(w, ListenersFor(addresses)))
  {
    BoundOrStopped(w, ListenersFor(addresses));
  }

  /** Each listener is closed as often as it is opened, and at most once. */
  ghost predicate ReleasedOnce(trace: seq<Action>, l: Listener) {
    Times(Closes(l), trace) == Times(Opens(l), trace) <= 1
  }

  lemma BindReleases(w: World, wanted: seq<Listener>, l: Listener)
    requires DistinctIds(Bound(w, wanted)) && |Bound(w, wanted)| < |wanted|
    ensures ReleasedOnce(BindTrace(w, wanted), l)
  {
    var ls := Bound(w, wanted);
    OpenedThenClosed(ls, OpenFailed(wanted[|ls|].address), l);
    assert Map(ToOpened, ls) + ([OpenFailed(wanted[|ls|].address)] + Map(ToClosed, ls))
        == Map(ToOpened, ls) + [OpenFailed(wanted[|ls|].address)] + Map(ToClosed, ls);
  }

  lemma NothingReleased(trace: seq<Action>, l: Listener)
    requires trace == [] || trace == [Delegated]
    ensures ReleasedOnce(trace, l)
  {
    assert trace == [Delegated] ==> trace[..0] == [];
  }

  /**
   * No leak and no double close: when a serve call fails, each listener it opened is closed exactly once, however many
   * closes fail; a listener it did not open is never closed.
   */
  lemma FailureReleasesAll(w: World, r: Request, l: Listener)
    requires Outcome(w, r).Some?
    ensures Times(Closes(l), Trace(w, r)) == Times(Opens(l), Trace(w, r)) <= 1
  {
    var wanted := ListenersFor(r.addresses);
    if r.vrf == "" || r.systemdSocket || FirstVsock(r.addresses).Some? {
      NothingReleased(Trace(w, r), l);
    } else {
      BoundDistinct(w, r.addresses);
      BoundTraces(w, r);
      if BindError(w, r.vrf, wanted).Some? {
        BindReleases(w, wanted, l);
      } else {
        OpenedThenClosed(wanted, Served(wanted), l);
      }
    }
  }

  /**
   * When a serve call succeeds, it has opened one listener per address, in order, handed over exactly those, and closed
   * none.
   */
  lemma SuccessKeepsAll(w: World, r: Request)
    requires r.vrf != "" && Outcome(w, r).None?
    ensures var ls := ListenersFor(r.addresses);
            && |ls| == |r.addresses| && (forall i :: 0 <= i < |ls| ==> ls[i].address == r.addresses[i])
            && Trace(w, r) == Map(ToOpened, ls) + [Served(ls)]
            && (forall l :: Times(Closes(l), Trace(w, r)) == 0)
  {
    var ls := ListenersFor(r.addresses);
    BoundDistinct(w, r.addresses);
    forall l ensures Times(Closes(l), Trace(w, r)) == 0 {
      TimesOpened(ls, l);
      assert Trace(w, r) == Map(ToOpened, ls) + [Served(ls)];
      TimesAppend(Closes(l), Map(ToOpened, ls), [Served(ls)]);
      assert [Served(ls)][..0] == [] && !Closes(l)(Served(ls));
    }
  }

  // ---------------------------------------------------------------- no error is lost

  /** The basic errors inside an error, in order. */
  function Leaves(e: Error): seq<Error> {
    match e
    case Joined(errors) => LeavesOfAll(errors)
    case Wrapped(_, cause) => Leaves(cause)
    case _ => [e]
  }

  function LeavesOfAll(errors: seq<Error>): seq<Error> {
    if errors == [] then [] else Leaves(errors[0]) + LeavesOfAll(errors[1..])
  }

  lemma LeavesWithClose(e: Error, closeErrors: seq<Error>)
    ensures Leaves(WithCloseErrors(e, closeErrors)) == Leaves(e) + LeavesOfAll(closeErrors)
  {
    if closeErrors != [] {
      var both := [e, Joined(closeErrors)];
      assert both[1..] == [Joined(closeErrors)] && both[1..][1..] == [];
      assert LeavesOfAll(both[1..]) == Leaves(Joined(closeErrors)) + [];
    }
  }

  /** What went wrong first: the bind that failed, or else the serving. */
  function OriginalError(w: World, wanted: seq<Listener>): Option<Error> {
    var ls := Bound(w, wanted);
    if |ls| < |wanted| then w.open(wanted[|ls|]) else w.serve
  }

  /** The returned error carries the original error first, and then the error of every close that failed, in order. */
  lemma ErrorsCarried(w: World, r: Request)
    requires r.vrf != "" && !r.systemdSocket && FirstVsock(r.addresses).None? && Outcome(w, r).Some?
    ensures var wanted := ListenersFor(r.addresses);
            && OriginalError(w, wanted).Some?
            && Leaves(Outcome(w, r).value)
                == Leaves(OriginalError(w, wanted).value) + LeavesOfAll(CloseErrors(w, Bound(w, wanted)))
  {
    var wanted := ListenersFor(r.addresses);
    var ls := Bound(w, wanted);
    BoundOrStopped(w, wanted);
    if |ls| < |wanted| {
      LeavesWithClose(w.open(wanted[|ls|]).value, CloseErrors(w, ls));
    } else {
      assert ls == wanted;
      LeavesWithClose(w.serve.value, CloseErrors(w, ls));
    }
  }

  lemma OwnTrace(w: World, r: Request)
    requires r.vrf != "" && Trace(w, r) != []
    ensures Trace(w, r)[0] != Delegated
  {
    var wanted := ListenersFor(r.addresses);
    BoundOrStopped(w, wanted);
    if BindError(w, r.vrf, wanted).Some? {
      assert Bound(w, wanted) == [] ==> Map(ToOpened, Bound(w, wanted)) == [];
    } else {
      assert wanted == [] ==> Map(ToOpened, wanted) == [];
    }
  }

  /**
   * A request without a VRF, and no other, is handed over as it is. One with a VRF is turned away untouched exactly
   * when it asks for a systemd socket or a vsock address.
   */
  lemma RejectedUntouched(w: World, r: Request)
    ensures Trace(w, r) == [Delegated] <==> r.vrf == ""
    ensures r.vrf == "" ==> Outcome(w, r) == w.delegated
    ensures r.vrf != "" && r.systemdSocket ==> Outcome(w, r) == Some(SystemdConflict(r.vrf))
    ensures Trace(w, r) == [] <==>
      r.vrf != "" && (r.systemdSocket || exists i :: 0 <= i < |r.addresses| && "vsock://" <= r.addresses[i])
  {
    VsockFound(r.addresses);
    BoundOrStopped(w, ListenersFor(r.addresses));
    if r.vrf != "" && Trace(w, r) != [] {
      OwnTrace(w, r);
    }
  }

  /** A request turned away for a vsock address names the first one. */
  lemma VsockRejected(w: World, r: Request, i: nat)
    requires r.vrf != "" && !r.systemdSocket && i < |r.addresses|
    requires "vsock://" <= r.addresses[i] && forall j :: 0 <= j < i ==> !("vsock://" <= r.addresses[j])
    ensures Outcome(w, r) == Some(VsockConflict(r.vrf, r.addresses[i]))
  {
    VsockFirst(r.addresses, i);
  }

  lemma {:induction false} VsockFirst(addresses: seq<string>, i: nat)
    requires i < |addresses| && IsVsock(addresses[i]) && forall j :: 0 <= j < i ==> !IsVsock(addresses[j])
    ensures FirstVsock(addresses) == Some(addresses[i])
  {
    if i > 0 {
      assert !IsVsock(addresses[0]);
      VsockFirst(addresses[1..], i - 1);
    }
  }

  /** A failed bind is reported with the address that could not be opened and the VRF. */
  lemma BindFailureNamed(w: World, r: Request, i: nat)
    requires r.vrf != "" && !r.systemdSocket && FirstVsock(r.addresses).None? && i < |r.addresses|
    requires var wanted := ListenersFor(r.addresses);
             w.open(wanted[i]).Some? && forall j :: 0 <= j < i ==> w.open(wanted[j]).None?
    ensures Outcome(w, r).Some? && Outcome(w, r).value.Wrapped?
    ensures Outcome(w, r).value.context == BindContext(r.addresses[i], r.vrf)
  {
    BindStopped(w, r.vrf, ListenersFor(r.addresses), i);
  }

  lemma {:induction false} VsockFound(addresses: seq<string>)
    ensures FirstVsock(addresses).Some? <==> exists i :: 0 <= i < |addresses| && IsVsock(addresses[i])
  {
    if addresses != [] {
      VsockFound(addresses[1..]);
      if IsVsock(addresses[0]) {
      } else if exists i :: 0 <= i < |addresses| && IsVsock(addresses[i]) {
        var i :| 0 <= i < |addresses| && IsVsock(addresses[i]);
        assert addresses[1..][i - 1] == addresses[i];
      } else {
        forall i | 0 <= i < |addresses[1..]| ensures !IsVsock(addresses[1..][i]) {
          assert addresses[1..][i] == addresses[i + 1];
        }
      }
    }
  }
}
