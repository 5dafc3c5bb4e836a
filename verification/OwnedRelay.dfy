/**
 The owned provider relay: which exchanges it owns, what cancels and settles them, and how it
 closes. HTTP emits the events; the relay reacts. Exchanges are numbered in order of arrival.
 */
module OwnedRelay {
  import opened Common

  /** The variables that one exchange's handlers share. */
  datatype Exchange = Exchange(
    handlerStarted: bool, handlerDone: bool,
    requestMade: bool, requestClosed: bool,
    responseArrived: bool, responseClosed: bool,
    cancelled: bool)

  /** `cancelling` is the microtask of `close()`; `awaiting` is the list of exchanges it waits for. */
  datatype State = State(
    exchanges: seq<Exchange>, owned: set<nat>,
    closing: bool, cancelling: bool, serverClosed: bool,
    awaiting: Option<set<nat>>, closed: Option<Result<nat, string>>)

  datatype Event =
    | Connect
    | StartHandler(id: nat)
    | Forward(id: nat, created: bool)
    | ReturnHandler(id: nat)
    | Respond(id: nat, accepted: bool)
    | CloseResponse(id: nat)
    | CloseRequest(id: nat)
    | Abort(id: nat)
    | Close
    | CancelAll
    | CloseServer
    | AwaitAll
    | ReturnClose

  const INITIAL: State := State([], {}, false, false, false, None, None)

  const NEW_EXCHANGE: Exchange := Exchange(false, false, false, true, false, true, false)

  predicate Settled(x: Exchange) { x.handlerDone && x.requestClosed && x.responseClosed }

  /** `finish`: a settled exchange is no longer owned. */
  function Finish(s: State, id: nat): State
    requires id < |s.exchanges|
  {
    if Settled(s.exchanges[id]) then s.(owned := s.owned - {id}) else s
  }

  function Put(s: State, id: nat, x: Exchange): State
    requires id < |s.exchanges|
  {
    s.(exchanges := s.exchanges[id := x])
  }

  function Cancel(s: State, id: nat): State
    requires id < |s.exchanges|
  {
    if s.exchanges[id].cancelled then s
    else Finish(Put(s, id, s.exchanges[id].(cancelled := true)), id)
  }

  /** The errors of `forward`. */
  function ForwardError(s: State, id: nat, created: bool): Option<string>
    requires id < |s.exchanges|
  {
    if s.closing || s.exchanges[id].cancelled then Some("provider relay is closing")
    else if s.exchanges[id].requestMade then Some("provider exchange already forwarded")
    else if !created then Some("request not created")
    else None
  }

  /** What Node can emit next. A response precedes the close of its request; a closed server accepts nothing. */
  predicate Possible(s: State, e: Event)
  {
    match e
    case Connect => !s.serverClosed
    case Close => true
    case CancelAll => s.closing && !s.cancelling
    case CloseServer => s.cancelling && !s.serverClosed
    case AwaitAll => s.serverClosed && s.awaiting.None?
    case ReturnClose => s.awaiting.Some? && s.closed.None? && s.awaiting.value !! s.owned
    case StartHandler(id) => id < |s.exchanges| && !s.exchanges[id].handlerStarted
    case Forward(id, _) => id < |s.exchanges| && s.exchanges[id].handlerStarted
    case ReturnHandler(id) =>
      id < |s.exchanges| && s.exchanges[id].handlerStarted && !s.exchanges[id].handlerDone
    case Respond(id, _) =>
      && id < |s.exchanges| && s.exchanges[id].requestMade
      && !s.exchanges[id].requestClosed && !s.exchanges[id].responseArrived
    case CloseResponse(id) =>
      id < |s.exchanges| && s.exchanges[id].responseArrived && !s.exchanges[id].responseClosed
    case CloseRequest(id) =>
      id < |s.exchanges| && s.exchanges[id].requestMade && !s.exchanges[id].requestClosed
    case Abort(id) => id < |s.exchanges|
  }

  /** A forward that succeeds although its handler has returned; nothing in `forward` looks at that. */
  predicate Escapes(s: State, e: Event)
  {
    && e.Forward? && e.id < |s.exchanges|
    && s.exchanges[e.id].handlerDone && ForwardError(s, e.id, e.created).None?
  }

  function Step(s: State, e: Event): State
    requires Possible(s, e)
  {
    match e
    case Connect =>
      var id := |s.exchanges|;
      var added := s.(exchanges := s.exchanges + [NEW_EXCHANGE], owned := s.owned + {id});
      if s.closing then Cancel(added, id) else added
    case StartHandler(id) => Put(s, id, s.exchanges[id].(handlerStarted := true))
    case Forward(id, created) =>
      if ForwardError(s, id, created).Some? then s
      else Put(s, id, s.exchanges[id].(requestMade := true, requestClosed := false))
    case ReturnHandler(id) => Finish(Put(s, id, s.exchanges[id].(handlerDone := true)), id)
    case Respond(id, accepted) =>
      var arrived := Put(s, id, s.exchanges[id].(responseArrived := true, responseClosed := false));
      if s.exchanges[id].cancelled || s.closing || !accepted then Cancel(arrived, id) else arrived
    case CloseResponse(id) => Finish(Put(s, id, s.exchanges[id].(responseClosed := true)), id)
    case CloseRequest(id) => Finish(Put(s, id, s.exchanges[id].(requestClosed := true)), id)
    case Abort(id) => Cancel(s, id)
    case Close => s.(closing := true)
    case CancelAll => CancelOwned(s.(cancelling := true), 0)
    case CloseServer => s.(serverClosed := true)
    case AwaitAll => s.(awaiting := Some(s.owned))
    case ReturnClose =>
      s.(closed := Some(if s.owned != {} then Err("owned provider requests did not settle") else Ok(0)))
  }

  /** The loop of `close()` over the owned exchanges, in order of arrival. */
  function CancelOwned(s: State, from: nat): State
    requires from <= |s.exchanges|
    decreases |s.exchanges| - from
  {
    if from == |s.exchanges| then s
    else
      var next := if from in s.owned then Cancel(s, from) else s;
      CancelOwned(next, from + 1)
  }

  /** A sequence of events that Node can emit. */
  ghost predicate Legal(s: State, events: seq<Event>)
    decreases |events|
  {
    events != [] ==> Possible(s, events[0]) && Legal(Step(s, events[0]), events[1..])
  }

  ghost function Run(s: State, events: seq<Event>): State
    requires Legal(s, events)
    decreases |events|
  {
    if events == [] then s else Run(Step(s, events[0]), events[1..])
  }

  // ---- the relay, updated in place ----

  class Relay {
    var exchanges: seq<Exchange>
    var owned: set<nat>
    var closing: bool
    var cancelling: bool
    var serverClosed: bool
    var awaiting: Option<set<nat>>
    var closed: Option<Result<nat, string>>

    ghost function Now(): State
      reads this
    {
      State(exchanges, owned, closing, cancelling, serverClosed, awaiting, closed)
    }

    constructor ()
      ensures Now() == INITIAL
    {
      exchanges, owned := [], {};
      closing, cancelling, serverClosed := false, false, false;
      awaiting, closed := None, None;
    }

    method FinishExchange(id: nat)
      requires id < |exchanges|
      modifies this
      ensures Now() == Finish(old(Now()), id)
    {
      var x := exchanges[id];
      if x.handlerDone && x.requestClosed && x.responseClosed { owned := owned - {id}; }
    }

    method CancelExchange(id: nat)
      requires id < |exchanges|
      modifies this
      ensures Now() == Cancel(old(Now()), id)
    {
      if exchanges[id].cancelled { return; }
      exchanges := exchanges[id := exchanges[id].(cancelled := true)];
      FinishExchange(id);
    }

    /** The listener of the server: own the exchange before its first asynchronous read. */
    method Accept() returns (id: nat)
      requires Possible(Now(), Connect)
      modifies this
      ensures Now() == Step(old(Now()), Connect) && id == old(|exchanges|)
    {
      id := |exchanges|;
      exchanges := exchanges + [NEW_EXCHANGE];
      owned := owned + {id};
      if closing { CancelExchange(id); }
    }

    method StartHandling(id: nat)
      requires Possible(Now(), StartHandler(id))
      modifies this
      ensures Now() == Step(old(Now()), StartHandler(id))
    {
      exchanges := exchanges[id := exchanges[id].(handlerStarted := true)];
    }

    method ForwardRequest(id: nat, created: bool) returns (r: Result<(), string>)
      requires Possible(Now(), Forward(id, created)) && Consistent(exchanges[id])
      modifies this
      ensures Now() == Step(old(Now()), Forward(id, created))
      ensures r.Ok? <==> ForwardError(old(Now()), id, created).None?
      ensures r.Err? ==> Now() == old(Now())
    {
      if closing || exchanges[id].cancelled { return Err("provider relay is closing"); }
      if exchanges[id].requestMade { return Err("provider exchange already forwarded"); }
      ghost var before := exchanges;
      exchanges := exchanges[id := exchanges[id].(requestClosed := false)];
      if !created {
        exchanges := exchanges[id := exchanges[id].(requestClosed := true)];
        assert exchanges == before;
        return Err("request not created");
      }
      exchanges := exchanges[id := exchanges[id].(requestMade := true)];
      r := Ok(());
    }

    method HandlerReturned(id: nat)
      requires Possible(Now(), ReturnHandler(id))
      modifies this
      ensures Now() == Step(old(Now()), ReturnHandler(id))
    {
      exchanges := exchanges[id := exchanges[id].(handlerDone := true)];
      FinishExchange(id);
    }

    /** The response callback of the upstream request. */
    method Responded(id: nat, accepted: bool)
      requires Possible(Now(), Respond(id, accepted))
      modifies this
      ensures Now() == Step(old(Now()), Respond(id, accepted))
    {
      exchanges := exchanges[id := exchanges[id].(responseArrived := true, responseClosed := false)];
      if exchanges[id].cancelled || closing {
        CancelExchange(id);
        return;
      }
      if !accepted { CancelExchange(id); }
    }

    method ResponseClosed(id: nat)
      requires Possible(Now(), CloseResponse(id))
      modifies this
      ensures Now() == Step(old(Now()), CloseResponse(id))
    {
      exchanges := exchanges[id := exchanges[id].(responseClosed := true)];
      FinishExchange(id);
    }

    method RequestClosed(id: nat)
      requires Possible(Now(), CloseRequest(id))
      modifies this
      ensures Now() == Step(old(Now()), CloseRequest(id))
    {
      exchanges := exchanges[id := exchanges[id].(requestClosed := true)];
      FinishExchange(id);
    }

    /** The microtask of `close()`: cancel everything that is owned. */
    method CancelEverything()
      requires Possible(Now(), CancelAll)
      modifies this
      ensures Now() == Step(old(Now()), CancelAll)
    {
      cancelling := true;
      for id := 0 to |exchanges|
        invariant |exchanges| == old(|exchanges|)
        invariant CancelOwned(Now(), id) == CancelOwned(old(Now()).(cancelling := true), 0)
      {
        if id in owned { CancelExchange(id); }
      }
    }

    method BeginClose()
      modifies this
      ensures Now() == Step(old(Now()), Close)
    {
      closing := true;
    }

    /** The server is closed: list what is still to settle. */
    method AwaitSettled()
      requires Possible(Now(), AwaitAll)
      modifies this
      ensures Now() == Step(old(Now()), AwaitAll)
    {
      awaiting := Some(owned);
    }

    /** Everything on that list has settled: the last check of `close()`, which cannot fail. */
    method FinishClose() returns (r: Result<nat, string>)
      requires Possible(Now(), ReturnClose) && Inv(Now())
      modifies this
      ensures Now() == Step(old(Now()), ReturnClose)
      ensures r == Ok(0) && owned == {}
    {
      assert owned == {};
      if owned != {} { r := Err("owned provider requests did not settle"); } else { r := Ok(0); }
      closed := Some(r);
    }
  }

  // ---- what is owned ----

  /** Nothing is open, and nothing answered, that was never made. */
  predicate Consistent(x: Exchange)
  {
    && (x.handlerDone ==> x.handlerStarted)
    && (!x.requestMade ==> x.requestClosed && !x.responseArrived)
    && (!x.responseArrived ==> x.responseClosed)
  }

  /** What is owned is not settled; and the phases of `close()` follow one another. */
  ghost predicate Inv(s: State)
  {
    && (forall id <- s.owned :: id < |s.exchanges| && !Settled(s.exchanges[id]))
    && (forall x <- s.exchanges :: Consistent(x))
    && (s.cancelling ==> s.closing) && (s.serverClosed ==> s.cancelling)
    && (s.cancelling ==> OwnedCancelled(s, |s.exchanges|))
    && (s.awaiting.Some? ==> s.serverClosed && s.owned <= s.awaiting.value)
    && (s.closed.Some? ==> s.awaiting.Some? && s.owned == {} && s.closed == Some(Ok(0)))
  }

  ghost predicate OwnedCancelled(s: State, below: nat)
  {
    forall id <- s.owned :: id < |s.exchanges| && id < below ==> s.exchanges[id].cancelled
  }

  /** One exchange changes, and is released if that settles it. */
  lemma PutKeeps(s: State, id: nat, x: Exchange)
    requires Inv(s) && id < |s.exchanges|
    requires Consistent(x) && (s.exchanges[id].cancelled ==> x.cancelled)
    ensures Inv(Finish(Put(s, id, x), id))
    ensures !Settled(x) ==> Finish(Put(s, id, x), id) == Put(s, id, x)
  {
    var s' := Finish(Put(s, id, x), id);
    forall y | y in s'.exchanges ensures Consistent(y) {
      assert y == x || y in s.exchanges;
    }
  }

  lemma CancelKeeps(s: State, id: nat)
    requires Inv(s) && id < |s.exchanges|
    ensures Inv(Cancel(s, id))
    ensures Cancel(s, id).owned == s.owned && |Cancel(s, id).exchanges| == |s.exchanges|
    ensures Cancel(s, id) == Put(s, id, s.exchanges[id].(cancelled := true))
  {
    var x := s.exchanges[id];
    assert x in s.exchanges;
    if x.cancelled {
      assert x == x.(cancelled := true) && s.exchanges == s.exchanges[id := x];
    } else {
      PutKeeps(s, id, x.(cancelled := true));
    }
  }

  lemma {:induction false} CancelOwnedKeeps(s: State, from: nat)
    requires Inv(s.(cancelling := false)) && from <= |s.exchanges| && OwnedCancelled(s, from)
    ensures var s' := CancelOwned(s, from);
            && s' == s.(exchanges := s'.exchanges) && |s'.exchanges| == |s.exchanges|
            && Inv(s'.(cancelling := false)) && OwnedCancelled(s', |s'.exchanges|)
    decreases |s.exchanges| - from
  {
    if from < |s.exchanges| {
      CancelKeeps(s.(cancelling := false), from);
      CancelOwnedKeeps(if from in s.owned then Cancel(s, from) else s, from + 1);
    }
  }

  lemma StepKeeps(s: State, e: Event)
    requires Inv(s) && Possible(s, e)
    ensures Inv(Step(s, e))
  {
    match e
    case Connect => ConnectKeeps(s);
    case StartHandler(id) => MemberKeeps(s, id); PutKeeps(s, id, s.exchanges[id].(handlerStarted := true));
    case Forward(id, created) =>
      MemberKeeps(s, id);
      if ForwardError(s, id, created).None? {
        PutKeeps(s, id, s.exchanges[id].(requestMade := true, requestClosed := false));
      }
    case ReturnHandler(id) => MemberKeeps(s, id); PutKeeps(s, id, s.exchanges[id].(handlerDone := true));
    case Respond(id, accepted) =>
      MemberKeeps(s, id);
      var x := s.exchanges[id].(responseArrived := true, responseClosed := false);
      PutKeeps(s, id, x);
      CancelKeeps(Put(s, id, x), id);
    case CloseResponse(id) => MemberKeeps(s, id); PutKeeps(s, id, s.exchanges[id].(responseClosed := true));
    case CloseRequest(id) => MemberKeeps(s, id); PutKeeps(s, id, s.exchanges[id].(requestClosed := true));
    case Abort(id) => CancelKeeps(s, id);
    case CancelAll => CancelOwnedKeeps(s.(cancelling := true), 0);
    case Close =>
    case CloseServer =>
    case AwaitAll =>
    case ReturnClose => assert s.owned == {};
  }

  lemma MemberKeeps(s: State, id: nat)
    requires Inv(s) && id < |s.exchanges|
    ensures Consistent(s.exchanges[id])
  {
    assert s.exchanges[id] in s.exchanges;
  }

  lemma ConnectKeeps(s: State)
    requires Inv(s) && !s.serverClosed
    ensures Inv(Step(s, Connect))
  {
    var id := |s.exchanges|;
    var added := s.(exchanges := s.exchanges + [NEW_EXCHANGE], owned := s.owned + {id});
    assert Inv(added.(cancelling := false));
    if s.closing {
      CancelKeeps(added.(cancelling := false), id);
      assert Cancel(added, id).exchanges == s.exchanges + [NEW_EXCHANGE.(cancelled := true)];
    }
  }

  lemma {:induction false} RunKeeps(s: State, events: seq<Event>)
    requires Inv(s) && Legal(s, events)
    ensures Inv(Run(s, events))
    decreases |events|
  {
    if events != [] {
      StepKeeps(s, events[0]);
      RunKeeps(Step(s, events[0]), events[1..]);
    }
  }

  /** What an event does to one exchange. */
  function Effect(s: State, e: Event, id: nat): Exchange
    requires id < |s.exchanges|
  {
    var x := s.exchanges[id];
    if e == StartHandler(id) then x.(handlerStarted := true)
    else if e.Forward? && e.id == id then
      if ForwardError(s, id, e.created).Some? then x else x.(requestMade := true, requestClosed := false)
    else if e == ReturnHandler(id) then x.(handlerDone := true)
    else if e.Respond? && e.id == id then
      x.(responseArrived := true, responseClosed := false, cancelled := x.cancelled || s.closing || !e.accepted)
    else if e == CloseResponse(id) then x.(responseClosed := true)
    else if e == CloseRequest(id) then x.(requestClosed := true)
    else if e == Abort(id) || (e.CancelAll? && id in s.owned) then x.(cancelled := true)
    else x
  }

  /** An event of one exchange. */
  predicate Concerns(e: Event) { Pays(e) || e.Forward? || e.Abort? }

  predicate SamePhase(s: State, s': State)
  {
    s'.closing == s.closing && s'.awaiting == s.awaiting && s'.closed == s.closed && s'.serverClosed == s.serverClosed
  }

  lemma PutAt(s: State, id: nat, x: Exchange)
    requires id < |s.exchanges|
    ensures Put(s, id, x).exchanges == Finish(Put(s, id, x), id).exchanges == s.exchanges[id := x]
    ensures SamePhase(s, Put(s, id, x)) && SamePhase(s, Finish(Put(s, id, x), id))
  {
  }

  lemma CancelAt(s: State, id: nat)
    requires id < |s.exchanges|
    ensures Cancel(s, id).exchanges == s.exchanges[id := s.exchanges[id].(cancelled := true)]
    ensures SamePhase(s, Cancel(s, id))
  {
    if s.exchanges[id].cancelled {
      assert s.exchanges == s.exchanges[id := s.exchanges[id].(cancelled := true)];
    }
  }

  /** An event of one exchange leaves all the others and the phase of the relay alone. */
  lemma OneEffect(s: State, e: Event)
    requires Possible(s, e) && Concerns(e)
    ensures Step(s, e).exchanges == s.exchanges[e.id := Effect(s, e, e.id)] && SamePhase(s, Step(s, e))
  {
    hide Settled, Finish, Put, Cancel;
    var id := e.id;
    var x := s.exchanges[id];
    if e.Respond? {
      var arrived := x.(responseArrived := true, responseClosed := false);
      PutAt(s, id, arrived);
      CancelAt(Put(s, id, arrived), id);
    } else if e.Abort? {
      CancelAt(s, id);
    } else {
      PutAt(s, id, Effect(s, e, id));
    }
  }

  lemma StepEffect(s: State, e: Event, id: nat)
    requires Possible(s, e) && id < |s.exchanges|
    ensures id < |Step(s, e).exchanges| && Step(s, e).exchanges[id] == Effect(s, e, id)
  {
    if Concerns(e) {
      OneEffect(s, e);
      hide Step;
    } else if e.CancelAll? {
      CancelOwnedEffect(s.(cancelling := true), 0, id);
    } else if e.Connect? {
      var added := s.(exchanges := s.exchanges + [NEW_EXCHANGE], owned := s.owned + {|s.exchanges|});
      CancelAt(added, |s.exchanges|);
    }
  }

  lemma {:induction false} CancelOwnedEffect(s: State, from: nat, id: nat)
    requires from <= |s.exchanges| && id < |s.exchanges|
    ensures |CancelOwned(s, from).exchanges| == |s.exchanges|
    ensures CancelOwned(s, from).exchanges[id] ==
            if from <= id && id in s.owned then s.exchanges[id].(cancelled := true) else s.exchanges[id]
    decreases |s.exchanges| - from
  {
    if from < |s.exchanges| {
      CancelOwnedEffect(if from in s.owned then Cancel(s, from) else s, from + 1, id);
    }
  }

  // ---- main results ----

  /** An exchange is owned exactly while its handler, request or response is open. */
  predicate Kept(s: State, id: nat)
  {
    id < |s.exchanges| ==> (id in s.owned <==> !Settled(s.exchanges[id]))
  }

  /** Which exchanges an event adds to the owned ones, and which it releases. */
  lemma OwnedAfter(s: State, e: Event)
    requires Inv(s) && Possible(s, e)
    ensures Step(s, e).owned ==
            if e.Connect? then s.owned + {|s.exchanges|}
            else if (e.ReturnHandler? || e.CloseResponse? || e.CloseRequest?) && Settled(Effect(s, e, e.id))
            then s.owned - {e.id} else s.owned
  {
    if e.Respond? {
      MemberKeeps(s, e.id);
      PutKeeps(s, e.id, s.exchanges[e.id].(responseArrived := true, responseClosed := false));
      CancelKeeps(Put(s, e.id, s.exchanges[e.id].(responseArrived := true, responseClosed := false)), e.id);
    } else if e.Abort? {
      CancelKeeps(s, e.id);
    } else if e.CancelAll? {
      CancelOwnedKeeps(s.(cancelling := true), 0);
    }
  }

  /** One event: ownership goes wrong exactly when the exchange escapes. */
  lemma KeptStep(s: State, e: Event, id: nat)
    requires Inv(s) && Possible(s, e) && Kept(s, id)
    ensures Kept(Step(s, e), id) <==> !(Escapes(s, e) && e.id == id)
  {
    OwnedAfter(s, e);
    if id < |s.exchanges| {
      MemberKeeps(s, id);
      StepEffect(s, e, id);
      hide Step, Inv, Possible;
    } else if e.Connect? {
      Newcomer(s);
    } else {
      SameExchanges(s, e);
    }
  }

  lemma Newcomer(s: State)
    requires Possible(s, Connect)
    ensures |Step(s, Connect).exchanges| == |s.exchanges| + 1
    ensures Step(s, Connect).exchanges[|s.exchanges|] == NEW_EXCHANGE.(cancelled := s.closing)
  {
  }

  lemma SameExchanges(s: State, e: Event)
    requires Possible(s, e) && !e.Connect?
    ensures |Step(s, e).exchanges| == |s.exchanges|
  {
    if Concerns(e) {
      OneEffect(s, e);
    } else if e.CancelAll? {
      CancelOwnedPhase(s.(cancelling := true), 0);
    }
  }

  /** The handler of the exchange never forwards successfully after it has returned. */
  ghost predicate Loyal(s: State, events: seq<Event>, id: nat)
    requires Legal(s, events)
    decreases |events|
  {
    events != [] ==> !(Escapes(s, events[0]) && events[0].id == id) && Loyal(Step(s, events[0]), events[1..], id)
  }

  /** At every moment of the run the exchange is owned exactly while it is open. */
  ghost predicate AlwaysKept(s: State, events: seq<Event>, id: nat)
    requires Legal(s, events)
    decreases |events|
  {
    Kept(s, id) && (events != [] ==> AlwaysKept(Step(s, events[0]), events[1..], id))
  }

  lemma {:induction false} KeptExactly(s: State, events: seq<Event>, id: nat)
    requires Inv(s) && Legal(s, events) && Kept(s, id)
    ensures AlwaysKept(s, events, id) <==> Loyal(s, events, id)
    ensures Loyal(s, events, id) ==> Kept(Run(s, events), id)
    decreases |events|
  {
    if events != [] {
      StepKeeps(s, events[0]);
      KeptStep(s, events[0], id);
      hide Inv, Kept, Step, Possible, Escapes;
      if Kept(Step(s, events[0]), id) {
        KeptExactly(Step(s, events[0]), events[1..], id);
      } else {
        NotKept(Step(s, events[0]), events[1..], id);
      }
    }
  }

  lemma NotKept(s: State, events: seq<Event>, id: nat)
    requires Legal(s, events) && !Kept(s, id)
    ensures !AlwaysKept(s, events, id)
  {
  }

  /**
   In any event order an exchange is owned exactly until its handler is done and its request and
   response are closed, if and only if its handler never forwards successfully after it has returned.
   */
  lemma OwnedUntilSettled(events: seq<Event>, id: nat)
    requires Legal(INITIAL, events)
    ensures AlwaysKept(INITIAL, events, id) <==> Loyal(INITIAL, events, id)
    ensures Loyal(INITIAL, events, id) ==> Kept(Run(INITIAL, events), id)
  {
    KeptExactly(INITIAL, events, id);
  }

  /** Once settled, an exchange stays settled and unowned, and no event changes more than its cancel flag. */
  lemma {:induction false} SettledForever(s: State, events: seq<Event>, id: nat)
    requires Inv(s) && Legal(s, events) && Loyal(s, events, id)
    requires id < |s.exchanges| && Settled(s.exchanges[id])
    ensures var s' := Run(s, events);
            && id < |s'.exchanges| && id !in s'.owned
            && s'.exchanges[id] == s.exchanges[id].(cancelled := s'.exchanges[id].cancelled)
    decreases |events|
  {
    if events != [] {
      var next := Step(s, events[0]);
      StepKeeps(s, events[0]);
      SettledStep(s, events[0], id);
      SettledForever(next, events[1..], id);
    }
  }

  lemma SettledStep(s: State, e: Event, id: nat)
    requires Inv(s) && Possible(s, e) && !(Escapes(s, e) && e.id == id)
    requires id < |s.exchanges| && Settled(s.exchanges[id])
    ensures id < |Step(s, e).exchanges|
    ensures Step(s, e).exchanges[id] == s.exchanges[id].(cancelled := Step(s, e).exchanges[id].cancelled)
  {
    hide Step, Inv, CancelOwned;
    MemberKeeps(s, id);
    StepEffect(s, e, id);
  }

  /** An exchange that escapes had settled; now it is open and not owned. */
  lemma LateForwardEscapes(s: State, e: Event)
    requires Inv(s) && Possible(s, e) && Escapes(s, e)
    ensures Settled(s.exchanges[e.id]) && e.id !in s.owned
    ensures var s' := Step(s, e); !Settled(s'.exchanges[e.id]) && e.id !in s'.owned
  {
    MemberKeeps(s, e.id);
  }

  lemma Ahead(s: State, e: Event, rest: seq<Event>)
    requires Possible(s, e) && Legal(Step(s, e), rest)
    ensures Legal(s, [e] + rest) && Run(s, [e] + rest) == Run(Step(s, e), rest)
    ensures forall id :: Loyal(s, [e] + rest, id) <==> !(Escapes(s, e) && e.id == id) && Loyal(Step(s, e), rest, id)
  {
    assert ([e] + rest)[1..] == rest;
  }

  const OPENED: Exchange := NEW_EXCHANGE.(handlerStarted := true, handlerDone := true)
  const ESCAPED: Exchange := OPENED.(requestMade := true, requestClosed := false)

  /** With nothing owned, `close()` goes through whatever is open. */
  lemma ClosesOverEscaped() returns (events: seq<Event>)
    ensures var s := State([ESCAPED], {}, false, false, false, None, None);
            && Legal(s, events)
            && Run(s, events) == State([ESCAPED], {}, true, true, true, Some({}), Some(Ok(0)))
  {
    var s0 := State([ESCAPED], {}, false, false, false, None, None);
    var s2 := s0.(closing := true, cancelling := true);
    assert CancelOwned(s2, 0) == s2;
    var s3 := s2.(serverClosed := true);
    var s4 := s3.(awaiting := Some({}));
    Ahead(s4, ReturnClose, []);
    Ahead(s3, AwaitAll, [ReturnClose] + []);
    Ahead(s2, CloseServer, [AwaitAll] + ([ReturnClose] + []));
    Ahead(s0.(closing := true), CancelAll, [CloseServer] + ([AwaitAll] + ([ReturnClose] + [])));
    Ahead(s0, Close, [CancelAll] + ([CloseServer] + ([AwaitAll] + ([ReturnClose] + []))));
    events := [Close] + ([CancelAll] + ([CloseServer] + ([AwaitAll] + ([ReturnClose] + []))));
  }

  /** It happens: the relay closes in good order while the request of an escaped exchange is open. */
  lemma EscapeHappens() returns (events: seq<Event>)
    ensures Legal(INITIAL, events) && !Loyal(INITIAL, events, 0)
    ensures var s := Run(INITIAL, events);
            |s.exchanges| == 1 && !s.exchanges[0].requestClosed && s.owned == {} && s.closed == Some(Ok(0))
  {
    var close := ClosesOverEscaped();
    var s1 := INITIAL.(exchanges := [NEW_EXCHANGE], owned := {0});
    var s2 := s1.(exchanges := [NEW_EXCHANGE.(handlerStarted := true)]);
    var s3 := INITIAL.(exchanges := [OPENED]);
    assert Step(INITIAL, Connect) == s1;
    assert Step(s1, StartHandler(0)) == s2;
    assert Step(s2, ReturnHandler(0)) == s3;
    assert Step(s3, Forward(0, true)) == INITIAL.(exchanges := [ESCAPED]);
    hide Step;
    Ahead(s3, Forward(0, true), close);
    Ahead(s2, ReturnHandler(0), [Forward(0, true)] + close);
    Ahead(s1, StartHandler(0), [ReturnHandler(0)] + ([Forward(0, true)] + close));
    events := [Connect] + ([StartHandler(0)] + ([ReturnHandler(0)] + ([Forward(0, true)] + close)));
    Ahead(INITIAL, Connect, [StartHandler(0)] + ([ReturnHandler(0)] + ([Forward(0, true)] + close)));
  }

  // ---- no forward after closing or cancelling ----

  predicate Barred(s: State, id: nat) { s.closing || (id < |s.exchanges| && s.exchanges[id].cancelled) }

  lemma BarredStep(s: State, e: Event, id: nat)
    requires Possible(s, e) && Barred(s, id)
    ensures Barred(Step(s, e), id)
    ensures id < |Step(s, e).exchanges| && Step(s, e).exchanges[id].requestMade ==>
              id < |s.exchanges| && s.exchanges[id].requestMade
  {
    hide Step;
    if id < |s.exchanges| {
      StepEffect(s, e, id);
      if s.closing { ClosingStays(s, e); }
    } else {
      NewcomerCancelled(s, e, id);
    }
  }

  lemma ClosingStays(s: State, e: Event)
    requires Possible(s, e) && s.closing
    ensures Step(s, e).closing
  {
    hide Settled, ForwardError;
    if e.CancelAll? { CancelOwnedPhase(s.(cancelling := true), 0); }
  }

  lemma {:induction false} CancelOwnedPhase(s: State, from: nat)
    requires from <= |s.exchanges|
    ensures |CancelOwned(s, from).exchanges| == |s.exchanges| && CancelOwned(s, from).closing == s.closing
    decreases |s.exchanges| - from
  {
    if from < |s.exchanges| { CancelOwnedPhase(if from in s.owned then Cancel(s, from) else s, from + 1); }
  }

  lemma NewcomerCancelled(s: State, e: Event, id: nat)
    requires Possible(s, e) && s.closing && id >= |s.exchanges|
    ensures Step(s, e).closing
    ensures id < |Step(s, e).exchanges| ==> !Step(s, e).exchanges[id].requestMade
  {
    hide Settled, ForwardError;
    if e.CancelAll? { CancelOwnedPhase(s.(cancelling := true), 0); }
  }

  /** A forward makes its request exactly if nothing bars it; otherwise it changes nothing. */
  lemma ForwardExactly(s: State, id: nat, created: bool)
    requires Possible(s, Forward(id, created))
    ensures var s', x := Step(s, Forward(id, created)), s.exchanges[id];
            if created && !s.closing && !x.cancelled && !x.requestMade
            then s' == s.(exchanges := s.exchanges[id := x.(requestMade := true, requestClosed := false)])
            else s' == s
  {
  }

  /** Once the relay is closing, or an exchange is cancelled, it makes no upstream request any more. */
  lemma {:induction false} NothingForwarded(s: State, events: seq<Event>, id: nat)
    requires Legal(s, events) && Barred(s, id)
    ensures id < |Run(s, events).exchanges| && Run(s, events).exchanges[id].requestMade ==>
              id < |s.exchanges| && s.exchanges[id].requestMade
    decreases |events|
  {
    if events != [] {
      BarredStep(s, events[0], id);
      NothingForwarded(Step(s, events[0]), events[1..], id);
    }
  }

  // ---- cancellation forces settlement ----

  /** What the surroundings still have to do for an exchange that can make no request any more. */
  function Debt(x: Exchange): nat
  {
    (if x.handlerDone then 0 else if x.handlerStarted then 1 else 2)
    + (if x.requestClosed then 0 else if x.responseArrived then 1 else 3)
    + (if x.responseClosed then 0 else 1)
  }

  function TotalDebt(exchanges: seq<Exchange>): nat
  {
    if exchanges == [] then 0 else Debt(exchanges[0]) + TotalDebt(exchanges[1..])
  }

  lemma {:induction false} DebtUpdate(exchanges: seq<Exchange>, id: nat, x: Exchange)
    requires id < |exchanges|
    ensures TotalDebt(exchanges[id := x]) + Debt(exchanges[id]) == TotalDebt(exchanges) + Debt(x)
  {
    var updated := exchanges[id := x];
    if id == 0 {
      assert updated[1..] == exchanges[1..];
    } else {
      assert updated[1..] == exchanges[1..][id - 1 := x];
      DebtUpdate(exchanges[1..], id - 1, x);
    }
  }

  lemma {:induction false} NoDebt(exchanges: seq<Exchange>)
    requires TotalDebt(exchanges) == 0
    ensures forall x <- exchanges :: Settled(x)
  {
    if exchanges != [] {
      NoDebt(exchanges[1..]);
      assert exchanges == [exchanges[0]] + exchanges[1..];
    }
  }

  /** The events that close a handler, a request or a response, or open the promised response. */
  predicate Pays(e: Event)
  {
    e.StartHandler? || e.ReturnHandler? || e.Respond? || e.CloseResponse? || e.CloseRequest?
  }

  /** For an exchange that is barred each such event lowers its debt; no other event of any kind raises it. */
  lemma CancelledPays(s: State, e: Event, id: nat)
    requires Inv(s) && Possible(s, e) && id < |s.exchanges| && Barred(s, id)
    ensures id < |Step(s, e).exchanges| && Barred(Step(s, e), id)
    ensures var before := Debt(s.exchanges[id]); var after := Debt(Step(s, e).exchanges[id]);
            if Pays(e) && e.id == id then after < before else after == before
  {
    hide Step, Inv, CancelOwned;
    MemberKeeps(s, id);
    BarredStep(s, e, id);
    StepEffect(s, e, id);
    if (Pays(e) || e.Forward?) && e.id == id {
      assert Step(s, e).exchanges[id] == Effect(s, e, id);
    }
  }

  /** An owned exchange always has such an event to come. */
  lemma OwnedHasDebt(s: State, id: nat) returns (e: Event)
    requires Inv(s) && id in s.owned
    ensures Debt(s.exchanges[id]) > 0
    ensures Pays(e) && e.id == id && Possible(s, e)
  {
    var x := s.exchanges[id];
    MemberKeeps(s, id);
    if !x.handlerDone {
      e := if x.handlerStarted then ReturnHandler(id) else StartHandler(id);
    } else {
      e := if !x.responseClosed then CloseResponse(id) else CloseRequest(id);
    }
  }

  // ---- close ----

  /** `close()` returns only with nothing owned, its error branch is never taken, and every loyal exchange is settled. */
  lemma CloseOwnsNothing(events: seq<Event>)
    requires Legal(INITIAL, events) && Run(INITIAL, events).closed.Some?
    ensures var s := Run(INITIAL, events);
            && s.closed == Some(Ok(0)) && s.owned == {}
            && forall id: nat :: id < |s.exchanges| && Loyal(INITIAL, events, id) ==> Settled(s.exchanges[id])
  {
    RunKeeps(INITIAL, events);
    var s := Run(INITIAL, events);
    forall id: nat | id < |s.exchanges| && Loyal(INITIAL, events, id) ensures Settled(s.exchanges[id]) {
      OwnedUntilSettled(events, id);
    }
  }

  /** The steps that bring `close()` nearer to its end once the server accepts no more connections. */
  function CloseDebt(s: State): nat
  {
    TotalDebt(s.exchanges) + (if s.awaiting.None? then 1 else 0) + (if s.closed.None? then 1 else 0)
  }

  predicate Advances(e: Event) { Pays(e) || e.AwaitAll? || e.ReturnClose? }

  lemma CloseAdvances(s: State, e: Event)
    requires Inv(s) && s.serverClosed && Possible(s, e)
    ensures Step(s, e).serverClosed
    ensures if Advances(e) then CloseDebt(Step(s, e)) < CloseDebt(s) else CloseDebt(Step(s, e)) == CloseDebt(s)
  {
    var s' := Step(s, e);
    if Pays(e) {
      CancelledPays(s, e, e.id);
      DebtUpdate(s.exchanges, e.id, s'.exchanges[e.id]);
      OneEffect(s, e);
    } else if e.Forward? || e.Abort? {
      OneEffect(s, e);
      DebtUpdate(s.exchanges, e.id, s'.exchanges[e.id]);
    }
  }

  function Advancing(events: seq<Event>): nat
  {
    if events == [] then 0 else (if Advances(events[0]) then 1 else 0) + Advancing(events[1..])
  }

  /** `close()` takes no more than its debt in steps, in any order and with any other events between. */
  lemma {:induction false} CloseBounded(s: State, events: seq<Event>)
    requires Inv(s) && s.serverClosed && Legal(s, events)
    ensures Advancing(events) <= CloseDebt(s)
    decreases |events|
  {
    if events != [] {
      StepKeeps(s, events[0]);
      CloseAdvances(s, events[0]);
      CloseBounded(Step(s, events[0]), events[1..]);
    }
  }

  /** Until it has returned one such step is possible, so `close()` returns. */
  lemma CloseAlwaysAStep(events: seq<Event>) returns (e: Event)
    requires Legal(INITIAL, events)
    requires Run(INITIAL, events).serverClosed && Run(INITIAL, events).closed.None?
    ensures var s := Run(INITIAL, events); Advances(e) && Possible(s, e)
  {
    RunKeeps(INITIAL, events);
    var s := Run(INITIAL, events);
    if s.awaiting.None? {
      e := AwaitAll;
    } else if id :| id in s.owned {
      e := OwnedHasDebt(s, id);
    } else {
      e := ReturnClose;
    }
  }
}
