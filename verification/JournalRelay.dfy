/**
 The journaling chat relay: every request and response event is written to the journal before
 its bytes are forwarded. HTTP emits the events, in any order; the relay reacts to each at once.
 */
module JournalRelay {
  import opened Common

  type Bytes = seq<bv8>

  datatype Kind =
    | RequestStart
    | RequestChunk(data: Bytes)
    | RequestEnd
    | ResponseStart(status: nat)
    | ResponseChunk(data: Bytes)
    | ResponseEnd
    | Incomplete(reason: string)

  datatype Entry = Entry(requestId: nat, kind: Kind)

  /** Where the asynchronous handler of a request is. */
  datatype Progress = Reading | BeforeForward | Sent | Returned

  /** The variables of one request. `outbox` is a journaled chunk not yet written to the child. */
  datatype Request = Request(
    progress: Progress, responding: bool, upstreamEnded: bool, ended: bool, captureComplete: bool,
    outbox: Option<Bytes>, forwarded: seq<Bytes>)

  datatype State = State(sequence: nat, requests: map<nat, Request>, active: set<nat>, journal: seq<Entry>)

  datatype Event =
    | Arrive
    | ReadChunk(id: nat, data: Bytes)
    | ReadEnd(id: nat, validJson: bool, allowed: bool, hook: bool)
    | HookReturns(id: nat, ok: bool)
    | Respond(id: nat, status: nat)
    | Data(id: nat, data: Bytes)
    | Deliver(id: nat)
    | UpstreamEnd(id: nat, thrown: bool)
    | ChildFinish(id: nat)
    | ChildClose(id: nat, finished: bool)
    | Fail(id: nat, reason: string)
    | Seal(reason: string)

  const INITIAL: State := State(0, map[], {}, [])

  const NEW_REQUEST: Request := Request(Reading, false, false, false, false, None, [])

  function Append(s: State, id: nat, kind: Kind): State
  {
    s.(journal := s.journal + [Entry(id, kind)])
  }

  function Put(s: State, id: nat, r: Request): State
  {
    s.(requests := s.requests[id := r])
  }

  /** `finishError`: the first one wins. */
  function FinishError(s: State, id: nat, reason: string): (s': State)
    requires id in s.requests
    ensures s'.requests.Keys == s.requests.Keys
  {
    var r := s.requests[id];
    if r.ended then s
    else Append(Put(s, id, r.(ended := true)), id, Incomplete(reason)).(active := s.active - {id})
  }

  /** The loop of `sealPending` over a list of requests. */
  function SealAll(s: State, ids: seq<nat>, reason: string): State
    requires forall id <- ids :: id in s.requests
    decreases |ids|
  {
    if ids == [] then s else SealAll(FinishError(s, ids[0], reason), ids[1..], reason)
  }

  /** The active requests in order of arrival. */
  function Pending(s: State, from: nat): (ids: seq<nat>)
    requires from <= s.sequence + 1
    ensures forall id: nat :: id in ids <==> id in s.active && from <= id <= s.sequence
    decreases s.sequence + 1 - from
  {
    if from > s.sequence then []
    else if from in s.active then [from] + Pending(s, from + 1)
    else Pending(s, from + 1)
  }

  /** What can happen next; while a chunk is journaled but not written nothing else runs. */
  predicate Possible(s: State, e: Event)
  {
    if e.Deliver? then e.id in s.requests && s.requests[e.id].outbox.Some?
    else
      && (forall id <- s.requests :: s.requests[id].outbox.None?)
      && match e
         case Arrive => true
         case Seal(_) => forall id <- s.active :: id in s.requests
         case ReadChunk(id, _) => id in s.requests && s.requests[id].progress == Reading
         case ReadEnd(id, _, _, _) => id in s.requests && s.requests[id].progress == Reading
         case HookReturns(id, _) => id in s.requests && s.requests[id].progress == BeforeForward
         case Respond(id, _) => id in s.requests && s.requests[id].progress == Sent && !s.requests[id].responding
         case Data(id, _) => id in s.requests && s.requests[id].responding
         case UpstreamEnd(id, _) => id in s.requests && s.requests[id].responding
         case ChildFinish(id) => id in s.requests
         case ChildClose(id, _) => id in s.requests
         case Fail(id, _) => id in s.requests
         case Deliver(_) => true
  }

  function Step(s: State, e: Event): State
    requires Possible(s, e)
  {
    match e
    case Arrive =>
      var id := s.sequence + 1;
      Append(Put(s, id, NEW_REQUEST).(sequence := id, active := s.active + {id}), id, RequestStart)
    case ReadChunk(id, data) =>
      var r := s.requests[id];
      if r.ended then Put(s, id, r.(progress := Returned)) else Append(s, id, RequestChunk(data))
    case ReadEnd(id, validJson, allowed, hook) =>
      var r := s.requests[id];
      var returned := Put(s, id, r.(progress := Returned));
      if r.ended then returned
      else if !validJson then FinishError(returned, id, "INVALID_PROVIDER_REQUEST_JSON")
      else if !allowed then FinishError(Append(returned, id, RequestEnd), id, "OUT_OF_SCOPE provider request")
      else Append(Put(s, id, r.(progress := if hook then BeforeForward else Sent)), id, RequestEnd)
    case HookReturns(id, ok) =>
      var r := s.requests[id];
      if ok then Put(s, id, r.(progress := Sent))
      else FinishError(Put(s, id, r.(progress := Returned)), id, "PROVIDER_RELAY_ERROR")
    case Respond(id, status) =>
      var r := s.requests[id];
      if r.ended then s else Append(Put(s, id, r.(responding := true)), id, ResponseStart(status))
    case Data(id, data) =>
      var r := s.requests[id];
      if r.ended then s else Append(Put(s, id, r.(outbox := Some(data))), id, ResponseChunk(data))
    case Deliver(id) =>
      var r := s.requests[id];
      Put(s, id, r.(outbox := None, forwarded := r.forwarded + [r.outbox.value]))
    case UpstreamEnd(id, thrown) =>
      var r := s.requests[id];
      if r.ended then s
      else
        var ended := Put(s, id, r.(upstreamEnded := true));
        if thrown then FinishError(ended, id, "CHILD_RESPONSE_END_ERROR") else ended
    case ChildFinish(id) =>
      var r := s.requests[id];
      if r.ended then s
      else if !r.upstreamEnded then FinishError(s, id, "CHILD_RESPONSE_FINISHED_EARLY")
      else
        Append(Put(s, id, r.(ended := true, captureComplete := true)), id, ResponseEnd).(active := s.active - {id})
    case ChildClose(id, finished) => if finished then s else FinishError(s, id, "CHILD_RESPONSE_CLOSED")
    case Fail(id, reason) => FinishError(s, id, reason)
    case Seal(reason) => SealAll(s, Pending(s, 0), reason)
  }

  ghost predicate Legal(s: State, events: seq<Event>)
    decreases |events|
  {
    events != [] ==> Possible(s, events[0]) && Legal(Step(s, events[0]), events[1..])
  }

  ghost function Run(s: State, events: seq<Event>): State
    requires Legal(s, events)
    decreases |events|
  {
    if events == [] then s else Run(Step(s, events[0]), events[1..])
  }

  // ---- the journal of one request ----

  function Of(journal: seq<Entry>, id: nat): seq<Kind>
  {
    if journal == [] then []
    else
      var last := journal[|journal| - 1];
      var front := Of(journal[..|journal| - 1], id);
      if last.requestId == id then front + [last.kind] else front
  }

  /** The stages of a request in the order the journal must show them. */
  datatype Stage = Absent | Started | Requested | Responding | Complete | Broken

  function Next(stage: Stage, kind: Kind): Option<Stage>
  {
    match (stage, kind)
    case (Absent, RequestStart) => Some(Started)
    case (Started, RequestChunk(_)) => Some(Started)
    case (Started, RequestEnd) => Some(Requested)
    case (Requested, ResponseStart(_)) => Some(Responding)
    case (Responding, ResponseChunk(_)) => Some(Responding)
    case (Responding, ResponseEnd) => Some(Complete)
    case (Started, Incomplete(_)) => Some(Broken)
    case (Requested, Incomplete(_)) => Some(Broken)
    case (Responding, Incomplete(_)) => Some(Broken)
    case _ => None
  }

  /** The stage that a request's journal entries lead to, if they are in an allowed order. */
  function StageOf(kinds: seq<Kind>): Option<Stage>
  {
    if kinds == [] then Some(Absent)
    else
      match StageOf(kinds[..|kinds| - 1])
      case None => None
      case Some(stage) => Next(stage, kinds[|kinds| - 1])
  }

  predicate Terminal(kind: Kind) { kind.ResponseEnd? || kind.Incomplete? }

  function ResponseChunks(kinds: seq<Kind>): seq<Bytes>
  {
    if kinds == [] then []
    else
      var last := kinds[|kinds| - 1];
      var front := ResponseChunks(kinds[..|kinds| - 1]);
      if last.ResponseChunk? then front + [last.data] else front
  }

  // ---- invariant ----

  /** The journal agrees with the variables of the request. */
  ghost predicate Agrees(r: Request, kinds: seq<Kind>)
  {
    && (match StageOf(kinds)
        case None => false
        case Some(stage) =>
          && (r.ended <==> stage == Complete || stage == Broken)
          && (r.captureComplete <==> stage == Complete)
          && (!r.ended ==>
                && stage == (if r.responding then Responding
                             else if r.progress == BeforeForward || r.progress == Sent then Requested
                             else Started)
                && (r.progress == Reading || r.progress == BeforeForward || r.progress == Sent)))
    && (r.responding ==> r.progress == Sent)
    && (r.upstreamEnded ==> r.responding)
    && ResponseChunks(kinds) == r.forwarded + (if r.outbox.Some? then [r.outbox.value] else [])
  }

  ghost predicate Inv(s: State)
  {
    && (forall id: nat :: id in s.requests <==> 1 <= id <= s.sequence)
    && (forall id: nat :: id in s.active <==> id in s.requests && !s.requests[id].ended)
    && (forall id: nat :: id in s.requests ==> Agrees(s.requests[id], Of(s.journal, id)))
    && (forall id: nat :: id !in s.requests ==> Of(s.journal, id) == [])
  }

  lemma OfAppend(journal: seq<Entry>, id: nat, kind: Kind, other: nat)
    ensures Of(journal + [Entry(id, kind)], other) ==
            if id == other then Of(journal, other) + [kind] else Of(journal, other)
  {
    var longer := journal + [Entry(id, kind)];
    assert longer[..|longer| - 1] == journal;
  }

  lemma KindsAppend(kinds: seq<Kind>, kind: Kind)
    ensures StageOf(kinds + [kind]) == match StageOf(kinds) case None => None case Some(stage) => Next(stage, kind)
    ensures ResponseChunks(kinds + [kind]) ==
            ResponseChunks(kinds) + (if kind.ResponseChunk? then [kind.data] else [])
  {
    var longer := kinds + [kind];
    assert longer[..|longer| - 1] == kinds;
  }

  /** One request changes, perhaps with one more journal entry: enough to check that request. */
  lemma Updates(s: State, s': State, id: nat)
    requires Inv(s) && id in s.requests
    requires id in s'.requests && s'.requests == s.requests[id := s'.requests[id]] && s'.sequence == s.sequence
    requires s'.active == if s'.requests[id].ended then s.active - {id} else s.active
    requires s.requests[id].ended ==> s'.requests[id].ended
    requires s'.journal == s.journal || (exists kind :: s'.journal == s.journal + [Entry(id, kind)])
    requires Agrees(s'.requests[id], Of(s'.journal, id))
    ensures Inv(s')
  {
    hide Agrees, Of;
    OthersUnread(s, s', id);
    assert s'.requests.Keys == s.requests.Keys;
    forall other: nat | other in s'.requests ensures Agrees(s'.requests[other], Of(s'.journal, other)) {
      if other != id { assert s'.requests[other] == s.requests[other]; }
    }
  }

  lemma OthersUnread(s: State, s': State, id: nat)
    requires s'.journal == s.journal || (exists kind :: s'.journal == s.journal + [Entry(id, kind)])
    ensures forall other: nat | other != id :: Of(s'.journal, other) == Of(s.journal, other)
  {
    hide Of;
    if s'.journal != s.journal {
      var kind :| s'.journal == s.journal + [Entry(id, kind)];
      forall other: nat | other != id ensures Of(s'.journal, other) == Of(s.journal, other) {
        OfAppend(s.journal, id, kind, other);
      }
    }
  }

  lemma FinishErrorKeeps(s: State, id: nat, reason: string)
    requires Inv(s) && id in s.requests && s.requests[id].outbox.None?
    ensures Inv(FinishError(s, id, reason))
  {
    if !s.requests[id].ended {
      OfAppend(s.journal, id, Incomplete(reason), id);
      KindsAppend(Of(s.journal, id), Incomplete(reason));
      Updates(s, FinishError(s, id, reason), id);
    }
  }

  lemma PutKeeps(s: State, id: nat, r: Request)
    requires Inv(s) && id in s.requests && Agrees(r, Of(s.journal, id)) && r.ended == s.requests[id].ended
    ensures Inv(Put(s, id, r))
  {
    Updates(s, Put(s, id, r), id);
  }

  lemma RecordKeeps(s: State, id: nat, r: Request, kind: Kind)
    requires Inv(s) && id in s.requests && r.ended == s.requests[id].ended
    requires Agrees(r, Of(s.journal, id) + [kind])
    ensures Inv(Append(Put(s, id, r), id, kind))
  {
    OfAppend(s.journal, id, kind, id);
    assert s.requests[id].ended ==> s.active - {id} == s.active;
    hide Inv, Agrees, Of;
    var s' := Append(Put(s, id, r), id, kind);
    assert s'.journal == s.journal + [Entry(id, kind)];
    Updates(s, s', id);
  }

  lemma ArriveKeeps(s: State)
    requires Inv(s) && Possible(s, Arrive)
    ensures Inv(Step(s, Arrive))
  {
    var id := s.sequence + 1;
    var s' := Step(s, Arrive);
    KindsAppend([], RequestStart);
    assert [] + [RequestStart] == [RequestStart];
    forall other: nat
      ensures Of(s'.journal, other) == if other == id then [RequestStart] else Of(s.journal, other)
    {
      OfAppend(s.journal, id, RequestStart, other);
    }
    assert Agrees(NEW_REQUEST, [RequestStart]);
    hide Agrees;
  }

  /** The relay gives up on a request: its last variables do not matter, its entries do. */
  lemma BreakKeeps(s: State, id: nat, r: Request, reason: string)
    requires Inv(s) && id in s.requests && !s.requests[id].ended && s.requests[id].outbox.None?
    requires r == s.requests[id].(progress := r.progress, upstreamEnded := r.upstreamEnded)
    requires (r.responding ==> r.progress == Sent) && (r.upstreamEnded ==> r.responding)
    ensures Inv(FinishError(Put(s, id, r), id, reason))
  {
    OfAppend(s.journal, id, Incomplete(reason), id);
    KindsAppend(Of(s.journal, id), Incomplete(reason));
    Updates(s, FinishError(Put(s, id, r), id, reason), id);
  }

  lemma ReadEndKeeps(s: State, id: nat, validJson: bool, allowed: bool, hook: bool)
    requires Inv(s) && Possible(s, ReadEnd(id, validJson, allowed, hook))
    ensures Inv(Step(s, ReadEnd(id, validJson, allowed, hook)))
  {
    var r := s.requests[id];
    KindsAppend(Of(s.journal, id), RequestEnd);
    if r.ended {
      PutKeeps(s, id, r.(progress := Returned));
    } else if !validJson {
      BreakKeeps(s, id, r.(progress := Returned), "INVALID_PROVIDER_REQUEST_JSON");
    } else {
      var next := r.(progress := if hook then BeforeForward else Sent);
      RecordKeeps(s, id, next, RequestEnd);
      if !allowed { RejectKeeps(s, id, next); }
    }
  }

  lemma RejectKeeps(s: State, id: nat, next: Request)
    requires id in s.requests && !next.ended && next.outbox.None? && !next.responding && !next.upstreamEnded
    requires next == s.requests[id].(progress := next.progress)
    requires Inv(Append(Put(s, id, next), id, RequestEnd))
    ensures Inv(FinishError(Append(Put(s, id, s.requests[id].(progress := Returned)), id, RequestEnd), id,
                            "OUT_OF_SCOPE provider request"))
  {
    hide Inv;
    var returned := s.requests[id].(progress := Returned);
    var recorded := Append(Put(s, id, next), id, RequestEnd);
    BreakKeeps(recorded, id, returned, "OUT_OF_SCOPE provider request");
    assert Put(recorded, id, returned) == Append(Put(s, id, returned), id, RequestEnd);
  }

  lemma ReadChunkKeeps(s: State, id: nat, data: Bytes)
    requires Inv(s) && Possible(s, ReadChunk(id, data))
    ensures Inv(Step(s, ReadChunk(id, data)))
  {
    var r := s.requests[id];
    if r.ended {
      PutKeeps(s, id, r.(progress := Returned));
    } else {
      KindsAppend(Of(s.journal, id), RequestChunk(data));
      RecordKeeps(s, id, r, RequestChunk(data));
      assert Put(s, id, r).requests == s.requests;
    }
  }

  lemma HookKeeps(s: State, id: nat, ok: bool)
    requires Inv(s) && Possible(s, HookReturns(id, ok))
    ensures Inv(Step(s, HookReturns(id, ok)))
  {
    var r := s.requests[id];
    if ok {
      PutKeeps(s, id, r.(progress := Sent));
    } else if r.ended {
      PutKeeps(s, id, r.(progress := Returned));
    } else {
      BreakKeeps(s, id, r.(progress := Returned), "PROVIDER_RELAY_ERROR");
    }
  }

  lemma ResponseKeeps(s: State, e: Event)
    requires Inv(s) && Possible(s, e) && (e.Respond? || e.Data? || e.Deliver?)
    ensures Inv(Step(s, e))
  {
    var id := e.id;
    var r := s.requests[id];
    var kinds := Of(s.journal, id);
    match e
    case Respond(_, status) =>
      if !r.ended {
        KindsAppend(kinds, ResponseStart(status));
        RecordKeeps(s, id, r.(responding := true), ResponseStart(status));
      }
    case Data(_, data) =>
      if !r.ended {
        KindsAppend(kinds, ResponseChunk(data));
        RecordKeeps(s, id, r.(outbox := Some(data)), ResponseChunk(data));
      }
    case Deliver(_) =>
      PutKeeps(s, id, r.(outbox := None, forwarded := r.forwarded + [r.outbox.value]));
  }

  lemma EndKeeps(s: State, e: Event)
    requires Inv(s) && Possible(s, e) && (e.UpstreamEnd? || e.ChildFinish?)
    ensures Inv(Step(s, e))
  {
    var id := e.id;
    var r := s.requests[id];
    if !r.ended {
      match e
      case UpstreamEnd(_, thrown) =>
        if thrown {
          BreakKeeps(s, id, r.(upstreamEnded := true), "CHILD_RESPONSE_END_ERROR");
        } else {
          PutKeeps(s, id, r.(upstreamEnded := true));
        }
      case ChildFinish(_) =>
        if !r.upstreamEnded {
          FinishErrorKeeps(s, id, "CHILD_RESPONSE_FINISHED_EARLY");
        } else {
          OfAppend(s.journal, id, ResponseEnd, id);
          KindsAppend(Of(s.journal, id), ResponseEnd);
          Updates(s, Step(s, e), id);
        }
    }
  }

  lemma {:induction false} SealEffect(s: State, ids: seq<nat>, reason: string, id: nat)
    requires (forall i <- ids :: i in s.requests) && id in s.requests
    ensures id in SealAll(s, ids, reason).requests
    ensures SealAll(s, ids, reason).requests[id] == s.requests[id].(ended := s.requests[id].ended || id in ids)
    ensures SealAll(s, ids, reason).requests.Keys == s.requests.Keys
    decreases |ids|
  {
    if ids != [] {
      SealEffect(FinishError(s, ids[0], reason), ids[1..], reason, id);
    }
  }

  lemma {:induction false} SealKeeps(s: State, ids: seq<nat>, reason: string)
    requires Inv(s) && forall id <- ids :: id in s.requests && s.requests[id].outbox.None?
    ensures Inv(SealAll(s, ids, reason))
    decreases |ids|
  {
    if ids != [] {
      hide Inv;
      FinishErrorKeeps(s, ids[0], reason);
      SealKeeps(FinishError(s, ids[0], reason), ids[1..], reason);
    }
  }

  lemma StepKeeps(s: State, e: Event)
    requires Inv(s) && Possible(s, e)
    ensures Inv(Step(s, e))
  {
    hide Inv;
    match e
    case Arrive => ArriveKeeps(s);
    case ReadChunk(id, data) => ReadChunkKeeps(s, id, data);
    case ReadEnd(id, validJson, allowed, hook) => ReadEndKeeps(s, id, validJson, allowed, hook);
    case HookReturns(id, ok) => HookKeeps(s, id, ok);
    case Respond(_, _) => ResponseKeeps(s, e);
    case Data(_, _) => ResponseKeeps(s, e);
    case Deliver(_) => ResponseKeeps(s, e);
    case UpstreamEnd(_, _) => EndKeeps(s, e);
    case ChildFinish(_) => EndKeeps(s, e);
    case ChildClose(id, finished) => if !finished { FinishErrorKeeps(s, id, "CHILD_RESPONSE_CLOSED"); }
    case Fail(id, reason) => FinishErrorKeeps(s, id, reason);
    case Seal(reason) => SealKeeps(s, Pending(s, 0), reason);
  }

  lemma {:induction false} RunKeeps(s: State, events: seq<Event>)
    requires Inv(s) && Legal(s, events)
    ensures Inv(Run(s, events))
    decreases |events|
  {
    hide Inv, Step;
    if events != [] {
      StepKeeps(s, events[0]);
      RunKeeps(Step(s, events[0]), events[1..]);
    }
  }

  lemma Reachable(events: seq<Event>)
    requires Legal(INITIAL, events)
    ensures Inv(Run(INITIAL, events))
  {
    RunKeeps(INITIAL, events);
  }

  // ---- main results ----

  /** The entries of a request: start, request chunks, request end, response start, response chunks, one terminal. */
  function Script(received: seq<Bytes>, requestEnd: bool, status: Option<nat>, returned: seq<Bytes>,
                  terminal: Option<Kind>): seq<Kind>
  {
    [RequestStart] + Map(data => RequestChunk(data), received)
    + (if requestEnd then [RequestEnd] else [])
    + (if status.Some? then [ResponseStart(status.value)] else [])
    + Map(data => ResponseChunk(data), returned)
    + (if terminal.Some? then [terminal.value] else [])
  }

  /** The optional parts of a script come in order; a complete one has a response. */
  predicate Ordered(requestEnd: bool, status: Option<nat>, returned: seq<Bytes>, terminal: Option<Kind>)
  {
    && (status.Some? ==> requestEnd) && (returned != [] ==> status.Some?)
    && (terminal.Some? ==> Terminal(terminal.value)) && (terminal == Some(ResponseEnd) ==> status.Some?)
  }

  /** Every sequence of entries that leads to a stage is a script, and the stage says how far it got. */
  lemma {:induction false} StageIsScript(kinds: seq<Kind>)
    returns (received: seq<Bytes>, requestEnd: bool, status: Option<nat>, returned: seq<Bytes>, terminal: Option<Kind>)
    requires kinds != [] && StageOf(kinds).Some?
    ensures kinds == Script(received, requestEnd, status, returned, terminal)
    ensures Ordered(requestEnd, status, returned, terminal)
    ensures returned == ResponseChunks(kinds)
    ensures StageOf(kinds).value == ScriptStage(requestEnd, status, terminal)
  {
    var front, last := kinds[..|kinds| - 1], kinds[|kinds| - 1];
    KindsAppend(front, last);
    assert kinds == front + [last];
    hide StageOf, ResponseChunks;
    if front == [] {
      FirstKind(last);
      received, requestEnd, status, returned, terminal := [], false, None, [], None;
    } else {
      received, requestEnd, status, returned, terminal := StageIsScript(front);
      received, requestEnd, status, returned, terminal :=
        ScriptGrows(received, requestEnd, status, returned, terminal, last);
    }
  }

  lemma FirstKind(kind: Kind)
    ensures StageOf([kind]) == Next(Absent, kind)
    ensures kind == RequestStart ==> ResponseChunks([kind]) == [] && [kind] == Script([], false, None, [], None)
  {
    KindsAppend([], kind);
    assert [] + [kind] == [kind];
  }

  function ScriptStage(requestEnd: bool, status: Option<nat>, terminal: Option<Kind>): Stage
  {
    if terminal.Some? then if terminal.value == ResponseEnd then Complete else Broken
    else if status.Some? then Responding else if requestEnd then Requested else Started
  }

  lemma ScriptGrows(received: seq<Bytes>, requestEnd: bool, status: Option<nat>, returned: seq<Bytes>,
                    terminal: Option<Kind>, kind: Kind)
    returns (received': seq<Bytes>, requestEnd': bool, status': Option<nat>, returned': seq<Bytes>, terminal': Option<Kind>)
    requires Ordered(requestEnd, status, returned, terminal)
    requires Next(ScriptStage(requestEnd, status, terminal), kind).Some?
    ensures Script(received, requestEnd, status, returned, terminal) + [kind] ==
            Script(received', requestEnd', status', returned', terminal')
    ensures Ordered(requestEnd', status', returned', terminal')
    ensures returned' == returned + (if kind.ResponseChunk? then [kind.data] else [])
    ensures ScriptStage(requestEnd', status', terminal') ==
            Next(ScriptStage(requestEnd, status, terminal), kind).value
  {
    hide Script;
    received', requestEnd', status', returned', terminal' := received, requestEnd, status, returned, terminal;
    match kind
    case RequestChunk(data) =>
      ReceivedGrows(received, data);
      received' := received + [data];
    case RequestEnd =>
      LaterParts(received, None);
      requestEnd' := true;
    case ResponseStart(code) =>
      LaterParts(received, Some(code));
      status' := Some(code);
    case ResponseChunk(data) =>
      ReturnedGrows(received, status, returned, data);
      returned' := returned + [data];
    case _ =>
      TerminalGrows(received, requestEnd, status, returned, kind);
      terminal' := Some(kind);
  }

  lemma ReceivedGrows(received: seq<Bytes>, data: Bytes)
    ensures Script(received + [data], false, None, [], None) ==
            Script(received, false, None, [], None) + [RequestChunk(data)]
  {
  }

  lemma LaterParts(received: seq<Bytes>, status: Option<nat>)
    ensures Script(received, true, None, [], None) == Script(received, false, None, [], None) + [RequestEnd]
    ensures status.Some? ==>
              Script(received, true, status, [], None) ==
              Script(received, true, None, [], None) + [ResponseStart(status.value)]
  {
  }

  lemma ReturnedGrows(received: seq<Bytes>, status: Option<nat>, returned: seq<Bytes>, data: Bytes)
    ensures Script(received, true, status, returned + [data], None) ==
            Script(received, true, status, returned, None) + [ResponseChunk(data)]
  {
    var chunk := (data: Bytes) => ResponseChunk(data);
    assert Map(chunk, returned + [data]) == Map(chunk, returned) + [ResponseChunk(data)];
  }

  lemma TerminalGrows(received: seq<Bytes>, requestEnd: bool, status: Option<nat>, returned: seq<Bytes>, kind: Kind)
    ensures Script(received, requestEnd, status, returned, Some(kind)) ==
            Script(received, requestEnd, status, returned, None) + [kind]
  {
  }

  /** In a script only the last entry can be terminal. */
  lemma ScriptTerminal(received: seq<Bytes>, requestEnd: bool, status: Option<nat>, returned: seq<Bytes>, kind: Kind)
    requires Terminal(kind)
    ensures var kinds := Script(received, requestEnd, status, returned, Some(kind));
            && kinds[|kinds| - 1] == kind && forall i :: 0 <= i < |kinds| - 1 ==> !Terminal(kinds[i])
  {
    TerminalGrows(received, requestEnd, status, returned, kind);
    var front := Script(received, requestEnd, status, returned, None);
    assert forall k <- front :: !Terminal(k);
  }

  /** In every event order each request's journal is a script, ended and complete exactly as its variables say. */
  lemma JournalIsScript(events: seq<Event>, id: nat)
    returns (received: seq<Bytes>, requestEnd: bool, status: Option<nat>, returned: seq<Bytes>, terminal: Option<Kind>)
    requires Legal(INITIAL, events) && id in Run(INITIAL, events).requests
    ensures var s := Run(INITIAL, events);
            && Of(s.journal, id) == Script(received, requestEnd, status, returned, terminal)
            && Ordered(requestEnd, status, returned, terminal)
            && (id in s.active <==> terminal.None?)
            && (s.requests[id].captureComplete <==> terminal == Some(ResponseEnd))
  {
    Reachable(events);
    var s := Run(INITIAL, events);
    assert Agrees(s.requests[id], Of(s.journal, id));
    received, requestEnd, status, returned, terminal := StageIsScript(Of(s.journal, id));
  }

  /** Write-ahead: the child has received a prefix of the journaled response, and all of it once nothing is pending. */
  lemma ForwardedIsJournaled(events: seq<Event>, id: nat)
    requires Legal(INITIAL, events) && id in Run(INITIAL, events).requests
    ensures var s := Run(INITIAL, events); var r := s.requests[id];
            && r.forwarded <= ResponseChunks(Of(s.journal, id))
            && (r.outbox.None? ==> r.forwarded == ResponseChunks(Of(s.journal, id)))
            && |ResponseChunks(Of(s.journal, id))| <= |r.forwarded| + 1
  {
    Reachable(events);
    var s := Run(INITIAL, events);
    assert Agrees(s.requests[id], Of(s.journal, id));
  }

  /** The variables that no event changes any more, except the progress of the handler. */
  predicate Final(s: State, s': State, id: nat)
  {
    && id in s.requests && id in s'.requests
    && Of(s'.journal, id) == Of(s.journal, id)
    && s'.requests[id] == s.requests[id].(progress := s'.requests[id].progress)
  }

  /** Nothing is journaled or forwarded for a request after its terminal entry. */
  lemma {:induction false} EndedIsFinal(s: State, events: seq<Event>, id: nat)
    requires Inv(s) && Legal(s, events)
    requires id in s.requests && s.requests[id].ended && s.requests[id].outbox.None?
    ensures Final(s, Run(s, events), id)
    decreases |events|
  {
    hide Inv, Of, Step, Possible;
    if events != [] {
      StepKeeps(s, events[0]);
      EndedStep(s, events[0], id);
      EndedIsFinal(Step(s, events[0]), events[1..], id);
    }
  }

  lemma EndedStep(s: State, e: Event, id: nat)
    requires Inv(s) && Possible(s, e)
    requires id in s.requests && s.requests[id].ended && s.requests[id].outbox.None?
    ensures Final(s, Step(s, e), id)
  {
    if e.Seal? {
      SealFinal(s, Pending(s, 0), e.reason, id);
    } else {
      hide Of, Step, Possible;
      assert 1 <= id <= s.sequence;
      OneEntryAtMost(s, e, id);
      EndedRequest(s, e, id);
    }
  }

  lemma EndedRequest(s: State, e: Event, id: nat)
    requires Possible(s, e) && !e.Seal? && id in s.requests && s.requests[id].ended && s.requests[id].outbox.None?
    requires id <= s.sequence
    ensures id in Step(s, e).requests
    ensures Step(s, e).requests[id] == s.requests[id].(progress := Step(s, e).requests[id].progress)
  {
    if e.Arrive? || e.id != id { OthersKeepRequest(s, e, id); }
  }

  /** An event changes no request but its own. */
  lemma OthersKeepRequest(s: State, e: Event, id: nat)
    requires Possible(s, e) && !e.Seal? && id in s.requests && id <= s.sequence && (e.Arrive? || e.id != id)
    ensures id in Step(s, e).requests && Step(s, e).requests[id] == s.requests[id]
  {
  }

  /** Other requests' events leave the entries of this one alone; its own add none once it has ended. */
  lemma OneEntryAtMost(s: State, e: Event, id: nat)
    requires Possible(s, e) && !e.Seal? && id in s.requests && s.requests[id].ended && 1 <= id <= s.sequence
    ensures Of(Step(s, e).journal, id) == Of(s.journal, id)
  {
    hide Of, Possible;
    if e.Arrive? {
      OfAppend(s.journal, s.sequence + 1, RequestStart, id);
    } else if e.id == id {
      OwnEventSilent(s, e);
    } else {
      var j := s.journal;
      match e
      case ReadChunk(other, data) => OfAppend(j, other, RequestChunk(data), id);
      case ReadEnd(other, _, _, _) =>
        OfAppend(j, other, RequestEnd, id);
        OfAppend(j, other, Incomplete("INVALID_PROVIDER_REQUEST_JSON"), id);
        OfAppend(j + [Entry(other, RequestEnd)], other, Incomplete("OUT_OF_SCOPE provider request"), id);
      case HookReturns(other, _) => OfAppend(j, other, Incomplete("PROVIDER_RELAY_ERROR"), id);
      case Respond(other, status) => OfAppend(j, other, ResponseStart(status), id);
      case Data(other, data) => OfAppend(j, other, ResponseChunk(data), id);
      case UpstreamEnd(other, _) => OfAppend(j, other, Incomplete("CHILD_RESPONSE_END_ERROR"), id);
      case ChildFinish(other) =>
        OfAppend(j, other, ResponseEnd, id);
        OfAppend(j, other, Incomplete("CHILD_RESPONSE_FINISHED_EARLY"), id);
      case ChildClose(other, _) => OfAppend(j, other, Incomplete("CHILD_RESPONSE_CLOSED"), id);
      case Fail(other, reason) => OfAppend(j, other, Incomplete(reason), id);
      case Deliver(_) =>
    }
  }

  lemma OwnEventSilent(s: State, e: Event)
    requires !e.Seal? && !e.Arrive? && Possible(s, e) && e.id in s.requests && s.requests[e.id].ended
    ensures Step(s, e).journal == s.journal
  {
  }

  lemma {:induction false} SealFinal(s: State, ids: seq<nat>, reason: string, id: nat)
    requires (forall i <- ids :: i in s.requests) && id in s.requests && s.requests[id].ended
    ensures Final(s, SealAll(s, ids, reason), id)
    decreases |ids|
  {
    if ids != [] {
      var next := FinishError(s, ids[0], reason);
      OfAppend(s.journal, ids[0], Incomplete(reason), id);
      SealFinal(next, ids[1..], reason, id);
    }
  }

  /** After `sealPending` nothing is active and every started request has exactly one terminal entry, its last. */
  lemma SealedOnce(events: seq<Event>, reason: string, id: nat)
    requires Legal(INITIAL, events) && Possible(Run(INITIAL, events), Seal(reason))
    requires id in Run(INITIAL, events).requests
    ensures var s := Step(Run(INITIAL, events), Seal(reason)); var kinds := Of(s.journal, id);
            && s.active == {}
            && kinds != [] && Terminal(kinds[|kinds| - 1])
            && forall i :: 0 <= i < |kinds| - 1 ==> !Terminal(kinds[i])
  {
    Reachable(events);
    var before := Run(INITIAL, events);
    var s := Step(before, Seal(reason));
    SealKeeps(before, Pending(before, 0), reason);
    forall i: nat | i in before.requests
      ensures i in s.requests && s.requests[i].ended && i !in s.active
    {
      SealEffect(before, Pending(before, 0), reason, i);
    }
    SealEffect(before, Pending(before, 0), reason, id);
    EndedScript(s, id);
  }

  lemma EndedScript(s: State, id: nat)
    requires Inv(s) && id in s.requests && s.requests[id].ended
    ensures var kinds := Of(s.journal, id);
            && kinds != [] && Terminal(kinds[|kinds| - 1])
            && forall i :: 0 <= i < |kinds| - 1 ==> !Terminal(kinds[i])
  {
    var kinds := Of(s.journal, id);
    assert Agrees(s.requests[id], kinds);
    hide Inv, Script, Of, ResponseChunks;
    assert kinds != [];
    var received, requestEnd, status, returned, terminal := StageIsScript(kinds);
    ScriptTerminal(received, requestEnd, status, returned, terminal.value);
  }

  /** An upstream request is made for an ended request exactly when the hook returns after the end. */
  lemma LateUpstream(s: State, e: Event, id: nat)
    requires Inv(s) && Possible(s, e) && id in s.requests && s.requests[id].progress != Sent
    ensures id in Step(s, e).requests
    ensures Step(s, e).requests[id].progress == Sent && Step(s, e).requests[id].ended <==>
            e == HookReturns(id, true) && s.requests[id].ended
  {
    hide Agrees, Of;
    if e.Seal? {
      SealEffect(s, Pending(s, 0), e.reason, id);
    } else {
      hide Inv;
      if e.Arrive? || e.id != id { InRange(s, id); OthersKeepRequest(s, e, id); }
    }
  }

  lemma InRange(s: State, id: nat)
    requires Inv(s) && id in s.requests
    ensures id <= s.sequence
  {
  }

  /** The journal has the terminal entry of the request. */
  ghost predicate Ended(s: State, id: nat) { exists kind <- Of(s.journal, id) :: Terminal(kind) }

  predicate IsSent(s: State, id: nat) { id in s.requests && s.requests[id].progress == Sent }

  /** Somewhere in the run the upstream is contacted for a request whose terminal entry is in the journal. */
  ghost predicate ContactedLate(s: State, events: seq<Event>, id: nat)
    requires Legal(s, events)
    decreases |events|
  {
    events != [] &&
      var next := Step(s, events[0]);
      (!IsSent(s, id) && IsSent(next, id) && Ended(next, id)) || ContactedLate(next, events[1..], id)
  }

  /** Somewhere in the run the hook of the request returns well after the terminal entry. */
  ghost predicate HookReturnsLate(s: State, events: seq<Event>, id: nat)
    requires Legal(s, events)
    decreases |events|
  {
    events != [] &&
      ((events[0] == HookReturns(id, true) && Ended(s, id)) || HookReturnsLate(Step(s, events[0]), events[1..], id))
  }

  /** The variable and the journal agree on the end. */
  lemma EndedIs(s: State, id: nat)
    requires Inv(s)
    ensures Ended(s, id) <==> id in s.requests && s.requests[id].ended
  {
    if id in s.requests {
      if s.requests[id].ended {
        EndedScript(s, id);
        assert Of(s.journal, id)[|Of(s.journal, id)| - 1] in Of(s.journal, id);
      } else {
        OpenNotTerminal(s.requests[id], Of(s.journal, id));
      }
    }
  }

  lemma OpenNotTerminal(r: Request, kinds: seq<Kind>)
    requires Agrees(r, kinds) && !r.ended
    ensures forall kind <- kinds :: !Terminal(kind)
  {
    if kind :| kind in kinds && Terminal(kind) {
      var k :| 0 <= k < |kinds| && kinds[k] == kind;
      TerminalStays(kinds, k);
    }
  }

  /** A terminal entry leaves the request in a final stage, whatever follows. */
  lemma {:induction false} TerminalStays(kinds: seq<Kind>, k: nat)
    requires k < |kinds| && Terminal(kinds[k]) && StageOf(kinds).Some?
    ensures StageOf(kinds) == Some(Complete) || StageOf(kinds) == Some(Broken)
    decreases |kinds|
  {
    var front := kinds[..|kinds| - 1];
    if k < |front| {
      assert front[k] == kinds[k];
      TerminalStays(front, k);
    }
  }

  lemma LateStep(s: State, e: Event, id: nat)
    requires Inv(s) && Possible(s, e)
    ensures !IsSent(s, id) && IsSent(Step(s, e), id) && Ended(Step(s, e), id) <==>
            e == HookReturns(id, true) && Ended(s, id)
  {
    StepKeeps(s, e);
    EndedIs(s, id);
    EndedIs(Step(s, e), id);
    hide Ended, Inv, Of;
    if id in s.requests && s.requests[id].progress != Sent {
      LateUpstream(s, e, id);
    } else if id in s.requests {
      SentBefore(s, e, id);
    } else {
      NewNotSent(s, e, id);
    }
  }

  lemma SentBefore(s: State, e: Event, id: nat)
    requires Possible(s, e) && id in s.requests && s.requests[id].progress == Sent
    ensures e != HookReturns(id, true)
  {
  }

  lemma NewNotSent(s: State, e: Event, id: nat)
    requires Inv(s) && Possible(s, e) && id !in s.requests
    ensures !IsSent(Step(s, e), id) && e != HookReturns(id, true)
  {
    if e.Seal? { SealKeys(s, Pending(s, 0), e.reason); }
  }

  lemma {:induction false} SealKeys(s: State, ids: seq<nat>, reason: string)
    requires forall id <- ids :: id in s.requests
    ensures SealAll(s, ids, reason).requests.Keys == s.requests.Keys
    decreases |ids|
  {
    if ids != [] { SealKeys(FinishError(s, ids[0], reason), ids[1..], reason); }
  }

  lemma {:induction false} LateExactly(s: State, events: seq<Event>, id: nat)
    requires Inv(s) && Legal(s, events)
    ensures ContactedLate(s, events, id) <==> HookReturnsLate(s, events, id)
    decreases |events|
  {
    if events != [] {
      LateStep(s, events[0], id);
      StepKeeps(s, events[0]);
      hide Inv, Ended, IsSent, Step, Possible;
      LateExactly(Step(s, events[0]), events[1..], id);
    }
  }

  /** In any event order the upstream is contacted for an ended request if and only if its hook returns after the end. */
  lemma ContactedLateExactly(events: seq<Event>, id: nat)
    requires Legal(INITIAL, events)
    ensures ContactedLate(INITIAL, events, id) <==> HookReturnsLate(INITIAL, events, id)
  {
    Reachable([]);
    LateExactly(INITIAL, events, id);
  }

  // ---- what reaches the provider ----

  predicate IsWaiting(s: State, id: nat) { id in s.requests && s.requests[id].progress == BeforeForward }

  predicate IsOpen(s: State, id: nat) { id in s.requests && !s.requests[id].ended }

  /** The body of the request was read to its end, is valid and in scope. */
  predicate InScope(e: Event, id: nat, hook: bool) { e == ReadEnd(id, true, true, hook) }

  lemma ProgressStep(s: State, e: Event, id: nat)
    requires Inv(s) && Possible(s, e)
    ensures IsSent(Step(s, e), id) <==>
            IsSent(s, id) || (InScope(e, id, false) && IsOpen(s, id)) || e == HookReturns(id, true)
    ensures IsWaiting(Step(s, e), id) <==>
            (IsWaiting(s, id) && e != HookReturns(id, true) && e != HookReturns(id, false))
            || (InScope(e, id, true) && IsOpen(s, id))
  {
    hide Agrees, Of;
    if e.Seal? {
      SealKeys(s, Pending(s, 0), e.reason);
      if id in s.requests { SealEffect(s, Pending(s, 0), e.reason, id); }
    } else if id in s.requests {
      InRange(s, id);
      hide Inv;
      if e.Arrive? || e.id != id { OthersKeepRequest(s, e, id); } else { OwnProgress(s, e); }
    }
  }

  lemma OwnProgress(s: State, e: Event)
    requires Possible(s, e) && !e.Seal? && !e.Arrive?
    ensures var id := e.id;
            && (IsSent(Step(s, e), id) <==>
                  IsSent(s, id) || (InScope(e, id, false) && IsOpen(s, id)) || e == HookReturns(id, true))
            && (IsWaiting(Step(s, e), id) <==>
                  (IsWaiting(s, id) && e != HookReturns(id, true) && e != HookReturns(id, false))
                  || (InScope(e, id, true) && IsOpen(s, id)))
  {
  }

  /** Somewhere in the run an open request passes the scope check, and its hook, if there is one, returns well. */
  ghost predicate Admitted(s: State, events: seq<Event>, id: nat)
    requires Legal(s, events)
    decreases |events|
  {
    events != [] &&
      ((IsOpen(s, id) && (InScope(events[0], id, false)
                          || (InScope(events[0], id, true) && HookReturns(id, true) in events[1..])))
       || Admitted(Step(s, events[0]), events[1..], id))
  }

  lemma {:induction false} SentFrom(s: State, events: seq<Event>, id: nat)
    requires Inv(s) && Legal(s, events)
    ensures IsSent(Run(s, events), id) <==>
            IsSent(s, id) || (IsWaiting(s, id) && HookReturns(id, true) in events) || Admitted(s, events, id)
    decreases |events|
  {
    if events != [] {
      var e, rest := events[0], events[1..];
      ProgressStep(s, e, id);
      StepKeeps(s, e);
      HookOnlyWaiting(s, e, id);
      assert HookReturns(id, true) in events <==> e == HookReturns(id, true) || HookReturns(id, true) in rest;
      hide Inv, Step, Possible, IsSent, IsOpen;
      SentFrom(Step(s, e), rest, id);
      if IsWaiting(s, id) && e == HookReturns(id, false) { FailedHook(Step(s, e), rest, id); }
    }
  }

  lemma HookOnlyWaiting(s: State, e: Event, id: nat)
    requires Possible(s, e)
    ensures e.HookReturns? && e.id == id ==> IsWaiting(s, id)
    ensures e == HookReturns(id, false) ==> id in Step(s, e).requests && Step(s, e).requests[id].progress == Returned
  {
  }

  /** A request whose handler has returned is never waiting for its hook again. */
  lemma {:induction false} FailedHook(s: State, events: seq<Event>, id: nat)
    requires Legal(s, events) && id in s.requests && s.requests[id].progress == Returned && Inv(s)
    ensures HookReturns(id, true) !in events && !IsSent(Run(s, events), id)
    decreases |events|
  {
    if events != [] {
      var e := events[0];
      HookOnlyWaiting(s, e, id);
      ReturnedStays(s, e, id);
      StepKeeps(s, e);
      hide Inv, Step, Possible;
      FailedHook(Step(s, e), events[1..], id);
      assert events == [e] + events[1..];
    }
  }

  lemma ReturnedStays(s: State, e: Event, id: nat)
    requires Inv(s) && Possible(s, e) && id in s.requests && s.requests[id].progress == Returned
    ensures id in Step(s, e).requests && Step(s, e).requests[id].progress == Returned
  {
    hide Agrees, Of;
    if e.Seal? {
      SealEffect(s, Pending(s, 0), e.reason, id);
    } else {
      InRange(s, id);
      hide Inv;
      if e.Arrive? || e.id != id { OthersKeepRequest(s, e, id); }
    }
  }

  /**
   In any event order the upstream is contacted for a request exactly if the request was read to its end
   while open, was valid and in scope, and its hook, if there is one, returned well.
   */
  lemma SentExactly(events: seq<Event>, id: nat)
    requires Legal(INITIAL, events)
    ensures IsSent(Run(INITIAL, events), id) <==> Admitted(INITIAL, events, id)
  {
    Reachable([]);
    SentFrom(INITIAL, events, id);
  }

  /** An invalid or out-of-scope request never reaches the provider, whatever happens afterwards. */
  lemma RejectedNeverSent(before: seq<Event>, id: nat, validJson: bool, allowed: bool, hook: bool, after: seq<Event>)
    requires Legal(INITIAL, before) && Possible(Run(INITIAL, before), ReadEnd(id, validJson, allowed, hook))
    requires !(validJson && allowed) && Legal(Step(Run(INITIAL, before), ReadEnd(id, validJson, allowed, hook)), after)
    ensures !IsSent(Run(Step(Run(INITIAL, before), ReadEnd(id, validJson, allowed, hook)), after), id)
  {
    Reachable(before);
    var s, e := Run(INITIAL, before), ReadEnd(id, validJson, allowed, hook);
    StepKeeps(s, e);
    assert Step(s, e).requests[id].progress == Returned;
    hide Step, Inv, Run;
    FailedHook(Step(s, e), after, id);
  }

  /** The journal entries that an event adds for its own request while that is open. */
  function Added(e: Event, upstreamEnded: bool): seq<Kind>
  {
    match e
    case ReadChunk(_, data) => [RequestChunk(data)]
    case ReadEnd(_, validJson, allowed, _) =>
      if !validJson then [Incomplete("INVALID_PROVIDER_REQUEST_JSON")]
      else if !allowed then [RequestEnd, Incomplete("OUT_OF_SCOPE provider request")]
      else [RequestEnd]
    case HookReturns(_, ok) => if ok then [] else [Incomplete("PROVIDER_RELAY_ERROR")]
    case Respond(_, status) => [ResponseStart(status)]
    case Data(_, data) => [ResponseChunk(data)]
    case UpstreamEnd(_, thrown) => if thrown then [Incomplete("CHILD_RESPONSE_END_ERROR")] else []
    case ChildFinish(_) => [if upstreamEnded then ResponseEnd else Incomplete("CHILD_RESPONSE_FINISHED_EARLY")]
    case ChildClose(_, finished) => if finished then [] else [Incomplete("CHILD_RESPONSE_CLOSED")]
    case Fail(_, reason) => [Incomplete(reason)]
    case Seal(reason) => [Incomplete(reason)]
    case Arrive => [RequestStart]
    case Deliver(_) => []
  }

  lemma OfAppendTwo(journal: seq<Entry>, id: nat, a: Kind, b: Kind)
    ensures Of(journal + [Entry(id, a)] + [Entry(id, b)], id) == Of(journal, id) + [a, b]
  {
    OfAppend(journal, id, a, id);
    OfAppend(journal + [Entry(id, a)], id, b, id);
  }

  /** What is journaled, event by event: with its content, and nothing else. */
  lemma JournaledExactly(s: State, e: Event)
    requires Possible(s, e) && !e.Arrive? && !e.Seal? && !s.requests[e.id].ended
    ensures Of(Step(s, e).journal, e.id) == Of(s.journal, e.id) + Added(e, s.requests[e.id].upstreamEnded)
  {
    var id, j := e.id, s.journal;
    var upstreamEnded := s.requests[id].upstreamEnded;
    hide Of;
    if |Added(e, upstreamEnded)| == 1 {
      var kind := Added(e, upstreamEnded)[0];
      OfAppend(j, id, kind, id);
      assert Added(e, upstreamEnded) == [kind];
    } else if e.ReadEnd? {
      OfAppendTwo(j, id, RequestEnd, Incomplete("OUT_OF_SCOPE provider request"));
    } else {
      assert Of(j, id) + [] == Of(j, id);
    }
  }

  predicate UpstreamIsOver(s: State, id: nat) { id in s.requests && s.requests[id].upstreamEnded }

  predicate IsCaptured(s: State, id: nat) { id in s.requests && s.requests[id].captureComplete }

  predicate EndsUpstream(events: seq<Event>, id: nat)
  {
    UpstreamEnd(id, false) in events || UpstreamEnd(id, true) in events
  }

  lemma CaptureStep(s: State, e: Event, id: nat)
    requires Inv(s) && Possible(s, e)
    ensures UpstreamIsOver(Step(s, e), id) ==> UpstreamIsOver(s, id) || (e.UpstreamEnd? && e.id == id)
    ensures IsCaptured(Step(s, e), id) ==> IsCaptured(s, id) || (e == ChildFinish(id) && UpstreamIsOver(s, id))
  {
    hide Agrees, Of;
    if e.Seal? {
      SealKeys(s, Pending(s, 0), e.reason);
      if id in s.requests { SealEffect(s, Pending(s, 0), e.reason, id); }
    } else if id in s.requests {
      InRange(s, id);
      hide Inv;
      if e.Arrive? || e.id != id { OthersKeepRequest(s, e, id); }
    }
  }

  lemma {:induction false} CaptureFrom(s: State, events: seq<Event>, id: nat)
    requires Inv(s) && Legal(s, events)
    ensures IsCaptured(Run(s, events), id) ==>
              IsCaptured(s, id)
              || (ChildFinish(id) in events && (UpstreamIsOver(s, id) || EndsUpstream(events, id)))
    decreases |events|
  {
    if events != [] {
      var e, rest := events[0], events[1..];
      CaptureStep(s, e, id);
      StepKeeps(s, e);
      assert forall x :: x in events <==> x == e || x in rest;
      assert e.UpstreamEnd? && e.id == id ==> e == UpstreamEnd(id, false) || e == UpstreamEnd(id, true);
      hide Inv, Step, Possible, IsCaptured, UpstreamIsOver;
      CaptureFrom(Step(s, e), rest, id);
    }
  }

  /** A capture counts as complete only if the upstream ended and the child's response was finished. */
  lemma CaptureMeans(events: seq<Event>, id: nat)
    requires Legal(INITIAL, events) && IsCaptured(Run(INITIAL, events), id)
    ensures ChildFinish(id) in events && EndsUpstream(events, id)
  {
    Reachable([]);
    CaptureFrom(INITIAL, events, id);
  }

  /** That is possible for every request whose hook is running: the child gives up, then the hook returns. */
  lemma LateUpstreamHappens(s: State, id: nat, reason: string)
    requires Possible(s, Fail(id, reason)) && s.requests[id].progress == BeforeForward
    ensures var failed := Step(s, Fail(id, reason));
            && Possible(failed, HookReturns(id, true))
            && var sent := Step(failed, HookReturns(id, true));
               id in sent.requests && sent.requests[id].ended && sent.requests[id].progress == Sent
  {
    var failed := Step(s, Fail(id, reason));
    forall other | other in failed.requests ensures failed.requests[other].outbox.None? {
      assert other in s.requests;
    }
  }

  lemma Ahead(s: State, e: Event, rest: seq<Event>)
    requires Possible(s, e) && Legal(Step(s, e), rest)
    ensures Legal(s, [e] + rest) && Run(s, [e] + rest) == Run(Step(s, e), rest)
    ensures forall id :: HookReturnsLate(s, [e] + rest, id) <==>
              (e == HookReturns(id, true) && Ended(s, id)) || HookReturnsLate(Step(s, e), rest, id)
  {
    assert ([e] + rest)[1..] == rest;
  }

  /** A whole run of that kind: one request, which the child abandons while the hook runs. */
  lemma LateUpstreamRun(reason: string) returns (events: seq<Event>)
    ensures Legal(INITIAL, events) && ContactedLate(INITIAL, events, 1)
    ensures var s := Run(INITIAL, events);
            1 in s.requests && s.requests[1].ended && s.requests[1].progress == Sent && s.active == {}
  {
    var waiting := NEW_REQUEST.(progress := BeforeForward);
    var s1 := State(1, map[1 := NEW_REQUEST], {1}, [Entry(1, RequestStart)]);
    var s2 := State(1, map[1 := waiting], {1}, [Entry(1, RequestStart), Entry(1, RequestEnd)]);
    assert Step(INITIAL, Arrive) == s1;
    assert Step(s1, ReadEnd(1, true, true, true)) == s2;
    LateUpstreamHappens(s2, 1, reason);
    var s3 := Step(s2, Fail(1, reason));
    assert s3.active == {};
    var s4 := Step(s3, HookReturns(1, true));
    assert s4.active == {};
    assert s3.requests[1].ended;
    Reachable([]);
    StepKeeps(INITIAL, Arrive);
    StepKeeps(s1, ReadEnd(1, true, true, true));
    StepKeeps(s2, Fail(1, reason));
    EndedIs(s3, 1);
    hide Step, Inv, Ended;
    Ahead(s3, HookReturns(1, true), []);
    Ahead(s2, Fail(1, reason), [HookReturns(1, true)] + []);
    Ahead(s1, ReadEnd(1, true, true, true), [Fail(1, reason)] + ([HookReturns(1, true)] + []));
    events := [Arrive] + ([ReadEnd(1, true, true, true)] + ([Fail(1, reason)] + ([HookReturns(1, true)] + [])));
    Ahead(INITIAL, Arrive, [ReadEnd(1, true, true, true)] + ([Fail(1, reason)] + ([HookReturns(1, true)] + [])));
    ContactedLateExactly(events, 1);
  }
}
