/** The journaling chat relay as a program: its journal file and the variables its handlers share. */
module JournalRelayServer {
  import opened Common
  import opened JournalRelay

  /** The journal file; the kernel may take only a part of each write, or refuse. */
  class JournalFile {
    var content: Bytes

    constructor ()
      ensures content == []
    {
      content := [];
    }

    /** The write loop of `append`; `taken(k)` is what the k-th call of `fs.writeSync` accepts at most. */
    method Write(bytes: Bytes, taken: nat -> int) returns (ok: bool)
      modifies this
      ensures ok ==> content == old(content) + bytes
      ensures !ok ==> exists n :: 0 <= n < |bytes| && content == old(content) + bytes[..n]
      ensures (forall k :: taken(k) > 0) ==> ok
    {
      var offset, call := 0, 0;
      while offset < |bytes|
        invariant 0 <= offset <= |bytes|
        invariant content == old(content) + bytes[..offset]
      {
        var written := if taken(call) <= |bytes| - offset then taken(call) else |bytes| - offset;
        if written <= 0 { return false; }
        content := content + bytes[offset..offset + written];
        assert bytes[..offset] + bytes[offset..offset + written] == bytes[..offset + written];
        offset, call := offset + written, call + 1;
      }
      assert bytes[..offset] == bytes;
      ok := true;
    }
  }

  class Relay {
    var sequence: nat
    var requests: map<nat, Request>
    var active: set<nat>
    var journal: seq<Entry>

    ghost function Now(): State
      reads this
    {
      State(sequence, requests, active, journal)
    }

    constructor ()
      ensures Now() == INITIAL
    {
      sequence, requests, active, journal := 0, map[], {}, [];
    }

    method AppendEntry(id: nat, kind: Kind)
      modifies this`journal
      ensures Now() == Append(old(Now()), id, kind)
    {
      journal := journal + [Entry(id, kind)];
    }

    method FinishWithError(id: nat, reason: string)
      requires id in requests
      modifies this
      ensures Now() == FinishError(old(Now()), id, reason)
    {
      if requests[id].ended { return; }
      requests := requests[id := requests[id].(ended := true)];
      AppendEntry(id, Incomplete(reason));
      active := active - {id};
    }

    method Accept() returns (id: nat)
      requires Possible(Now(), Arrive)
      modifies this
      ensures Now() == Step(old(Now()), Arrive) && id == sequence
    {
      sequence := sequence + 1;
      id := sequence;
      requests := requests[id := NEW_REQUEST];
      active := active + {id};
      AppendEntry(id, RequestStart);
    }

    method OnRequestChunk(id: nat, data: Bytes)
      requires Possible(Now(), ReadChunk(id, data))
      modifies this
      ensures Now() == Step(old(Now()), ReadChunk(id, data))
    {
      if requests[id].ended {
        requests := requests[id := requests[id].(progress := Returned)];
        return;
      }
      AppendEntry(id, RequestChunk(data));
    }

    /** After the last chunk: parse, journal, check the scope, and send or wait for the hook. */
    method OnRequestEnd(id: nat, validJson: bool, allowed: bool, hook: bool)
      requires Possible(Now(), ReadEnd(id, validJson, allowed, hook))
      modifies this
      ensures Now() == Step(old(Now()), ReadEnd(id, validJson, allowed, hook))
    {
      var r := requests[id];
      if r.ended || !validJson || !allowed { requests := requests[id := r.(progress := Returned)]; }
      if r.ended { return; }
      if !validJson {
        FinishWithError(id, "INVALID_PROVIDER_REQUEST_JSON");
        return;
      }
      AppendEntry(id, RequestEnd);
      if !allowed {
        FinishWithError(id, "OUT_OF_SCOPE provider request");
        return;
      }
      requests := requests[id := r.(progress := if hook then BeforeForward else Sent)];
    }

    method OnHookReturn(id: nat, ok: bool)
      requires Possible(Now(), HookReturns(id, ok))
      modifies this
      ensures Now() == Step(old(Now()), HookReturns(id, ok))
    {
      requests := requests[id := requests[id].(progress := if ok then Sent else Returned)];
      if !ok { FinishWithError(id, "PROVIDER_RELAY_ERROR"); }
    }

    method OnResponse(id: nat, status: nat)
      requires Possible(Now(), Respond(id, status))
      modifies this
      ensures Now() == Step(old(Now()), Respond(id, status))
    {
      if requests[id].ended { return; }
      requests := requests[id := requests[id].(responding := true)];
      AppendEntry(id, ResponseStart(status));
    }

    /** The data handler: the chunk is in the journal before the child gets it. */
    method OnData(id: nat, data: Bytes)
      requires Possible(Now(), Data(id, data))
      modifies this
      ensures old(requests[id].ended) ==> Now() == old(Now())
      ensures !old(requests[id].ended) ==>
                Now() == Step(Step(old(Now()), Data(id, data)), Deliver(id))
    {
      if requests[id].ended { return; }
      AppendEntry(id, ResponseChunk(data));
      requests := requests[id := requests[id].(outbox := Some(data))];
      var r := requests[id];
      requests := requests[id := r.(outbox := None, forwarded := r.forwarded + [data])];
    }

    method OnUpstreamEnd(id: nat, thrown: bool)
      requires Possible(Now(), UpstreamEnd(id, thrown))
      modifies this
      ensures Now() == Step(old(Now()), UpstreamEnd(id, thrown))
    {
      if requests[id].ended { return; }
      requests := requests[id := requests[id].(upstreamEnded := true)];
      if thrown { FinishWithError(id, "CHILD_RESPONSE_END_ERROR"); }
    }

    method OnChildFinish(id: nat)
      requires Possible(Now(), ChildFinish(id))
      modifies this
      ensures Now() == Step(old(Now()), ChildFinish(id))
    {
      if requests[id].ended { return; }
      if !requests[id].upstreamEnded {
        FinishWithError(id, "CHILD_RESPONSE_FINISHED_EARLY");
        return;
      }
      requests := requests[id := requests[id].(ended := true, captureComplete := true)];
      AppendEntry(id, ResponseEnd);
      active := active - {id};
    }

    /** `sealPending`: give up on everything that is active, in order of arrival. */
    method SealPending(reason: string)
      requires Possible(Now(), Seal(reason))
      modifies this
      ensures Now() == Step(old(Now()), Seal(reason))
    {
      var ids := Pending(State(sequence, requests, active, journal), 0);
      assert ids[0..] == ids;
      for i := 0 to |ids|
        invariant requests.Keys == old(requests.Keys)
        invariant forall id <- ids :: id in requests
        invariant SealAll(Now(), ids[i..], reason) == SealAll(old(Now()), ids, reason)
      {
        assert ids[i..][0] == ids[i] && ids[i..][1..] == ids[i + 1..];
        FinishWithError(ids[i], reason);
      }
    }
  }
}
