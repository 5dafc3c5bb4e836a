/** The transport verdict of a chat run: when every selected case was really carried. */
module Transport {
  import opened Common

  /** A provider call; `terminal` is what its last response line says. */
  datatype Terminal = Terminal(done: bool, model: string, digests: seq<string>)

  datatype Call = Call(
    path: string, caseId: string, model: string, numCtx: Option<int>,
    failed: bool, captureIncomplete: bool, status: int, terminal: Option<Terminal>)

  /** A recorded row: the id of its case, if it names one, and whether its two answers are complete. */
  datatype Row = Row(caseId: Option<string>, bComplete: bool, aComplete: bool)

  datatype Run = Run(
    wire: seq<Call>, recorded: seq<Row>, selected: seq<string>, exitCode: int, isFinal: bool,
    postflightDigest: string, model: string, modelDigest: string, contextWindowTokens: Option<int>,
    modelArtifacts: Option<map<string, string>>, postflightArtifacts: map<string, string>)

  predicate Inference(call: Call) { call.path == "/api/chat" || call.path == "/api/generate" }

  function InferenceWire(r: Run): seq<Call> { Filter(Inference, r.wire) }

  function RequestedModel(r: Run, call: Call): string { if r.modelArtifacts.Some? then call.model else r.model }

  /** The digest a call must show; an unknown model has none. */
  function ExpectedDigest(r: Run, call: Call): Option<string>
  {
    match r.modelArtifacts
    case None => if r.modelDigest == "" then None else Some(r.modelDigest)
    case Some(artifacts) =>
      if call.model in artifacts && artifacts[call.model] != "" then Some(artifacts[call.model]) else None
  }

  predicate ExactCall(r: Run, call: Call)
  {
    && !call.failed && !call.captureIncomplete && call.status == 200
    && call.terminal.Some? && call.terminal.value.done
    && ExpectedDigest(r, call).Some? && call.terminal.value.model == RequestedModel(r, call)
    && call.terminal.value.digests != []
    && forall digest <- call.terminal.value.digests :: digest == ExpectedDigest(r, call).value
  }

  predicate ExactWire(r: Run) { Filter((call: Call) => !ExactCall(r, call), InferenceWire(r)) == [] }

  predicate Sha256(text: string)
  {
    |text| == 64 && forall c <- text :: '0' <= c <= '9' || 'a' <= c <= 'f'
  }

  predicate ArtifactSetValid(r: Run)
  {
    r.modelArtifacts.Some? ==>
      var artifacts := r.modelArtifacts.value;
      && r.model in artifacts && artifacts[r.model] == r.modelDigest
      && forall name <- artifacts ::
           Sha256(artifacts[name]) && name in r.postflightArtifacts && r.postflightArtifacts[name] == artifacts[name]
  }

  predicate ContextBudgetValid(r: Run)
  {
    r.contextWindowTokens.Some? ==>
      && r.contextWindowTokens.value >= 512
      && forall call <- InferenceWire(r) :: call.caseId == "boot" || call.numCtx == r.contextWindowTokens
  }

  function CaseIds(rows: seq<Row>): seq<Option<string>> { Map((row: Row) => row.caseId, rows) }

  /** The case was carried by the row. */
  predicate Carries(r: Run, row: Row, id: string)
  {
    && row.caseId == Some(id) && row.bComplete
    && (r.isFinal ==> row.aComplete && exists call <- InferenceWire(r) :: call.caseId == id && call.path == "/api/chat")
  }

  /** `transportComplete`. */
  predicate TransportComplete(r: Run)
  {
    && r.exitCode == 0 && InferenceWire(r) != []
    && |r.recorded| == |r.selected|
    && |set id | id in CaseIds(r.recorded)| == |r.selected|
    && ExactWire(r) && ArtifactSetValid(r) && ContextBudgetValid(r) && r.postflightDigest == r.modelDigest
    && forall id <- r.selected :: exists row <- r.recorded :: Carries(r, row, id)
  }

  // ---- the global consequence ----

  /** As many values as places: no value repeats. */
  lemma {:induction false} FullSetDistinct<T>(s: seq<T>)
    ensures |set x | x in s| <= |s|
    ensures |set x | x in s| == |s| ==> Distinct(s)
  {
    if s != [] {
      var rest := s[1..];
      FullSetDistinct(rest);
      var all, others := set x | x in s, set x | x in rest;
      assert s == [s[0]] + rest;
      assert all == {s[0]} + others;
      if s[0] in rest {
        assert all == others;
      } else {
        assert |all| == |others| + 1;
        assert forall j :: 0 < j < |s| ==> s[j] == rest[j - 1];
      }
    }
  }

  /** Values that all occur in a distinct list of the same length are that list, reordered. */
  lemma Reordered<T>(ids: seq<T>, recorded: seq<T>)
    requires Distinct(ids) && Distinct(recorded) && |ids| == |recorded| && forall id <- ids :: id in recorded
    ensures multiset(ids) == multiset(recorded)
  {
    var a, b := set id | id in ids, set id | id in recorded;
    DistinctSet(ids);
    DistinctSet(recorded);
    assert a <= b;
    SameCardinality(a, b);
    DistinctCount(ids);
    DistinctCount(recorded);
    forall id ensures multiset(ids)[id] == multiset(recorded)[id] { assert id in a <==> id in b; }
  }

  lemma {:induction false} SameCardinality<T>(a: set<T>, b: set<T>)
    requires a <= b && |a| == |b|
    ensures a == b
    decreases |a|
  {
    if x :| x in b {
      if x in a {
        SameCardinality(a - {x}, b - {x});
        assert a == (a - {x}) + {x} && b == (b - {x}) + {x};
      } else {
        var rest := b - {x};
        assert a <= rest && |rest| < |a|;
        Smaller(a, rest);
      }
    }
  }

  lemma {:induction false} Smaller<T>(a: set<T>, b: set<T>)
    requires a <= b
    ensures |a| <= |b|
    decreases |a|
  {
    if x :| x in a { Smaller(a - {x}, b - {x}); }
  }

  /** The rows of a complete run are the selected cases, reordered, each once and each carried. */
  ghost predicate Matched(r: Run)
  {
    && (forall row <- r.recorded :: row.caseId.Some? && Carries(r, row, row.caseId.value))
    && multiset(CaseIds(r.recorded)) == multiset(Map((id: string) => Some(id), r.selected))
  }

  /** With distinct selected cases the verdict holds exactly for an exact matching on an exact wire. */
  lemma CompleteExactly(r: Run)
    requires Distinct(r.selected)
    ensures TransportComplete(r) <==>
            && r.exitCode == 0 && InferenceWire(r) != []
            && ExactWire(r) && ArtifactSetValid(r) && ContextBudgetValid(r) && r.postflightDigest == r.modelDigest
            && Matched(r)
  {
    var ids, wanted := CaseIds(r.recorded), Map((id: string) => Some(id), r.selected);
    hide ExactWire, ArtifactSetValid, ContextBudgetValid, Carries, InferenceWire;
    assert Distinct(wanted);
    if TransportComplete(r) {
      FullSetDistinct(ids);
      forall id | id in wanted ensures id in ids {
        var i :| 0 <= i < |wanted| && wanted[i] == id;
        assert r.selected[i] in r.selected;
        RowFor(r, r.selected[i]);
      }
      Reordered(wanted, ids);
      forall row | row in r.recorded ensures row.caseId.Some? && Carries(r, row, row.caseId.value) {
        OnlyRow(r, row);
      }
    }
    if Matched(r) {
      assert |multiset(ids)| == |multiset(wanted)|;
      assert |ids| == |r.recorded| && |wanted| == |r.selected|;
      DistinctCount(wanted);
      forall id | id in ids ensures multiset(ids)[id] == 1 { assert id in multiset(ids) && multiset(wanted)[id] >= 1; }
      CountDistinct(ids);
      DistinctSet(ids);
      forall id | id in r.selected ensures exists row <- r.recorded :: Carries(r, row, id) {
        SelectedRow(r, id);
      }
    }
  }

  /** A call of the model: chat or plain generation. */
  predicate CallsModel(call: Call) { call.path == "/api/chat" || call.path == "/api/generate" }

  /** The call succeeded, was captured to its end, and its end names the asked model with the digest pinned for it. */
  predicate Attested(r: Run, call: Call)
  {
    && !call.failed && !call.captureIncomplete && call.status == 200
    && call.terminal.Some? && call.terminal.value.done && call.terminal.value.digests != []
    && match r.modelArtifacts
       case None =>
         r.modelDigest != "" && call.terminal.value.model == r.model
         && forall digest <- call.terminal.value.digests :: digest == r.modelDigest
       case Some(pinned) =>
         call.model in pinned && pinned[call.model] != "" && call.terminal.value.model == call.model
         && forall digest <- call.terminal.value.digests :: digest == pinned[call.model]
  }

  lemma WireAttested(r: Run)
    ensures InferenceWire(r) != [] <==> exists call <- r.wire :: CallsModel(call)
    ensures ExactWire(r) <==> forall call <- r.wire :: CallsModel(call) ==> Attested(r, call)
  {
    var bad := (call: Call) => !ExactCall(r, call);
    forall call <- r.wire ensures Inference(call) == CallsModel(call) && (ExactCall(r, call) <==> Attested(r, call)) { }
    hide ExactCall, Attested, Inference, CallsModel;
    if InferenceWire(r) != [] { assert InferenceWire(r)[0] in InferenceWire(r); }
    if Filter(bad, InferenceWire(r)) != [] {
      var call := Filter(bad, InferenceWire(r))[0];
      assert call in Filter(bad, InferenceWire(r));
    }
  }

  /** Every pinned artifact is a digest that was found again after the run, the run's own model among them. */
  predicate Pinned(r: Run)
  {
    match r.modelArtifacts
    case None => true
    case Some(pinned) =>
      && r.model in pinned && pinned[r.model] == r.modelDigest
      && forall name <- pinned ::
           && |pinned[name]| == 64 && (forall c <- pinned[name] :: c in "0123456789abcdef")
           && name in r.postflightArtifacts && r.postflightArtifacts[name] == pinned[name]
  }

  lemma ArtifactsPinned(r: Run)
    ensures ArtifactSetValid(r) <==> Pinned(r)
  {
    forall text ensures Sha256(text) <==> |text| == 64 && forall c <- text :: c in "0123456789abcdef" { HexText(text); }
    hide Sha256;
  }

  lemma HexText(text: string)
    ensures Sha256(text) <==> |text| == 64 && forall c <- text :: c in "0123456789abcdef"
  {
    forall c: char ensures c in "0123456789abcdef" <==> '0' <= c <= '9' || 'a' <= c <= 'f' { HexChar(c); }
  }

  lemma HexChar(c: char)
    ensures c in "0123456789abcdef" <==> '0' <= c <= '9' || 'a' <= c <= 'f'
  {
    var digits := "0123456789abcdef";
    if '0' <= c <= '9' { assert digits[c as int - '0' as int] == c; }
    if 'a' <= c <= 'f' { assert digits[c as int - 'a' as int + 10] == c; }
  }

  /** What a complete verdict says about calls, artifacts, context windows and cases, and nothing else. */
  lemma CompleteMeans(r: Run)
    requires Distinct(r.selected)
    ensures TransportComplete(r) <==>
            && r.exitCode == 0 && (exists call <- r.wire :: CallsModel(call))
            && (forall call <- r.wire :: CallsModel(call) ==> Attested(r, call))
            && Pinned(r) && r.postflightDigest == r.modelDigest
            && (r.contextWindowTokens.Some? ==>
                  && r.contextWindowTokens.value >= 512
                  && forall call <- r.wire :: CallsModel(call) && call.caseId != "boot" ==>
                       call.numCtx == Some(r.contextWindowTokens.value))
            && (forall row <- r.recorded ::
                  && row.caseId.Some? && row.bComplete
                  && (r.isFinal ==>
                        row.aComplete
                        && exists call <- r.wire :: call.caseId == row.caseId.value && call.path == "/api/chat"))
            && multiset(CaseIds(r.recorded)) == multiset(Map((id: string) => Some(id), r.selected))
  {
    CompleteExactly(r);
    WireAttested(r);
    ArtifactsPinned(r);
    assert forall call <- r.wire :: Inference(call) == CallsModel(call);
    assert forall call :: call in InferenceWire(r) <==> call in r.wire && CallsModel(call);
    hide TransportComplete, ExactWire, ArtifactSetValid, InferenceWire, Attested, Pinned, CaseIds;
  }

  lemma RowFor(r: Run, id: string)
    requires exists row <- r.recorded :: Carries(r, row, id)
    ensures Some(id) in CaseIds(r.recorded)
  {
    var row :| row in r.recorded && Carries(r, row, id);
    var i :| 0 <= i < |r.recorded| && r.recorded[i] == row;
    assert CaseIds(r.recorded)[i] == Some(id);
  }

  lemma OnlyRow(r: Run, row: Row)
    requires row in r.recorded && Distinct(CaseIds(r.recorded))
    requires multiset(CaseIds(r.recorded)) == multiset(Map((id: string) => Some(id), r.selected))
    requires forall id <- r.selected :: exists other <- r.recorded :: Carries(r, other, id)
    ensures row.caseId.Some? && Carries(r, row, row.caseId.value)
  {
    var ids, wanted := CaseIds(r.recorded), Map((id: string) => Some(id), r.selected);
    var i :| 0 <= i < |r.recorded| && r.recorded[i] == row;
    assert ids[i] == row.caseId && row.caseId in multiset(ids);
    assert row.caseId in wanted;
    var k :| 0 <= k < |wanted| && wanted[k] == row.caseId;
    var id := r.selected[k];
    assert id in r.selected && row.caseId == Some(id);
    var other :| other in r.recorded && Carries(r, other, id);
    var j :| 0 <= j < |r.recorded| && r.recorded[j] == other;
    assert ids[j] == Some(id) == ids[i];
  }

  lemma SelectedRow(r: Run, id: string)
    requires Matched(r) && id in r.selected
    ensures exists row <- r.recorded :: Carries(r, row, id)
  {
    var ids, wanted := CaseIds(r.recorded), Map((id: string) => Some(id), r.selected);
    var k :| 0 <= k < |r.selected| && r.selected[k] == id;
    assert wanted[k] == Some(id) && Some(id) in multiset(wanted) && Some(id) in ids;
    var i :| 0 <= i < |ids| && ids[i] == Some(id);
    assert r.recorded[i] in r.recorded && Carries(r, r.recorded[i], id);
  }
}
