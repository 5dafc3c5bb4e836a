/**
 The conversation simulator: a session with at most one open design project, driven by what its
 patterns and its classifier say about each input.
 */
module Conversation {
  import opened Common

  datatype Intent = DESIGN | BUILD | DESIGN_CLOSE | Plain(name: string)

  datatype DecisionType = CLOSE | ANSWER | PLAN | Decided(name: string)

  /** `startedAt` is the number of the turn that opened the project. */
  datatype Project = Project(startedAt: nat, turnCount: nat)

  /** What the engine decides; its intent need not be the classified one. */
  datatype Decision = Decision(intent: Intent, kind: DecisionType, content: string)

  /** What the patterns match in an input, what the classifier says, and what the engine decides, if it does not throw. */
  datatype Input = Input(
    text: string, closes: bool, breaks: bool, continues: bool, factQuery: bool, builds: bool,
    intent: Intent, decision: Option<Decision>)

  datatype Response = Response(intent: Intent, kind: DecisionType, content: string, turnCount: Option<nat>)

  datatype Turn = Turn(userInput: string, response: Response)

  datatype Session = Session(
    project: Option<Project>, lastIntent: Option<Intent>,
    history: seq<Turn>, intents: seq<Intent>, decisionTypes: seq<DecisionType>, lengths: seq<nat>)

  const INITIAL: Session := Session(None, None, [], [], [], [])

  /** `_recordTurn`. */
  function RecordTurn(s: Session, text: string, r: Response): Session
  {
    s.(history := s.history + [Turn(text, r)], intents := s.intents + [r.intent],
       decisionTypes := s.decisionTypes + [r.kind], lengths := s.lengths + [|r.content|])
  }

  /** `(turnCount || 1) + 1`. */
  function NextCount(turnCount: nat): nat { (if turnCount == 0 then 1 else turnCount) + 1 }

  /** The session goes on: count the turn and record it as design. */
  function Continue(s: Session, text: string, content: string): Session
    requires s.project.Some?
  {
    var count := NextCount(s.project.value.turnCount);
    RecordTurn(s.(project := Some(s.project.value.(turnCount := count)), lastIntent := Some(DESIGN)), text,
               Response(DESIGN, ANSWER, content, Some(count)))
  }

  /** The part of `send` after the design intercepts: classify, decide, and perhaps open a project. */
  function Classify(s: Session, i: Input): Session
  {
    if i.decision.None? then s
    else if s.project.Some? && !i.factQuery && i.intent != DESIGN then
      Continue(s, i.text, "[DESIGN invariant - downgraded to CONTINUE]")
    else if i.intent == DESIGN && s.project.Some? then Continue(s, i.text, "[DESIGN re-entry -> CONTINUE]")
    else
      var opened' := if i.intent == DESIGN then s.(project := Some(Project(|s.history|, 1))) else s;
      var d := i.decision.value;
      RecordTurn(opened'.(lastIntent := Some(d.intent)), i.text, Response(i.intent, d.kind, d.content, None))
  }

  /** `send`. */
  function Send(s: Session, i: Input): Session
  {
    if s.project.None? then Classify(s, i)
    else if i.closes then
      RecordTurn(s.(project := None), i.text, Response(DESIGN_CLOSE, CLOSE, "Projekt uzavren.", None))
    else if i.continues && !i.breaks && !i.factQuery then
      Continue(s, i.text, "[DESIGN_CONTINUE - LLM would respond here]")
    else if i.builds then
      RecordTurn(s.(project := None), i.text, Response(BUILD, PLAN, "[BUILD transition]", None))
    else Classify(if i.breaks then s.(project := None) else s, i)
  }

  function SendAll(s: Session, inputs: seq<Input>): Session
    decreases |inputs|
  {
    if inputs == [] then s else SendAll(Send(s, inputs[0]), inputs[1..])
  }

  // ---- the program ----

  class Simulator {
    var project: Option<Project>
    var lastIntent: Option<Intent>
    var history: seq<Turn>
    var intents: seq<Intent>
    var decisionTypes: seq<DecisionType>
    var lengths: seq<nat>

    ghost function Now(): Session
      reads this
    {
      Session(project, lastIntent, history, intents, decisionTypes, lengths)
    }

    constructor ()
      ensures Now() == INITIAL
    {
      project, lastIntent := None, None;
      history, intents, decisionTypes, lengths := [], [], [], [];
    }

    method Record(text: string, r: Response)
      modifies this
      ensures Now() == RecordTurn(old(Now()), text, r)
    {
      history := history + [Turn(text, r)];
      intents := intents + [r.intent];
      decisionTypes := decisionTypes + [r.kind];
      lengths := lengths + [|r.content|];
    }

    method CloseDesignProject() returns (closed: Option<Project>)
      modifies this`project
      ensures project == None && closed == old(project)
    {
      closed := project;
      project := None;
    }

    method ContinueDesign(text: string, content: string)
      requires project.Some?
      modifies this
      ensures Now() == Continue(old(Now()), text, content)
    {
      var count := NextCount(project.value.turnCount);
      project := Some(project.value.(turnCount := count));
      lastIntent := Some(DESIGN);
      Record(text, Response(DESIGN, ANSWER, content, Some(count)));
    }

    /** `send`; an engine that throws leaves whatever was done before it. */
    method SendInput(i: Input) returns (ok: bool)
      modifies this
      ensures Now() == Send(old(Now()), i)
      ensures ok <==> |history| == |old(history)| + 1
    {
      if project.Some? {
        if i.closes {
          var closed := CloseDesignProject();
          Record(i.text, Response(DESIGN_CLOSE, CLOSE, "Projekt uzavren.", None));
          return true;
        }
        if i.continues && !i.breaks && !i.factQuery {
          ContinueDesign(i.text, "[DESIGN_CONTINUE - LLM would respond here]");
          return true;
        }
        if i.builds {
          var closed := CloseDesignProject();
          Record(i.text, Response(BUILD, PLAN, "[BUILD transition]", None));
          return true;
        }
        if i.breaks { var closed := CloseDesignProject(); }
      }
      if i.decision.None? { return false; }
      if project.Some? && !i.factQuery && i.intent != DESIGN {
        ContinueDesign(i.text, "[DESIGN invariant - downgraded to CONTINUE]");
        return true;
      }
      if i.intent == DESIGN {
        if project.Some? {
          ContinueDesign(i.text, "[DESIGN re-entry -> CONTINUE]");
          return true;
        }
        project := Some(Project(|history|, 1));
      }
      var decision := i.decision.value;
      lastIntent := Some(decision.intent);
      Record(i.text, Response(i.intent, decision.kind, decision.content, None));
      ok := true;
    }
  }

  // ---- main results ----

  function DesignTurns(turns: seq<Turn>): nat
  {
    if turns == [] then 0
    else DesignTurns(turns[..|turns| - 1]) + (if turns[|turns| - 1].response.intent == DESIGN then 1 else 0)
  }

  /** The count of an open project is the number of design turns since, and including, the one that opened it. */
  ghost predicate Counted(s: Session)
  {
    s.project.Some? ==>
      var p := s.project.value;
      && p.startedAt < |s.history| && s.history[p.startedAt].response.intent == DESIGN
      && p.turnCount == DesignTurns(s.history[p.startedAt..]) >= 1
  }

  /** The per-turn arrays describe the history, turn by turn. */
  ghost predicate Aligned(s: Session)
  {
    && |s.intents| == |s.decisionTypes| == |s.lengths| == |s.history|
    && forall k :: 0 <= k < |s.history| ==>
         var r := s.history[k].response;
         s.intents[k] == r.intent && s.decisionTypes[k] == r.kind && s.lengths[k] == |r.content|
  }

  lemma DesignTurnsAppend(turns: seq<Turn>, t: Turn)
    ensures DesignTurns(turns + [t]) == DesignTurns(turns) + (if t.response.intent == DESIGN then 1 else 0)
  {
    assert (turns + [t])[..|turns|] == turns;
  }

  /** A turn is added; the project, if it was open before, is the same with the turn counted if it is design. */
  lemma RecordCounts(s: Session, p: Option<Project>, intent: Option<Intent>, text: string, r: Response)
    requires Counted(s)
    requires p.Some? ==>
               || (s.project.Some? && p.value.startedAt == s.project.value.startedAt
                   && p.value.turnCount == s.project.value.turnCount + (if r.intent == DESIGN then 1 else 0))
               || (p.value == Project(|s.history|, 1) && r.intent == DESIGN)
    ensures var s' := RecordTurn(s.(project := p, lastIntent := intent), text, r); Counted(s')
  {
    var t := Turn(text, r);
    if p.Some? {
      var start := p.value.startedAt;
      if start == |s.history| {
        assert (s.history + [t])[start..] == [] + [t];
        DesignTurnsAppend([], t);
      } else {
        assert (s.history + [t])[start..] == s.history[start..] + [t];
        DesignTurnsAppend(s.history[start..], t);
      }
    }
  }

  lemma RecordAligns(s: Session, p: Option<Project>, intent: Option<Intent>, text: string, r: Response)
    requires Aligned(s)
    ensures Aligned(RecordTurn(s.(project := p, lastIntent := intent), text, r))
  {
  }

  lemma SendKeeps(s: Session, i: Input)
    requires Counted(s) && Aligned(s)
    ensures Counted(Send(s, i)) && Aligned(Send(s, i))
  {
    var s' := Send(s, i);
    if |s'.history| > |s.history| {
      var t := s'.history[|s.history|];
      RecordCounts(s, s'.project, s'.lastIntent, t.userInput, t.response);
      RecordAligns(s, s'.project, s'.lastIntent, t.userInput, t.response);
    }
  }

  /** Over every conversation: an open project's count is its design turns, and all arrays keep step. */
  lemma {:induction false} AlwaysCounted(s: Session, inputs: seq<Input>)
    requires Counted(s) && Aligned(s)
    ensures Counted(SendAll(s, inputs)) && Aligned(SendAll(s, inputs))
    decreases |inputs|
  {
    if inputs != [] {
      SendKeeps(s, inputs[0]);
      hide Counted, Aligned, Send;
      AlwaysCounted(Send(s, inputs[0]), inputs[1..]);
    }
  }

  /** A turn that leaves the same project open counts it and records design, or is a fact query that leaves it alone. */
  lemma SameProjectTurn(inputs: seq<Input>, i: Input)
    ensures var s := SendAll(INITIAL, inputs); var s' := Send(s, i);
            s.project.Some? && s'.project.Some? && s'.project.value.startedAt == s.project.value.startedAt
            && |s'.history| > |s.history| ==>
              var intent := s'.history[|s.history|].response.intent;
              && (intent == DESIGN <==> s'.project.value.turnCount == s.project.value.turnCount + 1)
              && (intent != DESIGN ==> i.factQuery && s'.project == s.project)
  {
    AlwaysCounted(INITIAL, inputs);
  }

  /** A project closes exactly on a close, on a build that is not a continuation, or on an explicit break. */
  lemma ClosesExactly(inputs: seq<Input>, i: Input)
    ensures var s := SendAll(INITIAL, inputs); var s' := Send(s, i);
            s.project.Some? ==>
              ((s'.project.None? || s'.project.value.startedAt != s.project.value.startedAt) <==>
               i.closes || i.breaks || (i.builds && !(i.continues && !i.factQuery)))
  {
    AlwaysCounted(INITIAL, inputs);
  }

  /** The input goes on with an open design session. */
  predicate Continues(i: Input) { i.continues && !i.breaks && !i.factQuery }

  /** A new project is open after an input exactly if it is a decided design input outside of a session, or breaks out of one. */
  lemma OpensExactly(inputs: seq<Input>, i: Input)
    ensures var s := SendAll(INITIAL, inputs); var s' := Send(s, i);
            s'.project == Some(Project(|s.history|, 1)) <==>
            && i.intent == DESIGN && i.decision.Some?
            && (s.project.None? || (i.breaks && !i.closes && !i.builds))
  {
    AlwaysCounted(INITIAL, inputs);
  }

  /** Which inputs are answered, and what is recorded for them. */
  lemma RecordedExactly(inputs: seq<Input>, i: Input)
    ensures var s := SendAll(INITIAL, inputs); var s' := Send(s, i);
            var inSession := s.project.Some?;
            var answered := i.decision.Some? || (inSession && (i.closes || Continues(i) || i.builds));
            && s.history <= s'.history && |s'.history| == |s.history| + (if answered then 1 else 0)
            && (answered ==>
                  var t := s'.history[|s.history|];
                  && t.userInput == i.text
                  && (inSession && i.closes ==> t.response.intent == DESIGN_CLOSE && t.response.kind == CLOSE)
                  && (inSession && !i.closes && !Continues(i) && i.builds ==>
                        t.response.intent == BUILD && t.response.kind == PLAN)
                  && (s'.project.Some? && inSession && s'.project != s.project && s'.project.value.startedAt < |s.history| ==>
                        && t.response.intent == DESIGN && t.response.kind == ANSWER
                        && t.response.turnCount == Some(s'.project.value.turnCount) && s'.lastIntent == Some(DESIGN))
                  && (!inSession || (!i.closes && !i.builds && i.breaks)
                      || (!i.closes && !i.builds && i.factQuery && i.intent != DESIGN) ==>
                        && t.response == Response(i.intent, i.decision.value.kind, i.decision.value.content, None)
                        && s'.lastIntent == Some(i.decision.value.intent)))
  {
    AlwaysCounted(INITIAL, inputs);
  }

  /** An input that is no close, no break, no build and no fact query. */
  predicate Ongoing(i: Input) { !i.closes && !i.breaks && !i.builds && !i.factQuery }

  /** From s to s' the same project stayed open through n more turns, all of them design turns and counted. */
  ghost predicate Held(s: Session, s': Session, n: nat)
  {
    && s.project.Some? && s'.project.Some? && s'.project.value.startedAt == s.project.value.startedAt
    && s'.project.value.turnCount == s.project.value.turnCount + n
    && s.history <= s'.history && |s'.history| == |s.history| + n
    && forall k :: |s.history| <= k < |s'.history| ==> s'.history[k].response.intent == DESIGN
  }

  lemma HeldOn(a: Session, b: Session, c: Session, m: nat, n: nat)
    requires Held(a, b, m) && Held(b, c, n)
    ensures Held(a, c, m + n)
  {
    forall k | |a.history| <= k < |c.history| ensures c.history[k].response.intent == DESIGN {
      if k < |b.history| { assert c.history[k] == b.history[k]; }
    }
  }

  lemma OngoingTurn(s: Session, i: Input)
    requires Counted(s) && s.project.Some? && Ongoing(i)
    ensures Held(s, Send(s, i), if i.continues || i.decision.Some? then 1 else 0)
  {
    hide DesignTurns;
  }

  function Answered(inputs: seq<Input>): nat
  {
    if inputs == [] then 0 else (if inputs[0].continues || inputs[0].decision.Some? then 1 else 0) + Answered(inputs[1..])
  }

  /**
   Until the next close, break, build or fact query the session is held, whatever the classifier says:
   the same project stays open, every answered turn is a design turn, and each is counted once.
   */
  lemma {:induction false} SessionHolds(s: Session, inputs: seq<Input>)
    requires Counted(s) && Aligned(s) && s.project.Some? && forall i <- inputs :: Ongoing(i)
    ensures Held(s, SendAll(s, inputs), Answered(inputs))
    decreases |inputs|
  {
    if inputs != [] {
      assert inputs[0] in inputs;
      var next, n := Send(s, inputs[0]), if inputs[0].continues || inputs[0].decision.Some? then 1 else 0;
      OngoingTurn(s, inputs[0]);
      SendKeeps(s, inputs[0]);
      assert next.project.Some?;
      hide Counted, Aligned, Send, Ongoing, Held;
      SessionHolds(next, inputs[1..]);
      HeldOn(s, next, SendAll(next, inputs[1..]), n, Answered(inputs[1..]));
    }
  }
}
