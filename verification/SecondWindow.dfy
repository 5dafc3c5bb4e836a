/**
 The offline verifier of the second-window receipt. The checks on texts, hashes of files and
 semantic quality are facts of the evidence here; the checks on history, order and captures are all modelled.
 */
module SecondWindow {
  import opened Common

  datatype Role = User | Assistant | Other

  /** `tokens` is what `Number(message.tokens || 0)` gives. */
  datatype Message = Message(id: int, role: Role, content: string, tokens: int)

  datatype Pair = Pair(user: Message, assistant: Message)

  datatype Persistence = Persistence(messageCount: int, http: Pair, sqlite: Pair)

  /** A row of the provider capture, and a receipt's claim to one. */
  datatype Row = Row(requestSha256: string, responseSha256: string)

  datatype Claim = Claim(captureIndex: int, requestSha256: string, responseSha256: string)

  /** `textsOk`: prompt, answer and quality checks of the turn hold. */
  datatype Turn = Turn(
    stage: int, turn: int, claim: Claim, question: string, answer: string, persistence: Persistence, textsOk: bool)

  datatype Receipt = Receipt(
    claim: Claim, messages: seq<Message>, question: string, answer: string, persistence: Persistence, textsOk: bool)

  /** `rawTokens` of the second summary is its count since the restart. */
  datatype Summary = Summary(claim: Claim, userId: int, upToMsgId: int, messages: seq<Message>, rawTokens: int)

  datatype Evidence = Evidence(
    rows: seq<Row>, first: Summary, second: Summary, restartMessages: seq<Message>,
    before: Receipt, afterRestart: Receipt, afterSecond: Receipt, turns: seq<Turn>, final: Receipt, textsOk: bool)

  /** The questions that the scenario asks; `case` is defined for two stages of twelve turns. */
  type Questions = (int, int) -> string

  predicate HasCase(stage: int, turn: int) { 1 <= stage <= 2 && 1 <= turn <= 12 }

  // ---- single checks ----

  predicate Sha256(text: string)
  {
    |text| == 64 && forall c <- text :: '0' <= c <= '9' || 'a' <= c <= 'f'
  }

  /** `captureRow`: the claim names a row with its hashes that no earlier receipt claimed. */
  predicate Captures(rows: seq<Row>, claim: Claim, claimed: set<int>)
  {
    && 0 <= claim.captureIndex < |rows|
    && Sha256(claim.requestSha256) && Sha256(claim.responseSha256)
    && rows[claim.captureIndex] == Row(claim.requestSha256, claim.responseSha256)
    && claim.captureIndex !in claimed
  }

  predicate PairPersisted(pair: Pair, question: string, answer: string)
  {
    && 0 < pair.user.id < pair.assistant.id
    && pair.user.role == User && pair.assistant.role == Assistant
    && pair.user.content == question && pair.assistant.content == answer
  }

  /** `assertPersistedTurn`. */
  predicate Persisted(p: Persistence, messages: seq<Message>, question: string, answer: string)
  {
    && 2 <= p.messageCount <= |messages|
    && PairPersisted(p.http, question, answer) && PairPersisted(p.sqlite, question, answer)
    && p.http == p.sqlite
    && messages[p.messageCount - 2..p.messageCount] == [p.sqlite.user, p.sqlite.assistant]
  }

  /** The answer, if covered by a summary, was captured before the summary. */
  predicate CoveredBefore(t: Turn, s: Summary)
  {
    t.persistence.sqlite.assistant.id <= s.upToMsgId ==> t.claim.captureIndex < s.claim.captureIndex
  }

  predicate AnchorBefore(t: Turn, s: Summary)
  {
    t.persistence.sqlite.user.id == s.userId ==> t.claim.captureIndex < s.claim.captureIndex
  }

  function AtLeast(messages: seq<Message>, id: int): seq<Message>
  {
    Filter((m: Message) => m.id >= id, messages)
  }

  function Tokens(messages: seq<Message>): int
  {
    if messages == [] then 0 else messages[0].tokens + Tokens(messages[1..])
  }

  /** `rawTokens`. */
  function RawTokens(messages: seq<Message>, fromId: int): int { Tokens(AtLeast(messages, fromId)) }

  /** The context window of the provider. */
  const WINDOW: int := 4096

  /** The exact input of the user with this number. */
  predicate Anchor(m: Message, id: int, text: string) { m.id == id && m.role == User && m.content == text }

  function Messages(turns: seq<Turn>): seq<Message>
  {
    if turns == [] then []
    else [turns[0].persistence.sqlite.user, turns[0].persistence.sqlite.assistant] + Messages(turns[1..])
  }

  function OfStage(turns: seq<Turn>, stage: int): seq<Turn> { Filter((t: Turn) => t.stage == stage, turns) }

  // ---- the loops ----

  datatype LoopB = LoopB(claimed: set<int>, messages: seq<Message>, assistantId: int)

  /** One receipt of the other project. */
  function CheckB(rows: seq<Row>, s: LoopB, r: Receipt): Option<LoopB>
  {
    if Captures(rows, r.claim, s.claimed) && r.textsOk
       && (s.messages == [] ==> |r.messages| == 2)
       && s.messages <= r.messages
       && (s.messages != [] ==> |r.messages| == |s.messages| + 2)
       && Persisted(r.persistence, r.messages, r.question, r.answer)
       && r.persistence.sqlite.assistant.id > s.assistantId
       && r.persistence.messageCount == |r.messages|
    then Some(LoopB(s.claimed + {r.claim.captureIndex}, r.messages, r.persistence.sqlite.assistant.id))
    else None
  }

  function CheckAllB(rows: seq<Row>, s: LoopB, receipts: seq<Receipt>): Option<LoopB>
    decreases |receipts|
  {
    if receipts == [] then Some(s)
    else
      match CheckB(rows, s, receipts[0])
      case None => None
      case Some(next) => CheckAllB(rows, next, receipts[1..])
  }

  datatype LoopA = LoopA(
    claimed: set<int>, seen: set<(int, int)>, stage: int, turn: int,
    assistantId: int, messageCount: int, captureIndex: int)

  /** One long turn. The order of the checks is that of the loop body; all must hold. */
  function CheckA(e: Evidence, q: Questions, s: LoopA, t: Turn): Option<LoopA>
  {
    var lower := if t.stage == 1 then e.before.claim.captureIndex else e.afterRestart.claim.captureIndex;
    var upper := if t.stage == 1 then e.afterRestart.claim.captureIndex else e.afterSecond.claim.captureIndex;
    var stage := if t.stage != s.stage then 2 else s.stage;
    var prior := if t.stage != s.stage then 0 else s.turn;
    if (t.stage, t.turn) !in s.seen
       && (t.stage != s.stage ==> t.stage == 2 && s.stage == 1)
       && t.turn == prior + 1
       && (t.stage == 1 && t.turn == 1 ==> t.persistence.messageCount == 2)
       && HasCase(t.stage, t.turn)
       && t.question == q(t.stage, t.turn)
       && Captures(e.rows, t.claim, s.claimed)
       && lower < t.claim.captureIndex < upper && t.claim.captureIndex > s.captureIndex
       && t.textsOk
       && Persisted(t.persistence, if t.stage == 1 then e.first.messages else e.second.messages, t.question, t.answer)
       && CoveredBefore(t, e.first) && CoveredBefore(t, e.second)
       && AnchorBefore(t, e.first) && AnchorBefore(t, e.second)
       && t.persistence.sqlite.assistant.id > s.assistantId
       && (s.messageCount != 0 ==> t.persistence.messageCount == s.messageCount + 2)
       && Persisted(t.persistence, e.final.messages, t.question, t.answer)
    then
      Some(LoopA(s.claimed + {t.claim.captureIndex}, s.seen + {(t.stage, t.turn)}, stage, t.turn,
                 t.persistence.sqlite.assistant.id, t.persistence.messageCount, t.claim.captureIndex))
    else None
  }

  function CheckAllA(e: Evidence, q: Questions, s: LoopA, turns: seq<Turn>): Option<LoopA>
    decreases |turns|
  {
    if turns == [] then Some(s)
    else
      match CheckA(e, q, s, turns[0])
      case None => None
      case Some(next) => CheckAllA(e, q, next, turns[1..])
  }

  // ---- the whole verifier ----

  /** The checks before the loops. */
  predicate Opening(e: Evidence, q: Questions)
  {
    && e.textsOk
    && |e.rows| >= 4
    && 0 < e.first.userId < e.second.userId
    && e.first.userId <= e.first.upToMsgId < e.second.upToMsgId && e.second.userId <= e.second.upToMsgId
    && e.restartMessages == e.first.messages
    && e.first.messages <= e.second.messages <= e.final.messages
    && e.first.rawTokens == RawTokens(e.first.messages, 0) && e.first.rawTokens >= WINDOW
    && e.second.rawTokens == RawTokens(e.second.messages, e.second.userId) && e.second.rawTokens >= WINDOW
    && Captures(e.rows, e.first.claim, {})
    && Captures(e.rows, e.second.claim, {e.first.claim.captureIndex})
    && (exists m <- e.first.messages :: Anchor(m, e.first.userId, q(1, 1)))
    && (exists m <- e.second.messages :: Anchor(m, e.second.userId, q(2, 1)))
  }

  function ProjectB(e: Evidence): seq<Receipt> { [e.before, e.afterRestart, e.afterSecond] }

  function StartB(e: Evidence): LoopB
  {
    LoopB({e.first.claim.captureIndex, e.second.claim.captureIndex}, [], 0)
  }

  /** The capture order across the stage boundaries. */
  predicate StageOrder(e: Evidence)
  {
    && e.before.claim.captureIndex < e.first.claim.captureIndex
    && e.first.claim.captureIndex < e.afterRestart.claim.captureIndex
    && e.afterRestart.claim.captureIndex < e.second.claim.captureIndex
    && e.second.claim.captureIndex < e.afterSecond.claim.captureIndex
    && e.afterSecond.claim.captureIndex < e.final.claim.captureIndex
  }

  function StartA(e: Evidence, claimed: set<int>): LoopA
  {
    LoopA(claimed, {}, 1, 0, 0, 0, e.before.claim.captureIndex)
  }

  /** The checks after the loops. */
  predicate Closing(e: Evidence, s: LoopA)
  {
    var first, second := Messages(OfStage(e.turns, 1)), Messages(OfStage(e.turns, 2));
    && s.stage == 2
    && AtLeast(e.first.messages, e.first.userId) == first
    && AtLeast(e.second.messages, e.second.userId) == second
    && Captures(e.rows, e.final.claim, s.claimed)
    && e.final.textsOk
    && Persisted(e.final.persistence, e.final.messages, e.final.question, e.final.answer)
    && e.final.persistence.sqlite.assistant.id > s.assistantId
    && e.final.persistence.messageCount == s.messageCount + 2
    && e.final.persistence.messageCount == |e.final.messages|
    && AtLeast(e.final.messages, e.first.userId) ==
       first + second + [e.final.persistence.sqlite.user, e.final.persistence.sqlite.assistant]
  }

  predicate Accepted(e: Evidence, q: Questions)
  {
    && Opening(e, q)
    && var b := CheckAllB(e.rows, StartB(e), ProjectB(e));
       b.Some? && StageOrder(e) && |e.turns| >= 10
       && var a := CheckAllA(e, q, StartA(e, b.value.claimed), e.turns);
          a.Some? && Closing(e, a.value)
  }

  /** `validateSecondWindowEvidence`: does it return, or throw? */
  method Validate(e: Evidence, q: Questions) returns (ok: bool)
    ensures ok <==> Accepted(e, q)
  {
    hide Opening, Closing, StageOrder, CheckA, CheckB;
    if !Opening(e, q) { return false; }
    var b := StartB(e);
    var receipts := ProjectB(e);
    assert receipts[0..] == receipts;
    for i := 0 to |receipts|
      invariant CheckAllB(e.rows, StartB(e), receipts) == CheckAllB(e.rows, b, receipts[i..])
    {
      assert receipts[i..][0] == receipts[i] && receipts[i..][1..] == receipts[i + 1..];
      var next := CheckB(e.rows, b, receipts[i]);
      if next.None? { return false; }
      b := next.value;
    }
    if !StageOrder(e) || |e.turns| < 10 { return false; }
    var a := StartA(e, b.claimed);
    ghost var start := a;
    assert e.turns[0..] == e.turns;
    for i := 0 to |e.turns|
      invariant CheckAllA(e, q, start, e.turns) == CheckAllA(e, q, a, e.turns[i..])
    {
      assert e.turns[i..][0] == e.turns[i] && e.turns[i..][1..] == e.turns[i + 1..];
      var next := CheckA(e, q, a, e.turns[i]);
      if next.None? { return false; }
      a := next.value;
    }
    ok := Closing(e, a);
  }

  // ---- what the loop over the long turns establishes ----

  /** The turn was captured between the receipts of the other project that bound its stage. */
  predicate InStage(e: Evidence, t: Turn)
  {
    if t.stage == 1 then e.before.claim.captureIndex < t.claim.captureIndex < e.afterRestart.claim.captureIndex
    else e.afterRestart.claim.captureIndex < t.claim.captureIndex < e.afterSecond.claim.captureIndex
  }

  /** The checks of a turn that do not depend on the turns before it. */
  predicate TurnChecked(e: Evidence, t: Turn)
  {
    && (t.stage == 1 || t.stage == 2)
    && Persisted(t.persistence, e.final.messages, t.question, t.answer)
    && Persisted(t.persistence, if t.stage == 1 then e.first.messages else e.second.messages, t.question, t.answer)
    && AnchorBefore(t, e.first) && AnchorBefore(t, e.second) && t.textsOk
    && InStage(e, t)
    && CoveredBefore(t, e.first) && CoveredBefore(t, e.second)
    && (t.stage == 2 ==> t.claim.captureIndex > e.afterRestart.claim.captureIndex)
  }

  lemma {:induction false} TurnsChecked(e: Evidence, q: Questions, s: LoopA, turns: seq<Turn>)
    requires CheckAllA(e, q, s, turns).Some?
    ensures forall t <- turns :: TurnChecked(e, t)
    decreases |turns|
  {
    if turns != [] {
      TurnsChecked(e, q, CheckA(e, q, s, turns[0]).value, turns[1..]);
      assert turns == [turns[0]] + turns[1..];
    }
  }

  /** Every turn is a turn of the scenario and asks its question; the turns of a stage are numbered from one. */
  lemma {:induction false} TurnsAsk(e: Evidence, q: Questions, s: LoopA, turns: seq<Turn>)
    requires CheckAllA(e, q, s, turns).Some? && (s.stage == 1 || s.stage == 2)
    ensures forall t <- turns :: HasCase(t.stage, t.turn) && t.question == q(t.stage, t.turn)
    ensures forall k :: 0 <= k < |turns| ==>
              var stage, turn := if k == 0 then s.stage else turns[k - 1].stage, if k == 0 then s.turn else turns[k - 1].turn;
              if turns[k].stage == stage then turns[k].turn == turn + 1
              else stage == 1 && turns[k].stage == 2 && turns[k].turn == 1
    decreases |turns|
  {
    if turns != [] {
      var next := CheckA(e, q, s, turns[0]).value;
      NextStage(e, q, s, turns[0]);
      assert next.turn == turns[0].turn && HasCase(turns[0].stage, turns[0].turn);
      assert turns[0].question == q(turns[0].stage, turns[0].turn);
      assert if turns[0].stage == s.stage then turns[0].turn == s.turn + 1
             else s.stage == 1 && turns[0].stage == 2 && turns[0].turn == 1;
      hide CheckA, HasCase;
      TurnsAsk(e, q, next, turns[1..]);
      assert turns == [turns[0]] + turns[1..];
      forall k | 1 <= k < |turns|
        ensures var stage, turn := turns[k - 1].stage, turns[k - 1].turn;
                if turns[k].stage == stage then turns[k].turn == turn + 1
                else stage == 1 && turns[k].stage == 2 && turns[k].turn == 1
      {
        assert turns[1..][k - 1] == turns[k] && (k > 1 ==> turns[1..][k - 2] == turns[k - 1]);
      }
    }
  }

  /** Every turn adds exactly two messages to the count. */
  lemma {:induction false} CountsGrow(e: Evidence, q: Questions, s: LoopA, turns: seq<Turn>)
    requires CheckAllA(e, q, s, turns).Some?
    requires s.messageCount > 0 || (s.messageCount == 0 && turns != [] && turns[0].persistence.messageCount == 2)
    ensures CheckAllA(e, q, s, turns).value.messageCount == s.messageCount + 2 * |turns|
    ensures forall k :: 0 <= k < |turns| ==> turns[k].persistence.messageCount == s.messageCount + 2 * (k + 1)
    decreases |turns|
  {
    if turns != [] {
      var next := CheckA(e, q, s, turns[0]).value;
      CountsGrow(e, q, next, turns[1..]);
      forall k | 0 <= k < |turns| ensures turns[k].persistence.messageCount == s.messageCount + 2 * (k + 1) {
        if k > 0 { assert turns[k] == turns[1..][k - 1]; }
      }
    }
  }

  lemma {:induction false} CapturesIncrease(e: Evidence, q: Questions, s: LoopA, turns: seq<Turn>)
    requires CheckAllA(e, q, s, turns).Some?
    ensures forall t <- turns :: s.captureIndex < t.claim.captureIndex
    ensures forall i, j :: 0 <= i < j < |turns| ==> turns[i].claim.captureIndex < turns[j].claim.captureIndex
    decreases |turns|
  {
    if turns != [] {
      CapturesIncrease(e, q, CheckA(e, q, s, turns[0]).value, turns[1..]);
      hide CheckA, CheckAllA;
      assert turns == [turns[0]] + turns[1..];
    }
  }

  function Indices(claims: seq<Claim>): seq<int> { Map((c: Claim) => c.captureIndex, claims) }

  function TurnClaims(turns: seq<Turn>): seq<Claim> { Map((t: Turn) => t.claim, turns) }

  function ReceiptClaims(receipts: seq<Receipt>): seq<Claim> { Map((r: Receipt) => r.claim, receipts) }

  /** The claims add new, distinct rows to the claimed ones. */
  ghost predicate Adds(claimed: set<int>, indices: seq<int>, claimed': set<int>)
  {
    && Distinct(indices)
    && (forall i <- indices :: i !in claimed)
    && (forall i :: i in claimed' <==> i in claimed || i in indices)
  }

  lemma AddsOne(claimed: set<int>, first: int, rest: seq<int>, claimed': set<int>)
    requires first !in claimed && Adds(claimed + {first}, rest, claimed')
    ensures Adds(claimed, [first] + rest, claimed')
  {
  }

  lemma AddsBoth(a: set<int>, left: seq<int>, b: set<int>, right: seq<int>, c: set<int>)
    requires Adds(a, left, b) && Adds(b, right, c)
    ensures Adds(a, left + right, c)
  {
    var all := left + right;
    forall i, j | 0 <= i < j < |all| ensures all[i] != all[j] {
      if i < |left| <= j { assert left[i] in left && right[j - |left|] in right; }
    }
  }

  lemma {:induction false} TurnsClaim(e: Evidence, q: Questions, s: LoopA, turns: seq<Turn>)
    requires CheckAllA(e, q, s, turns).Some?
    ensures Adds(s.claimed, Indices(TurnClaims(turns)), CheckAllA(e, q, s, turns).value.claimed)
    decreases |turns|
  {
    if turns != [] {
      var next := CheckA(e, q, s, turns[0]).value;
      TurnsClaim(e, q, next, turns[1..]);
      assert CheckAllA(e, q, s, turns) == CheckAllA(e, q, next, turns[1..]);
      assert turns[0].claim.captureIndex !in s.claimed && next.claimed == s.claimed + {turns[0].claim.captureIndex};
      hide *;
      AddsOne(s.claimed, turns[0].claim.captureIndex, Indices(TurnClaims(turns[1..])),
              CheckAllA(e, q, s, turns).value.claimed);
      IndicesCons(turns);
    }
  }

  lemma IndicesCons(turns: seq<Turn>)
    requires turns != []
    ensures Indices(TurnClaims(turns)) == [turns[0].claim.captureIndex] + Indices(TurnClaims(turns[1..]))
  {
  }

  lemma {:induction false} ReceiptsClaim(rows: seq<Row>, s: LoopB, receipts: seq<Receipt>)
    requires CheckAllB(rows, s, receipts).Some?
    ensures Adds(s.claimed, Indices(ReceiptClaims(receipts)), CheckAllB(rows, s, receipts).value.claimed)
    decreases |receipts|
  {
    if receipts != [] {
      var next := CheckB(rows, s, receipts[0]).value;
      ReceiptsClaim(rows, next, receipts[1..]);
      AddsOne(s.claimed, receipts[0].claim.captureIndex, Indices(ReceiptClaims(receipts[1..])),
              CheckAllB(rows, s, receipts).value.claimed);
      assert Indices(ReceiptClaims(receipts)) ==
             [receipts[0].claim.captureIndex] + Indices(ReceiptClaims(receipts[1..]));
    }
  }

  lemma NextStage(e: Evidence, q: Questions, s: LoopA, t: Turn)
    requires CheckA(e, q, s, t).Some? && (s.stage == 1 || s.stage == 2)
    ensures CheckA(e, q, s, t).value.stage == t.stage && (t.stage == 1 || t.stage == 2)
    ensures s.stage == 2 ==> t.stage == 2
  {
  }

  /** Stage 1 comes before stage 2, and a stage that starts does so with its first turn. */
  lemma {:induction false} StagesInOrder(e: Evidence, q: Questions, s: LoopA, turns: seq<Turn>)
    requires CheckAllA(e, q, s, turns).Some? && (s.stage == 1 || s.stage == 2)
    ensures s.stage == 2 ==> forall t <- turns :: t.stage == 2
    ensures Messages(OfStage(turns, 1)) + Messages(OfStage(turns, 2)) == Messages(turns)
    ensures turns != [] && turns[0].stage == 2 ==> OfStage(turns, 1) == []
    decreases |turns|
  {
    if turns != [] {
      hide CheckA;
      var next := CheckA(e, q, s, turns[0]).value;
      NextStage(e, q, s, turns[0]);
      StagesInOrder(e, q, next, turns[1..]);
      hide *;
      assert turns == [turns[0]] + turns[1..];
      if turns[0].stage == 2 { AllLater(turns); } else { OneEarlier(turns); }
    }
  }

  lemma AllLater(turns: seq<Turn>)
    requires forall t <- turns :: t.stage == 2
    ensures OfStage(turns, 1) == [] && Messages(OfStage(turns, 1)) + Messages(OfStage(turns, 2)) == Messages(turns)
  {
    NoneOfStage(turns, 1);
    AllOfStage(turns, 2);
    assert [] + Messages(turns) == Messages(turns);
  }

  lemma OneEarlier(turns: seq<Turn>)
    requires turns != [] && turns[0].stage == 1
    requires Messages(OfStage(turns[1..], 1)) + Messages(OfStage(turns[1..], 2)) == Messages(turns[1..])
    ensures Messages(OfStage(turns, 1)) + Messages(OfStage(turns, 2)) == Messages(turns)
  {
    OfStageCons(turns);
    hide *;
    var first, rest := turns[0], turns[1..];
    var ones, twos := OfStage(rest, 1), OfStage(rest, 2);
    var pair := [first.persistence.sqlite.user, first.persistence.sqlite.assistant];
    MessagesCons(first, ones);
    MessagesCons(first, rest);
    assert Messages(turns) == pair + Messages(rest) by { assert [first] + rest == turns; }
    assert Messages(OfStage(turns, 1)) == pair + Messages(ones) && OfStage(turns, 2) == twos;
    Regroup(pair, Messages(ones), Messages(twos));
  }

  lemma AllOfStage(turns: seq<Turn>, stage: int)
    requires forall t <- turns :: t.stage == stage
    ensures OfStage(turns, stage) == turns
  {
    FilterAll((t: Turn) => t.stage == stage, turns);
  }

  lemma OfStageCons(turns: seq<Turn>)
    requires turns != [] && turns[0].stage == 1
    ensures OfStage(turns, 1) == [turns[0]] + OfStage(turns[1..], 1) && OfStage(turns, 2) == OfStage(turns[1..], 2)
  {
  }

  lemma MessagesCons(t: Turn, turns: seq<Turn>)
    ensures Messages([t] + turns) ==
            [t.persistence.sqlite.user, t.persistence.sqlite.assistant] + Messages(turns)
  {
    assert ([t] + turns)[1..] == turns;
  }

  lemma NoneOfStage(turns: seq<Turn>, stage: int)
    requires forall t <- turns :: t.stage != stage
    ensures OfStage(turns, stage) == []
  {
    FilterNone((t: Turn) => t.stage == stage, turns);
  }

  // ---- main results ----

  function LoopEnd(e: Evidence, q: Questions): LoopA
    requires Accepted(e, q)
  {
    CheckAllA(e, q, StartA(e, CheckAllB(e.rows, StartB(e), ProjectB(e)).value.claimed), e.turns).value
  }

  /** A stage-1 turn exists: the receipt cannot start after the restart. */
  lemma FirstTurnIsFirst(e: Evidence, q: Questions)
    requires Accepted(e, q)
    ensures e.turns[0].stage == 1 && e.turns[0].turn == 1 && e.turns[0].persistence.messageCount == 2
  {
    var s := StartA(e, CheckAllB(e.rows, StartB(e), ProjectB(e)).value.claimed);
    AnchorReceipted(e, q);
    hide CheckA, CheckAllB, Opening, Closing, StageOrder;
    StagesInOrder(e, q, s, e.turns);
    FirstChecked(e, q, s, e.turns);
  }

  /** The first snapshot holds the anchor, so its receipted part is not empty. */
  lemma AnchorReceipted(e: Evidence, q: Questions)
    requires Accepted(e, q)
    ensures OfStage(e.turns, 1) != []
  {
    hide CheckAllA, CheckAllB, StageOrder;
    var m :| m in e.first.messages && Anchor(m, e.first.userId, q(1, 1));
    assert m in AtLeast(e.first.messages, e.first.userId);
  }

  lemma FirstChecked(e: Evidence, q: Questions, s: LoopA, turns: seq<Turn>)
    requires turns != [] && CheckAllA(e, q, s, turns).Some? && s.stage == 1 && s.turn == 0
    ensures turns[0].stage == 1 || turns[0].stage == 2
    ensures turns[0].stage == 1 ==> turns[0].turn == 1 && turns[0].persistence.messageCount == 2
  {
  }

  /** The whole history is receipted: turn k holds places 2k and 2k+1, the final recall the last two. */
  lemma HistoryAccounted(e: Evidence, q: Questions)
    requires Accepted(e, q)
    ensures |e.final.messages| == 2 * (|e.turns| + 1)
    ensures forall k :: 0 <= k < |e.turns| ==>
              && e.final.messages[2 * k] == e.turns[k].persistence.sqlite.user
              && e.final.messages[2 * k + 1] == e.turns[k].persistence.sqlite.assistant
    ensures e.final.messages[2 * |e.turns|] == e.final.persistence.sqlite.user
    ensures e.final.messages[2 * |e.turns| + 1] == e.final.persistence.sqlite.assistant
  {
    hide *;
    CountsExact(e, q);
    PlacesFollow(e);
  }

  lemma PlacesFollow(e: Evidence)
    requires forall t <- e.turns :: TurnChecked(e, t)
    requires forall k :: 0 <= k < |e.turns| ==> e.turns[k].persistence.messageCount == 2 * (k + 1)
    requires e.final.persistence.messageCount == |e.final.messages| == 2 * (|e.turns| + 1)
    requires Persisted(e.final.persistence, e.final.messages, e.final.question, e.final.answer)
    ensures forall k :: 0 <= k < |e.turns| ==>
              && e.final.messages[2 * k] == e.turns[k].persistence.sqlite.user
              && e.final.messages[2 * k + 1] == e.turns[k].persistence.sqlite.assistant
    ensures e.final.messages[2 * |e.turns|] == e.final.persistence.sqlite.user
    ensures e.final.messages[2 * |e.turns| + 1] == e.final.persistence.sqlite.assistant
  {
    hide *;
    PairAt(e.final.persistence, e.final);
    forall k | 0 <= k < |e.turns|
      ensures e.final.messages[2 * k] == e.turns[k].persistence.sqlite.user
      ensures e.final.messages[2 * k + 1] == e.turns[k].persistence.sqlite.assistant
    {
      assert e.turns[k] in e.turns;
      TurnPairAt(e, e.turns[k]);
    }
  }

  lemma CountsExact(e: Evidence, q: Questions)
    requires Accepted(e, q)
    ensures forall t <- e.turns :: TurnChecked(e, t)
    ensures forall k :: 0 <= k < |e.turns| ==> e.turns[k].persistence.messageCount == 2 * (k + 1)
    ensures e.final.persistence.messageCount == |e.final.messages| == 2 * (|e.turns| + 1)
    ensures Persisted(e.final.persistence, e.final.messages, e.final.question, e.final.answer)
  {
    hide *;
    var s := AcceptedParts(e, q);
    FirstTurnIsFirst(e, q);
    CountsGrow(e, q, s, e.turns);
    TurnsChecked(e, q, s, e.turns);
    FinalCounts(e, CheckAllA(e, q, s, e.turns).value);
  }

  lemma AcceptedParts(e: Evidence, q: Questions) returns (s: LoopA)
    requires Accepted(e, q)
    ensures e.turns != [] && s.messageCount == 0 && CheckAllA(e, q, s, e.turns).Some?
    ensures Closing(e, CheckAllA(e, q, s, e.turns).value)
    ensures e.first.messages <= e.final.messages && StageOrder(e)
    ensures s.stage == 1 || s.stage == 2
  {
    s := StartA(e, CheckAllB(e.rows, StartB(e), ProjectB(e)).value.claimed);
  }

  lemma FinalCounts(e: Evidence, s: LoopA)
    requires Closing(e, s)
    ensures e.final.persistence.messageCount == |e.final.messages| == s.messageCount + 2
    ensures Persisted(e.final.persistence, e.final.messages, e.final.question, e.final.answer)
  {
  }

  lemma TurnPairAt(e: Evidence, t: Turn)
    requires TurnChecked(e, t)
    ensures 2 <= t.persistence.messageCount <= |e.final.messages|
    ensures e.final.messages[t.persistence.messageCount - 2] == t.persistence.sqlite.user
    ensures e.final.messages[t.persistence.messageCount - 1] == t.persistence.sqlite.assistant
  {
    PairAt(t.persistence, e.final.(question := t.question, answer := t.answer));
  }

  /** Where a persisted pair lies. */
  lemma PairAt(p: Persistence, r: Receipt)
    requires Persisted(p, r.messages, r.question, r.answer)
    ensures r.messages[p.messageCount - 2] == p.sqlite.user
    ensures r.messages[p.messageCount - 1] == p.sqlite.assistant
  {
    var pair := r.messages[p.messageCount - 2..p.messageCount];
    assert pair[0] == r.messages[p.messageCount - 2] && pair[1] == r.messages[p.messageCount - 1];
  }

  lemma {:induction false} MessagesAt(turns: seq<Turn>)
    ensures |Messages(turns)| == 2 * |turns|
    ensures forall k :: 0 <= k < |turns| ==>
              && Messages(turns)[2 * k] == turns[k].persistence.sqlite.user
              && Messages(turns)[2 * k + 1] == turns[k].persistence.sqlite.assistant
  {
    if turns != [] {
      MessagesAt(turns[1..]);
      forall k | 0 <= k < |turns|
        ensures Messages(turns)[2 * k] == turns[k].persistence.sqlite.user
        ensures Messages(turns)[2 * k + 1] == turns[k].persistence.sqlite.assistant
      {
        if k > 0 {
          assert Messages(turns)[2 * k] == Messages(turns[1..])[2 * (k - 1)];
          assert Messages(turns)[2 * k + 1] == Messages(turns[1..])[2 * (k - 1) + 1];
        }
      }
    }
  }

  /** So the final list is exactly the receipted pairs, and the first snapshot exactly those of stage 1. */
  lemma SnapshotsAreReceipts(e: Evidence, q: Questions)
    requires Accepted(e, q)
    ensures e.final.messages ==
            Messages(e.turns) + [e.final.persistence.sqlite.user, e.final.persistence.sqlite.assistant]
    ensures e.first.messages == Messages(OfStage(e.turns, 1))
  {
    hide *;
    var s := AcceptedParts(e, q);
    StagesInOrder(e, q, s, e.turns);
    HistoryAccounted(e, q);
    ClosingLists(e, CheckAllA(e, q, s, e.turns).value);
    FinalIsReceipts(e);
    FirstIsReceipts(e);
  }

  lemma ClosingLists(e: Evidence, s: LoopA)
    requires Closing(e, s)
    ensures var first, second := Messages(OfStage(e.turns, 1)), Messages(OfStage(e.turns, 2));
            && AtLeast(e.first.messages, e.first.userId) == first
            && AtLeast(e.final.messages, e.first.userId) ==
               first + second + [e.final.persistence.sqlite.user, e.final.persistence.sqlite.assistant]
  {
  }

  lemma FinalIsReceipts(e: Evidence)
    requires |e.final.messages| == 2 * (|e.turns| + 1)
    requires Messages(OfStage(e.turns, 1)) + Messages(OfStage(e.turns, 2)) == Messages(e.turns)
    requires AtLeast(e.final.messages, e.first.userId) ==
             Messages(OfStage(e.turns, 1)) + Messages(OfStage(e.turns, 2))
             + [e.final.persistence.sqlite.user, e.final.persistence.sqlite.assistant]
    ensures e.final.messages ==
            Messages(e.turns) + [e.final.persistence.sqlite.user, e.final.persistence.sqlite.assistant]
    ensures forall m <- e.final.messages :: m.id >= e.first.userId
  {
    hide Messages, OfStage;
    MessagesAt(e.turns);
    FilterFull((m: Message) => m.id >= e.first.userId, e.final.messages);
  }

  lemma FirstIsReceipts(e: Evidence)
    requires e.first.messages <= e.final.messages && forall m <- e.final.messages :: m.id >= e.first.userId
    requires AtLeast(e.first.messages, e.first.userId) == Messages(OfStage(e.turns, 1))
    ensures e.first.messages == Messages(OfStage(e.turns, 1))
  {
    hide Messages, OfStage;
    forall m | m in e.first.messages ensures m.id >= e.first.userId {
      var i :| 0 <= i < |e.first.messages| && e.first.messages[i] == m;
      assert e.final.messages[i] == m;
    }
    FilterAll((m: Message) => m.id >= e.first.userId, e.first.messages);
  }

  lemma {:induction false} FilterFull<A>(p: A -> bool, s: seq<A>)
    requires |Filter(p, s)| == |s|
    ensures Filter(p, s) == s && forall x <- s :: p(x)
  {
    if s != [] {
      FilterFull(p, s[1..]);
      assert s == [s[0]] + s[1..];
    }
  }

  function AllClaims(e: Evidence): seq<Claim>
  {
    [e.first.claim, e.second.claim] + ReceiptClaims(ProjectB(e)) + TurnClaims(e.turns) + [e.final.claim]
  }

  /** No provider row serves two receipts. */
  lemma RowsUsedOnce(e: Evidence, q: Questions)
    requires Accepted(e, q)
    ensures Distinct(Indices(AllClaims(e)))
  {
    var b := CheckAllB(e.rows, StartB(e), ProjectB(e)).value.claimed;
    var s := StartA(e, b);
    var end := LoopEnd(e, q).claimed;
    ReceiptsClaim(e.rows, StartB(e), ProjectB(e));
    TurnsClaim(e, q, s, e.turns);
    var first, second, final := e.first.claim.captureIndex, e.second.claim.captureIndex, e.final.claim.captureIndex;
    assert first != second && final !in end;
    AllDistinct(first, second, Indices(ReceiptClaims(ProjectB(e))), b, Indices(TurnClaims(e.turns)), end, final);
    hide *;
    assert Indices(AllClaims(e)) == [first, second] + Indices(ReceiptClaims(ProjectB(e)))
                                    + Indices(TurnClaims(e.turns)) + [final] by { IndicesSplit(e); }
  }

  lemma AllDistinct(first: int, second: int, receipts: seq<int>, b: set<int>, turns: seq<int>, end: set<int>, final: int)
    requires first != second && final !in end
    requires Adds({first, second}, receipts, b) && Adds(b, turns, end)
    ensures Distinct([first, second] + receipts + turns + [final])
  {
    assert Adds({}, [first, second], {first, second});
    assert Adds(end, [final], end + {final});
    AddsBoth({}, [first, second], {first, second}, receipts, b);
    AddsBoth({}, [first, second] + receipts, b, turns, end);
    AddsBoth({}, [first, second] + receipts + turns, end, [final], end + {final});
  }

  lemma IndicesSplit(e: Evidence)
    ensures Indices(AllClaims(e)) ==
            [e.first.claim.captureIndex, e.second.claim.captureIndex] + Indices(ReceiptClaims(ProjectB(e)))
            + Indices(TurnClaims(e.turns)) + [e.final.claim.captureIndex]
  {
    hide ReceiptClaims, TurnClaims, ProjectB;
  }

  /** And each receipt names the row whose hashes it shows. */
  lemma RowsMatch(e: Evidence, q: Questions)
    requires Accepted(e, q)
    ensures forall c <- AllClaims(e) :: Names(e.rows, c)
  {
    var s := StartA(e, CheckAllB(e.rows, StartB(e), ProjectB(e)).value.claimed);
    ClaimsMatch(e, q, s, e.turns);
    ReceiptsMatch(e.rows, StartB(e), ProjectB(e));
    assert Names(e.rows, e.first.claim) && Names(e.rows, e.second.claim) && Names(e.rows, e.final.claim);
    hide *;
    forall c | c in AllClaims(e) ensures Names(e.rows, c) { ClaimsSplit(e, c); }
  }

  lemma ClaimsSplit(e: Evidence, c: Claim)
    requires c in AllClaims(e)
    ensures c in ReceiptClaims(ProjectB(e)) || c in TurnClaims(e.turns)
            || c == e.first.claim || c == e.second.claim || c == e.final.claim
  {
    hide ReceiptClaims, TurnClaims, ProjectB;
  }

  predicate Names(rows: seq<Row>, c: Claim)
  {
    0 <= c.captureIndex < |rows| && rows[c.captureIndex] == Row(c.requestSha256, c.responseSha256)
  }

  lemma {:induction false} ClaimsMatch(e: Evidence, q: Questions, s: LoopA, turns: seq<Turn>)
    requires CheckAllA(e, q, s, turns).Some?
    ensures forall c <- TurnClaims(turns) :: Names(e.rows, c)
    decreases |turns|
  {
    if turns != [] {
      ClaimsMatch(e, q, CheckA(e, q, s, turns[0]).value, turns[1..]);
      assert TurnClaims(turns) == [turns[0].claim] + TurnClaims(turns[1..]);
    }
  }

  lemma {:induction false} ReceiptsMatch(rows: seq<Row>, s: LoopB, receipts: seq<Receipt>)
    requires CheckAllB(rows, s, receipts).Some?
    ensures forall c <- ReceiptClaims(receipts) :: Names(rows, c)
    decreases |receipts|
  {
    if receipts != [] {
      ReceiptsMatch(rows, CheckB(rows, s, receipts[0]).value, receipts[1..]);
      assert ReceiptClaims(receipts) == [receipts[0].claim] + ReceiptClaims(receipts[1..]);
    }
  }

  /** Long turns were captured in their order; a covered answer before its summary; none after the restart in the first. */
  lemma CapturedInOrder(e: Evidence, q: Questions)
    requires Accepted(e, q)
    ensures forall i, j :: 0 <= i < j < |e.turns| ==> e.turns[i].claim.captureIndex < e.turns[j].claim.captureIndex
    ensures forall t <- e.turns :: CoveredBefore(t, e.first) && CoveredBefore(t, e.second)
    ensures forall t <- e.turns :: t.stage == 2 ==> t.persistence.sqlite.assistant.id > e.first.upToMsgId
  {
    hide *;
    var s := AcceptedParts(e, q);
    CapturesIncrease(e, q, s, e.turns);
    TurnsChecked(e, q, s, e.turns);
    forall t | t in e.turns
      ensures CoveredBefore(t, e.first) && CoveredBefore(t, e.second)
      ensures t.stage == 2 ==> t.persistence.sqlite.assistant.id > e.first.upToMsgId
    {
      LaterNotCovered(e, t);
    }
  }

  lemma LaterNotCovered(e: Evidence, t: Turn)
    requires TurnChecked(e, t) && StageOrder(e)
    ensures CoveredBefore(t, e.first) && CoveredBefore(t, e.second)
    ensures t.stage == 2 ==> t.persistence.sqlite.assistant.id > e.first.upToMsgId
  {
  }

  /** Every assistant message of the final list that a summary covers was captured before the summary. */
  ghost predicate CoverageHolds(e: Evidence, s: Summary)
  {
    && (forall t <- e.turns :: CoveredBefore(t, s))
    && (e.final.persistence.sqlite.assistant.id <= s.upToMsgId ==>
          e.final.claim.captureIndex < s.claim.captureIndex)
  }

  /** Turns are answered in order, and the stage changes only with a turn of the second one. */
  lemma {:induction false} AssistantsBelow(e: Evidence, q: Questions, s: LoopA, turns: seq<Turn>)
    requires CheckAllA(e, q, s, turns).Some?
    ensures var end := CheckAllA(e, q, s, turns).value;
            && s.assistantId <= end.assistantId
            && (forall t <- turns :: t.persistence.sqlite.assistant.id <= end.assistantId)
            && (s.stage == 1 && end.stage == 2 ==> exists t <- turns :: t.stage == 2)
    decreases |turns|
  {
    if turns != [] {
      var next := CheckA(e, q, s, turns[0]).value;
      assert s.assistantId < turns[0].persistence.sqlite.assistant.id == next.assistantId;
      assert next.stage == 1 || next.stage == s.stage || turns[0].stage == 2;
      hide CheckA;
      AssistantsBelow(e, q, next, turns[1..]);
      assert turns == [turns[0]] + turns[1..];
    }
  }

  /** The final answer comes after every long turn, so the first summary never covers it. */
  lemma FirstBoundaryBeforeFinal(e: Evidence, q: Questions)
    requires Accepted(e, q)
    ensures e.first.upToMsgId < e.final.persistence.sqlite.assistant.id
  {
    CapturedInOrder(e, q);
    hide *;
    StartsInFirst(e, q);
    FinalAfter(e, LoopEnd(e, q));
    AssistantsBelow(e, q, StartOf(e, q), e.turns);
  }

  function StartOf(e: Evidence, q: Questions): LoopA
    requires Accepted(e, q)
  {
    StartA(e, CheckAllB(e.rows, StartB(e), ProjectB(e)).value.claimed)
  }

  lemma StartsInFirst(e: Evidence, q: Questions)
    requires Accepted(e, q)
    ensures StartOf(e, q).stage == 1 && CheckAllA(e, q, StartOf(e, q), e.turns) == Some(LoopEnd(e, q))
    ensures Closing(e, LoopEnd(e, q))
  {
    hide CheckAllA, CheckAllB, Opening, Closing, StageOrder;
  }

  lemma FinalAfter(e: Evidence, s: LoopA)
    requires Closing(e, s)
    ensures s.stage == 2 && e.final.persistence.sqlite.assistant.id > s.assistantId
  {
  }

  /** Coverage always holds for the first summary, and for the second exactly when its boundary is before the final answer. */
  lemma CoverageExactly(e: Evidence, q: Questions)
    requires Accepted(e, q)
    ensures CoverageHolds(e, e.first)
    ensures CoverageHolds(e, e.second) <==> e.second.upToMsgId < e.final.persistence.sqlite.assistant.id
  {
    CapturedInOrder(e, q);
    FirstBoundaryBeforeFinal(e, q);
    hide CheckAllA, CheckA, CheckAllB;
  }

  /** The messages of the receipted long turns fill a provider window before the restart, and another one after it. */
  lemma WindowsFilled(e: Evidence, q: Questions)
    requires Accepted(e, q)
    ensures Tokens(Messages(OfStage(e.turns, 1))) == e.first.rawTokens >= WINDOW
    ensures Tokens(Messages(OfStage(e.turns, 2))) == e.second.rawTokens >= WINDOW
  {
    SnapshotsAreReceipts(e, q);
    hide *;
    StartsInFirst(e, q);
    WindowFacts(e, q, LoopEnd(e, q));
    AllReceipted(e);
  }

  lemma WindowFacts(e: Evidence, q: Questions, s: LoopA)
    requires Accepted(e, q) && Closing(e, s)
    ensures e.first.userId > 0 && AtLeast(e.first.messages, e.first.userId) == Messages(OfStage(e.turns, 1))
    ensures AtLeast(e.second.messages, e.second.userId) == Messages(OfStage(e.turns, 2))
    ensures Tokens(AtLeast(e.first.messages, 0)) == e.first.rawTokens >= WINDOW
    ensures Tokens(AtLeast(e.second.messages, e.second.userId)) == e.second.rawTokens >= WINDOW
  {
    hide CheckAllA, CheckAllB, StageOrder, AtLeast, Tokens, Messages, OfStage, Captures;
  }

  lemma AllReceipted(e: Evidence)
    requires e.first.userId > 0 && AtLeast(e.first.messages, e.first.userId) == e.first.messages
    ensures AtLeast(e.first.messages, 0) == e.first.messages
  {
    FilterFull((m: Message) => m.id >= e.first.userId, e.first.messages);
    FilterAll((m: Message) => m.id >= 0, e.first.messages);
  }

  /**
   The user of every long turn asked the question of the scenario, stage by stage and in its order, and
   question and answer are in the final list; each turn was captured within its stage.
   */
  lemma ScenarioFollowed(e: Evidence, q: Questions)
    requires Accepted(e, q)
    ensures forall k :: 0 <= k < |e.turns| ==>
              var t := e.turns[k];
              && HasCase(t.stage, t.turn) && t.question == q(t.stage, t.turn) && t.textsOk && InStage(e, t)
              && 2 * k + 1 < |e.final.messages|
              && e.final.messages[2 * k].role == User && e.final.messages[2 * k].content == q(t.stage, t.turn)
              && e.final.messages[2 * k + 1].role == Assistant && e.final.messages[2 * k + 1].content == t.answer
    ensures e.turns[0].stage == 1 && e.turns[0].turn == 1
    ensures forall k :: 0 < k < |e.turns| ==>
              if e.turns[k].stage == e.turns[k - 1].stage then e.turns[k].turn == e.turns[k - 1].turn + 1
              else e.turns[k - 1].stage == 1 && e.turns[k].stage == 2 && e.turns[k].turn == 1
  {
    hide *;
    StartsInFirst(e, q);
    TurnsAsk(e, q, StartOf(e, q), e.turns);
    TurnsChecked(e, q, StartOf(e, q), e.turns);
    FirstTurnIsFirst(e, q);
    HistoryAccounted(e, q);
    forall k | 0 <= k < |e.turns|
      ensures e.turns[k].textsOk && InStage(e, e.turns[k])
      ensures PairPersisted(e.turns[k].persistence.sqlite, e.turns[k].question, e.turns[k].answer)
    {
      assert e.turns[k] in e.turns;
      PairOf(e, e.turns[k]);
    }
    forall k | 0 <= k < |e.turns|
      ensures var p, t := e.turns[k].persistence.sqlite, e.turns[k];
              p.user.role == User && p.user.content == t.question && p.assistant.role == Assistant && p.assistant.content == t.answer
    {
      PairMeans(e.turns[k]);
    }
  }

  lemma PairOf(e: Evidence, t: Turn)
    requires TurnChecked(e, t)
    ensures t.textsOk && InStage(e, t) && PairPersisted(t.persistence.sqlite, t.question, t.answer)
  {
  }

  lemma PairMeans(t: Turn)
    requires PairPersisted(t.persistence.sqlite, t.question, t.answer)
    ensures var p := t.persistence.sqlite;
            p.user.role == User && p.user.content == t.question && p.assistant.role == Assistant && p.assistant.content == t.answer
  {
  }

  /** The other project's list grew by one pair a receipt, from an empty conversation. */
  lemma OtherProjectAccounted(e: Evidence, q: Questions)
    requires Accepted(e, q)
    ensures |e.before.messages| == 2 && |e.afterRestart.messages| == 4 && |e.afterSecond.messages| == 6
    ensures e.afterSecond.messages ==
            [e.before.persistence.sqlite.user, e.before.persistence.sqlite.assistant,
             e.afterRestart.persistence.sqlite.user, e.afterRestart.persistence.sqlite.assistant,
             e.afterSecond.persistence.sqlite.user, e.afterSecond.persistence.sqlite.assistant]
  {
    assert CheckAllB(e.rows, StartB(e), ProjectB(e)).Some?;
    hide Accepted, CheckAllB, CheckB, Persisted;
    ThreePairs(e.rows, StartB(e), e.before, e.afterRestart, e.afterSecond);
  }

  lemma ThreePairs(rows: seq<Row>, start: LoopB, b: Receipt, a: Receipt, s: Receipt)
    requires CheckAllB(rows, start, [b, a, s]).Some? && start.messages == []
    ensures |b.messages| == 2 && |a.messages| == 4 && |s.messages| == 6
    ensures s.messages == [b.persistence.sqlite.user, b.persistence.sqlite.assistant,
                           a.persistence.sqlite.user, a.persistence.sqlite.assistant,
                           s.persistence.sqlite.user, s.persistence.sqlite.assistant]
  {
    hide *;
    assert [b, a, s] == [b] + [a, s] && [a, s] == [a] + [s] && [s] == [s] + [];
    var b1 := NextB(rows, start, b, [a, s]);
    var b2 := NextB(rows, b1, a, [s]);
    var b3 := NextB(rows, b2, s, []);
    LastPair(b);
    LastPair(a);
    LastPair(s);
  }

  lemma NextB(rows: seq<Row>, s: LoopB, r: Receipt, rest: seq<Receipt>) returns (next: LoopB)
    requires CheckAllB(rows, s, [r] + rest).Some?
    ensures next.messages == r.messages && CheckAllB(rows, next, rest).Some?
    ensures |r.messages| == |s.messages| + 2 && s.messages <= r.messages
    ensures Persisted(r.persistence, r.messages, r.question, r.answer) && r.persistence.messageCount == |r.messages|
  {
    hide Persisted, Captures;
    assert ([r] + rest)[1..] == rest;
    next := CheckB(rows, s, r).value;
  }

  lemma LastPair(r: Receipt)
    requires Persisted(r.persistence, r.messages, r.question, r.answer) && r.persistence.messageCount == |r.messages|
    ensures r.messages[|r.messages| - 2] == r.persistence.sqlite.user
    ensures r.messages[|r.messages| - 1] == r.persistence.sqlite.assistant
  {
    PairAt(r.persistence, r);
  }
}
