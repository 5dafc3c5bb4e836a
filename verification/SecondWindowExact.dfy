/**
 What the verifier of the second-window receipt accepts, said of the evidence as a whole: no loop, no state,
 every turn by its place.
 */
module SecondWindowExact {
  import opened Common
  import opened SecondWindow

  // ---- what sound evidence is ----

  predicate Hex(text: string) { |text| == 64 && forall c <- text :: c in "0123456789abcdef" }

  /** The claim shows the hashes of the row that it names. */
  predicate Attested(rows: seq<Row>, c: Claim)
  {
    && Hex(c.requestSha256) && Hex(c.responseSha256)
    && 0 <= c.captureIndex < |rows|
    && c.requestSha256 == rows[c.captureIndex].requestSha256 && c.responseSha256 == rows[c.captureIndex].responseSha256
  }

  /** Both readers saw question and answer as the last two of the first `count` messages. */
  predicate Stored(p: Persistence, count: int, messages: seq<Message>, question: string, answer: string)
  {
    var user, assistant := p.sqlite.user, p.sqlite.assistant;
    && p.http.user == user && p.http.assistant == assistant && p.messageCount == count
    && 1 < count <= |messages| && messages[count - 2] == user && messages[count - 1] == assistant
    && user == Message(user.id, User, question, user.tokens)
    && assistant == Message(assistant.id, Assistant, answer, assistant.tokens)
    && 1 <= user.id < assistant.id
  }

  function Answered(p: Persistence): int { p.sqlite.assistant.id }

  /** The captures of the receipts and the two summaries alternate. */
  predicate Alternate(e: Evidence)
  {
    e.before.claim.captureIndex < e.first.claim.captureIndex < e.afterRestart.claim.captureIndex
    < e.second.claim.captureIndex < e.afterSecond.claim.captureIndex < e.final.claim.captureIndex
  }

  predicate ReceiptSound(rows: seq<Row>, r: Receipt, count: int)
  {
    && Attested(rows, r.claim) && r.textsOk && |r.messages| == count
    && Stored(r.persistence, count, r.messages, r.question, r.answer)
  }

  /** The other project's conversation grew by one stored pair a receipt. */
  predicate OtherSound(e: Evidence)
  {
    && ReceiptSound(e.rows, e.before, 2) && ReceiptSound(e.rows, e.afterRestart, 4) && ReceiptSound(e.rows, e.afterSecond, 6)
    && e.before.messages == e.afterRestart.messages[..2] && e.afterRestart.messages == e.afterSecond.messages[..4]
    && Answered(e.before.persistence) < Answered(e.afterRestart.persistence) < Answered(e.afterSecond.persistence)
  }

  /** The turn at this place continues the scenario. */
  predicate Follows(turns: seq<Turn>, k: nat)
    requires k < |turns|
  {
    if k == 0 then turns[k].stage == 1 && turns[k].turn == 1
    else if turns[k].stage == turns[k - 1].stage then turns[k].turn == turns[k - 1].turn + 1
    else turns[k].stage == 2 && turns[k].turn == 1 && turns[k - 1].stage == 1
  }

  /** An answer that a summary covers, and the one that its anchor got, came before the summary. */
  predicate BeforeSummary(t: Turn, s: Summary)
  {
    Answered(t.persistence) <= s.upToMsgId || t.persistence.sqlite.user.id == s.userId ==>
      t.claim.captureIndex < s.claim.captureIndex
  }

  predicate TurnSound(e: Evidence, q: Questions, k: nat)
    requires k < |e.turns|
  {
    var t := e.turns[k];
    var captured := t.claim.captureIndex;
    && Follows(e.turns, k) && t.stage in {1, 2} && t.turn in {1, 2, 3, 4, 5, 6, 7, 8, 9, 10, 11, 12}
    && t.question == q(t.stage, t.turn) && t.textsOk
    && Attested(e.rows, t.claim) && captured !in {e.first.claim.captureIndex, e.second.claim.captureIndex}
    && (t.stage == 1 ==> e.before.claim.captureIndex < captured < e.afterRestart.claim.captureIndex)
    && (t.stage == 2 ==> e.afterRestart.claim.captureIndex < captured < e.afterSecond.claim.captureIndex)
    && (k > 0 ==> e.turns[k - 1].claim.captureIndex < captured)
    && (k > 0 ==> Answered(e.turns[k - 1].persistence) < Answered(t.persistence))
    && BeforeSummary(t, e.first) && BeforeSummary(t, e.second)
    && Stored(t.persistence, 2 * k + 2, if t.stage == 1 then e.first.messages else e.second.messages, t.question, t.answer)
    && Stored(t.persistence, 2 * k + 2, e.final.messages, t.question, t.answer)
  }

  ghost predicate TurnsSound(e: Evidence, q: Questions)
  {
    |e.turns| > 9 && forall k :: 0 <= k < |e.turns| ==> TurnSound(e, q, k)
  }

  /** Boundaries advance, and each snapshot extends the one before it. */
  predicate SnapshotsSound(e: Evidence)
  {
    && e.textsOk && |e.rows| > 3
    && 1 <= e.first.userId < e.second.userId <= e.second.upToMsgId
    && e.first.userId <= e.first.upToMsgId < e.second.upToMsgId
    && e.restartMessages == e.first.messages
    && |e.first.messages| <= |e.second.messages| <= |e.final.messages|
    && e.first.messages == e.second.messages[..|e.first.messages|]
    && e.second.messages == e.final.messages[..|e.second.messages|]
    && Attested(e.rows, e.first.claim) && Attested(e.rows, e.second.claim)
  }

  ghost predicate Anchored(messages: seq<Message>, id: int, text: string)
  {
    exists i :: 0 <= i < |messages| && messages[i].id == id && messages[i].role == User && messages[i].content == text
  }

  /** Each stage holds its anchor and nothing but receipted turns, which fill the window of 4096 tokens. */
  ghost predicate StagesSound(e: Evidence, q: Questions)
  {
    var one, two := Messages(OfStage(e.turns, 1)), Messages(OfStage(e.turns, 2));
    && e.first.messages == one && (forall m <- e.final.messages :: e.first.userId <= m.id)
    && Filter((m: Message) => m.id >= e.second.userId, e.second.messages) == two
    && e.first.rawTokens == Tokens(one) >= 4096 && e.second.rawTokens == Tokens(two) >= 4096
    && Anchored(e.first.messages, e.first.userId, q(1, 1)) && Anchored(e.second.messages, e.second.userId, q(2, 1))
  }

  /** The final recall is the last pair of all, after a turn of the second stage. */
  predicate FinalSound(e: Evidence)
    requires e.turns != []
  {
    var n := |e.turns|;
    && e.turns[n - 1].stage == 2 && Answered(e.turns[n - 1].persistence) < Answered(e.final.persistence)
    && ReceiptSound(e.rows, e.final, 2 * n + 2)
  }

  ghost predicate Sound(e: Evidence, q: Questions)
  {
    && SnapshotsSound(e) && Alternate(e) && OtherSound(e) && TurnsSound(e, q)
    && StagesSound(e, q) && FinalSound(e)
  }

  // ---- single checks ----

  lemma HexIs(text: string)
    ensures Hex(text) <==> Sha256(text)
  {
    forall c: char ensures '0' <= c <= '9' || 'a' <= c <= 'f' <==> c in "0123456789abcdef" {
      var all := "0123456789abcdef";
      if '0' <= c <= '9' { assert all[c as int - '0' as int] == c; }
      if 'a' <= c <= 'f' { assert all[10 + c as int - 'a' as int] == c; }
    }
  }

  lemma CapturesIs(rows: seq<Row>, c: Claim, claimed: set<int>)
    ensures Captures(rows, c, claimed) <==> Attested(rows, c) && c.captureIndex !in claimed
  {
    HexIs(c.requestSha256);
    HexIs(c.responseSha256);
    hide Hex, Sha256;
  }

  lemma PersistedIs(p: Persistence, messages: seq<Message>, question: string, answer: string)
    ensures Persisted(p, messages, question, answer) <==> Stored(p, p.messageCount, messages, question, answer)
  {
    if 2 <= p.messageCount <= |messages| {
      var pair := messages[p.messageCount - 2..p.messageCount];
      assert pair[0] == messages[p.messageCount - 2] && pair[1] == messages[p.messageCount - 1];
      assert pair == [pair[0], pair[1]];
    }
  }

  // ---- the other project ----

  lemma ReceiptIs(rows: seq<Row>, s: LoopB, r: Receipt)
    ensures CheckB(rows, s, r) ==
            if ReceiptSound(rows, r, |s.messages| + 2) && r.claim.captureIndex !in s.claimed
               && s.messages <= r.messages && s.assistantId < Answered(r.persistence)
            then Some(LoopB(s.claimed + {r.claim.captureIndex}, r.messages, Answered(r.persistence)))
            else None
  {
    CapturesIs(rows, r.claim, s.claimed);
    PersistedIs(r.persistence, r.messages, r.question, r.answer);
    hide Captures, Persisted, Attested;
  }

  function AllReceipts(e: Evidence): set<int>
  {
    {e.first.claim.captureIndex, e.second.claim.captureIndex, e.before.claim.captureIndex,
     e.afterRestart.claim.captureIndex, e.afterSecond.claim.captureIndex}
  }

  lemma ThreeReceipts(rows: seq<Row>, s: LoopB, b: Receipt, a: Receipt, c: Receipt)
    ensures CheckAllB(rows, s, [b, a, c]) ==
            match CheckB(rows, s, b)
            case None => None
            case Some(one) =>
              match CheckB(rows, one, a)
              case None => None
              case Some(two) => CheckB(rows, two, c)
  {
    hide CheckB, CheckAllB;
    FirstReceipt(rows, s, b, [a, c]);
    assert [b] + [a, c] == [b, a, c] && [a] + [c] == [a, c] && [c] + [] == [c];
    if CheckB(rows, s, b).Some? {
      var one := CheckB(rows, s, b).value;
      FirstReceipt(rows, one, a, [c]);
      if CheckB(rows, one, a).Some? { LastReceipt(rows, CheckB(rows, one, a).value, c); }
    }
  }

  lemma FirstReceipt(rows: seq<Row>, s: LoopB, r: Receipt, rest: seq<Receipt>)
    ensures CheckAllB(rows, s, [r] + rest) ==
            match CheckB(rows, s, r) case None => None case Some(next) => CheckAllB(rows, next, rest)
  {
    hide CheckB;
    assert ([r] + rest)[1..] == rest;
  }

  lemma LastReceipt(rows: seq<Row>, s: LoopB, r: Receipt)
    ensures CheckAllB(rows, s, [r]) == CheckB(rows, s, r)
  {
    hide CheckB;
    assert [r] + [] == [r];
    FirstReceipt(rows, s, r, []);
  }

  lemma SoundReceipt(rows: seq<Row>, r: Receipt, count: int)
    ensures ReceiptSound(rows, r, count) ==> |r.messages| == count && Answered(r.persistence) > 0
  {
  }

  lemma OtherIs(e: Evidence)
    requires Alternate(e)
    ensures CheckAllB(e.rows, StartB(e), ProjectB(e)).Some? <==> OtherSound(e)
    ensures OtherSound(e) ==> CheckAllB(e.rows, StartB(e), ProjectB(e)).value.claimed == AllReceipts(e)
  {
    ThreeReceipts(e.rows, StartB(e), e.before, e.afterRestart, e.afterSecond);
    var s := StartB(e);
    ReceiptIs(e.rows, s, e.before);
    var one := LoopB(s.claimed + {e.before.claim.captureIndex}, e.before.messages, Answered(e.before.persistence));
    ReceiptIs(e.rows, one, e.afterRestart);
    var two := LoopB(one.claimed + {e.afterRestart.claim.captureIndex}, e.afterRestart.messages, Answered(e.afterRestart.persistence));
    ReceiptIs(e.rows, two, e.afterSecond);
    SoundReceipt(e.rows, e.before, 2);
    SoundReceipt(e.rows, e.afterRestart, 4);
    SoundReceipt(e.rows, e.afterSecond, 6);
    hide CheckAllB, CheckB, ReceiptSound, Answered;
  }

  // ---- the long turns ----

  /** The variables of the loop before the turn at this place. */
  ghost function Before(e: Evidence, k: nat): LoopA
    requires k <= |e.turns|
  {
    var claimed := AllReceipts(e) + set i | 0 <= i < k :: e.turns[i].claim.captureIndex;
    var seen := set i | 0 <= i < k :: (e.turns[i].stage, e.turns[i].turn);
    if k == 0 then LoopA(claimed, seen, 1, 0, 0, 0, e.before.claim.captureIndex)
    else
      var t := e.turns[k - 1];
      LoopA(claimed, seen, t.stage, t.turn, Answered(t.persistence), t.persistence.messageCount, t.claim.captureIndex)
  }

  /** Earlier turns have smaller captures and numbers. */
  lemma {:induction false} EarlierSmaller(e: Evidence, q: Questions, k: nat)
    requires 0 < k <= |e.turns| && forall i :: 0 <= i < k ==> TurnSound(e, q, i)
    ensures forall i :: 0 <= i < k ==>
              var t, last := e.turns[i], e.turns[k - 1];
              && t.claim.captureIndex <= last.claim.captureIndex
              && t.stage <= last.stage && (t.stage == last.stage ==> t.turn <= last.turn)
  {
    if k > 1 {
      EarlierSmaller(e, q, k - 1);
      assert TurnSound(e, q, k - 1);
      LinkTo(e, q, k - 1);
      hide TurnSound;
    }
  }

  lemma LinkTo(e: Evidence, q: Questions, k: nat)
    requires 0 < k < |e.turns| && TurnSound(e, q, k)
    ensures e.turns[k - 1].claim.captureIndex < e.turns[k].claim.captureIndex
    ensures e.turns[k - 1].stage <= e.turns[k].stage
    ensures e.turns[k].stage == e.turns[k - 1].stage ==> e.turns[k - 1].turn < e.turns[k].turn
  {
    hide Attested, Stored, BeforeSummary;
  }

  lemma Unseen(e: Evidence, q: Questions, k: nat)
    requires k < |e.turns| && forall i :: 0 <= i <= k ==> TurnSound(e, q, i)
    requires Alternate(e)
    ensures (e.turns[k].stage, e.turns[k].turn) !in Before(e, k).seen
    ensures e.turns[k].claim.captureIndex !in Before(e, k).claimed
  {
    assert TurnSound(e, q, k);
    assert e.turns[k].claim.captureIndex !in AllReceipts(e) by { hide Stored, Attested, BeforeSummary, Follows; }
    if k > 0 {
      EarlierSmaller(e, q, k);
      LinkTo(e, q, k);
    }
    hide TurnSound, AllReceipts;
  }

  lemma NextBefore(e: Evidence, k: nat)
    requires k < |e.turns|
    ensures Before(e, k + 1).claimed == Before(e, k).claimed + {e.turns[k].claim.captureIndex}
    ensures Before(e, k + 1).seen == Before(e, k).seen + {(e.turns[k].stage, e.turns[k].turn)}
  {
    hide AllReceipts;
  }

  lemma SummaryIs(t: Turn, s: Summary)
    ensures BeforeSummary(t, s) <==> CoveredBefore(t, s) && AnchorBefore(t, s)
  {
  }

  /** The parts of the check of one turn that need no memory. */
  predicate Alone(e: Evidence, q: Questions, t: Turn)
  {
    && HasCase(t.stage, t.turn) && t.question == q(t.stage, t.turn) && t.textsOk
    && (t.stage == 1 ==> e.before.claim.captureIndex < t.claim.captureIndex < e.afterRestart.claim.captureIndex)
    && (t.stage == 2 ==> e.afterRestart.claim.captureIndex < t.claim.captureIndex < e.afterSecond.claim.captureIndex)
    && BeforeSummary(t, e.first) && BeforeSummary(t, e.second)
    && Persisted(t.persistence, if t.stage == 1 then e.first.messages else e.second.messages, t.question, t.answer)
    && Persisted(t.persistence, e.final.messages, t.question, t.answer)
  }

  lemma CheckAIs(e: Evidence, q: Questions, s: LoopA, t: Turn)
    requires s.stage == 1 || s.stage == 2
    ensures CheckA(e, q, s, t) ==
            if && (t.stage, t.turn) !in s.seen
               && (if t.stage == s.stage then t.turn == s.turn + 1 else s.stage == 1 && t.stage == 2 && t.turn == 1)
               && (t.stage == 1 && t.turn == 1 ==> t.persistence.messageCount == 2)
               && Captures(e.rows, t.claim, s.claimed) && t.claim.captureIndex > s.captureIndex
               && Answered(t.persistence) > s.assistantId
               && (s.messageCount != 0 ==> t.persistence.messageCount == s.messageCount + 2)
               && Alone(e, q, t)
            then Some(LoopA(s.claimed + {t.claim.captureIndex}, s.seen + {(t.stage, t.turn)}, t.stage, t.turn,
                            Answered(t.persistence), t.persistence.messageCount, t.claim.captureIndex))
            else None
  {
    SummaryIs(t, e.first);
    SummaryIs(t, e.second);
    hide Captures, Persisted, CoveredBefore, AnchorBefore, BeforeSummary;
  }

  /** What soundness adds to the checks of a turn alone. */
  lemma TurnSoundIs(e: Evidence, q: Questions, k: nat)
    requires k < |e.turns|
    ensures var t := e.turns[k];
            TurnSound(e, q, k) <==>
            && Follows(e.turns, k) && Alone(e, q, t) && Attested(e.rows, t.claim)
            && t.claim.captureIndex !in {e.first.claim.captureIndex, e.second.claim.captureIndex}
            && (k > 0 ==> e.turns[k - 1].claim.captureIndex < t.claim.captureIndex)
            && (k > 0 ==> Answered(e.turns[k - 1].persistence) < Answered(t.persistence))
            && t.persistence.messageCount == 2 * k + 2
  {
    var t := e.turns[k];
    PersistedIs(t.persistence, if t.stage == 1 then e.first.messages else e.second.messages, t.question, t.answer);
    PersistedIs(t.persistence, e.final.messages, t.question, t.answer);
    CountIs(t, if t.stage == 1 then e.first.messages else e.second.messages, 2 * k + 2);
    CountIs(t, e.final.messages, 2 * k + 2);
    assert HasCase(t.stage, t.turn) <==> t.stage in {1, 2} && t.turn in {1, 2, 3, 4, 5, 6, 7, 8, 9, 10, 11, 12};
    hide HasCase, Persisted, Stored, BeforeSummary, Attested, Follows, Answered;
  }

  lemma CountIs(t: Turn, messages: seq<Message>, count: int)
    ensures Stored(t.persistence, count, messages, t.question, t.answer) <==>
            Stored(t.persistence, t.persistence.messageCount, messages, t.question, t.answer) && t.persistence.messageCount == count
  {
  }

  lemma AnsweredPositive(e: Evidence, q: Questions, t: Turn)
    requires Alone(e, q, t)
    ensures Answered(t.persistence) > 0
  {
  }

  /** One turn of the loop accepts exactly a sound turn. */
  lemma StepIs(e: Evidence, q: Questions, k: nat)
    requires k < |e.turns| && Alternate(e) && e.turns[0].stage == 1
    requires forall i :: 0 <= i < k ==> TurnSound(e, q, i)
    ensures CheckA(e, q, Before(e, k), e.turns[k]) == if TurnSound(e, q, k) then Some(Before(e, k + 1)) else None
  {
    var s, t := Before(e, k), e.turns[k];
    if k > 0 { TurnSoundIs(e, q, k - 1); assert TurnSound(e, q, k - 1); }
    assert s.stage == 1 || s.stage == 2 by { hide Stored, Attested, Follows, Captures; }
    CheckAIs(e, q, s, t);
    TurnSoundIs(e, q, k);
    NextBefore(e, k);
    CapturesIs(e.rows, t.claim, s.claimed);
    if Alone(e, q, t) { AnsweredPositive(e, q, t); }
    if TurnSound(e, q, k) { Unseen(e, q, k); }
    assert e.first.claim.captureIndex in s.claimed && e.second.claim.captureIndex in s.claimed;
    hide CheckA, TurnSound, Alone, Attested, Captures, Answered, AllReceipts, Alternate;
  }

  /** The loop accepts exactly sound turns. */
  lemma {:induction false} LoopIs(e: Evidence, q: Questions, k: nat)
    requires k <= |e.turns| && Alternate(e) && e.turns != [] && e.turns[0].stage == 1
    requires forall i :: 0 <= i < k ==> TurnSound(e, q, i)
    ensures CheckAllA(e, q, Before(e, k), e.turns[k..]) ==
            if forall i :: k <= i < |e.turns| ==> TurnSound(e, q, i) then Some(Before(e, |e.turns|)) else None
    decreases |e.turns| - k
  {
    hide TurnSound, Before, CheckA, Alternate;
    if k < |e.turns| {
      assert e.turns[k..][0] == e.turns[k] && e.turns[k..][1..] == e.turns[k + 1..];
      StepIs(e, q, k);
      if TurnSound(e, q, k) { LoopIs(e, q, k + 1); }
    }
  }

  // ---- the whole ----

  lemma AlternateIs(e: Evidence)
    ensures Alternate(e) <==> StageOrder(e)
  {
  }

  lemma AnchoredIs(messages: seq<Message>, id: int, text: string)
    ensures Anchored(messages, id, text) <==> exists m <- messages :: Anchor(m, id, text)
  {
    if m :| m in messages && Anchor(m, id, text) {
      var i :| 0 <= i < |messages| && messages[i] == m;
    } else if i :| 0 <= i < |messages| && messages[i].id == id && messages[i].role == User && messages[i].content == text {
      assert messages[i] in messages && Anchor(messages[i], id, text);
    }
  }

  lemma AtLeastSecond(e: Evidence)
    ensures AtLeast(e.second.messages, e.second.userId) == Filter((m: Message) => m.id >= e.second.userId, e.second.messages)
  {
  }

  /** The checks before the loops, without those of the stages. */
  lemma OpeningIs(e: Evidence, q: Questions)
    requires Alternate(e)
    ensures Opening(e, q) <==>
            && SnapshotsSound(e)
            && Anchored(e.first.messages, e.first.userId, q(1, 1)) && Anchored(e.second.messages, e.second.userId, q(2, 1))
            && e.first.rawTokens == RawTokens(e.first.messages, 0) && e.first.rawTokens >= 4096
            && e.second.rawTokens == RawTokens(e.second.messages, e.second.userId) && e.second.rawTokens >= 4096
  {
    AnchoredIs(e.first.messages, e.first.userId, q(1, 1));
    AnchoredIs(e.second.messages, e.second.userId, q(2, 1));
    CapturesIs(e.rows, e.first.claim, {});
    CapturesIs(e.rows, e.second.claim, {e.first.claim.captureIndex});
    assert |e.first.messages| <= |e.second.messages| && e.first.messages == e.second.messages[..|e.first.messages|]
      <==> e.first.messages <= e.second.messages;
    assert |e.second.messages| <= |e.final.messages| && e.second.messages == e.final.messages[..|e.second.messages|]
      <==> e.second.messages <= e.final.messages;
    hide Captures, Attested, Anchored, RawTokens;
  }

  /** The checks after the loops. */
  lemma ClosingIs(e: Evidence, s: LoopA)
    requires e.turns != [] && s == Before(e, |e.turns|) && e.final.claim.captureIndex !in s.claimed
    requires s.messageCount == 2 * |e.turns|
    ensures Closing(e, s) <==>
            var first, second := Messages(OfStage(e.turns, 1)), Messages(OfStage(e.turns, 2));
            && FinalSound(e)
            && AtLeast(e.first.messages, e.first.userId) == first
            && AtLeast(e.second.messages, e.second.userId) == second
            && AtLeast(e.final.messages, e.first.userId) ==
               first + second + [e.final.persistence.sqlite.user, e.final.persistence.sqlite.assistant]
  {
    CapturesIs(e.rows, e.final.claim, s.claimed);
    PersistedIs(e.final.persistence, e.final.messages, e.final.question, e.final.answer);
    assert s.stage == e.turns[|e.turns| - 1].stage && s.assistantId == Answered(e.turns[|e.turns| - 1].persistence);
    hide Captures, Persisted, Attested, Messages, OfStage, AtLeast, Before;
  }

  /** The final recall was captured after everything that had been claimed. */
  lemma FinalUnclaimed(e: Evidence, q: Questions)
    requires Alternate(e) && e.turns != [] && forall i :: 0 <= i < |e.turns| ==> TurnSound(e, q, i)
    ensures e.final.claim.captureIndex !in Before(e, |e.turns|).claimed
    ensures Before(e, |e.turns|).messageCount == 2 * |e.turns|
  {
    assert TurnSound(e, q, |e.turns| - 1);
    forall i | 0 <= i < |e.turns| ensures e.turns[i].claim.captureIndex < e.afterSecond.claim.captureIndex {
      assert TurnSound(e, q, i);
    }
  }

  lemma SoundAccepted(e: Evidence, q: Questions)
    requires Sound(e, q)
    ensures Accepted(e, q)
  {
    hide *;
    SoundParts(e, q);
    OtherIs(e);
    AlternateIs(e);
    LoopIs(e, q, 0);
    FinalUnclaimed(e, q);
    OpeningIs(e, q);
    ClosingIs(e, Before(e, |e.turns|));
    assert CheckAllA(e, q, Before(e, 0), e.turns) == Some(Before(e, |e.turns|)) by { assert e.turns[0..] == e.turns; }
    BeforeFirst(e);
    StagesInOrder(e, q, Before(e, 0), e.turns);
    SoundLists(e, q);
    AcceptedIs(e, q);
  }

  lemma BeforeFirst(e: Evidence)
    ensures Before(e, 0) == StartA(e, AllReceipts(e)) && Before(e, 0).stage == 1
  {
    hide AllReceipts;
    assert Before(e, 0).claimed == AllReceipts(e) && Before(e, 0).seen == {};
  }

  lemma AcceptedIs(e: Evidence, q: Questions)
    requires Alternate(e) && StageOrder(e)
    ensures Accepted(e, q) <==>
            && Opening(e, q) && CheckAllB(e.rows, StartB(e), ProjectB(e)).Some? && |e.turns| >= 10
            && var a := CheckAllA(e, q, StartA(e, CheckAllB(e.rows, StartB(e), ProjectB(e)).value.claimed), e.turns);
               a.Some? && Closing(e, a.value)
  {
    hide Opening, CheckAllB, CheckAllA, Closing, StageOrder, Alternate;
  }

  lemma SoundParts(e: Evidence, q: Questions)
    requires Sound(e, q)
    ensures SnapshotsSound(e) && Alternate(e) && OtherSound(e) && StagesSound(e, q) && |e.turns| >= 10 && FinalSound(e)
    ensures (forall k :: 0 <= k < |e.turns| ==> TurnSound(e, q, k)) && e.turns[0].stage == 1
  {
    hide SnapshotsSound, Alternate, OtherSound, StagesSound, FinalSound;
    assert TurnSound(e, q, 0);
  }

  /** For sound evidence the lists of the stages are what the verifier compares. */
  lemma SoundLists(e: Evidence, q: Questions)
    requires SnapshotsSound(e) && StagesSound(e, q) && e.turns != [] && FinalSound(e)
    requires forall k :: 0 <= k < |e.turns| ==> TurnSound(e, q, k)
    requires Messages(OfStage(e.turns, 1)) + Messages(OfStage(e.turns, 2)) == Messages(e.turns)
    ensures Anchored(e.first.messages, e.first.userId, q(1, 1)) && Anchored(e.second.messages, e.second.userId, q(2, 1))
    ensures e.first.rawTokens == RawTokens(e.first.messages, 0) && e.first.rawTokens >= 4096
    ensures e.second.rawTokens == RawTokens(e.second.messages, e.second.userId) && e.second.rawTokens >= 4096
    ensures AtLeast(e.first.messages, e.first.userId) == Messages(OfStage(e.turns, 1))
    ensures AtLeast(e.second.messages, e.second.userId) == Messages(OfStage(e.turns, 2))
    ensures AtLeast(e.final.messages, e.first.userId) ==
            Messages(OfStage(e.turns, 1)) + Messages(OfStage(e.turns, 2))
            + [e.final.persistence.sqlite.user, e.final.persistence.sqlite.assistant]
  {
    hide *;
    FinalListed(e, q);
    StageFacts(e, q);
    AtLeastSecond(e);
    FilterAll((m: Message) => m.id >= e.first.userId, e.final.messages);
    FilterAll((m: Message) => m.id >= e.first.userId, e.first.messages);
    AtLeastIs(e.final.messages, e.first.userId);
    AtLeastIs(e.first.messages, e.first.userId);
    AllReceipted(e);
    RawTokensIs(e.first.messages, 0);
    RawTokensIs(e.second.messages, e.second.userId);
  }

  lemma RawTokensIs(messages: seq<Message>, id: int)
    ensures RawTokens(messages, id) == Tokens(AtLeast(messages, id))
  {
  }

  lemma AtLeastIs(messages: seq<Message>, id: int)
    ensures AtLeast(messages, id) == Filter((m: Message) => m.id >= id, messages)
  {
  }

  lemma StageFacts(e: Evidence, q: Questions)
    requires SnapshotsSound(e) && StagesSound(e, q)
    ensures var one, two := Messages(OfStage(e.turns, 1)), Messages(OfStage(e.turns, 2));
            && e.first.userId > 0 && e.first.messages == one
            && (forall m <- e.final.messages :: e.first.userId <= m.id) && (forall m <- e.first.messages :: e.first.userId <= m.id)
            && Filter((m: Message) => m.id >= e.second.userId, e.second.messages) == two
            && e.first.rawTokens == Tokens(one) >= 4096 && e.second.rawTokens == Tokens(two) >= 4096
            && Anchored(e.first.messages, e.first.userId, q(1, 1)) && Anchored(e.second.messages, e.second.userId, q(2, 1))
  {
    hide Messages, OfStage, Tokens, Anchored, Attested;
    forall m | m in e.first.messages ensures e.first.userId <= m.id {
      var i :| 0 <= i < |e.first.messages| && e.first.messages[i] == m;
      assert e.second.messages[i] == m && e.final.messages[i] == m;
    }
  }

  lemma FinalListed(e: Evidence, q: Questions)
    requires e.turns != [] && FinalSound(e)
    requires forall k :: 0 <= k < |e.turns| ==> TurnSound(e, q, k)
    ensures e.final.messages == Messages(e.turns) + [e.final.persistence.sqlite.user, e.final.persistence.sqlite.assistant]
  {
    hide Messages;
    var n := |e.turns|;
    MessagesAt(e.turns);
    var all := Messages(e.turns) + [e.final.persistence.sqlite.user, e.final.persistence.sqlite.assistant];
    forall k | 0 <= k < n
      ensures e.final.messages[2 * k] == all[2 * k] && e.final.messages[2 * k + 1] == all[2 * k + 1]
    {
      assert TurnSound(e, q, k);
    }
    hide TurnSound;
    assert e.final.messages[2 * n] == all[2 * n] && e.final.messages[2 * n + 1] == all[2 * n + 1];
    forall i | 0 <= i < 2 * n + 2 ensures e.final.messages[i] == all[i] {
      var k := i / 2;
      assert i == 2 * k || i == 2 * k + 1;
    }
  }

  lemma AcceptedSound(e: Evidence, q: Questions)
    requires Accepted(e, q)
    ensures Sound(e, q)
  {
    hide *;
    AcceptedOrder(e, q);
    AlternateIs(e);
    AcceptedIs(e, q);
    OtherIs(e);
    FirstTurnIsFirst(e, q);
    BeforeFirst(e);
    LoopIs(e, q, 0);
    assert e.turns[0..] == e.turns;
    FinalUnclaimed(e, q);
    OpeningIs(e, q);
    ClosingIs(e, Before(e, |e.turns|));
    SnapshotsAreReceipts(e, q);
    WindowsFilled(e, q);
    AtLeastSecond(e);
    AllIds(e, q);
    SoundIs(e, q);
  }

  lemma AcceptedOrder(e: Evidence, q: Questions)
    requires Accepted(e, q)
    ensures StageOrder(e) && |e.turns| >= 10
  {
    hide Opening, CheckAllB, CheckAllA, Closing, StageOrder;
  }

  lemma AllIds(e: Evidence, q: Questions)
    requires Accepted(e, q)
    ensures forall m <- e.final.messages :: e.first.userId <= m.id
  {
    hide *;
    var s := AcceptedParts(e, q);
    StagesInOrder(e, q, s, e.turns);
    HistoryAccounted(e, q);
    ClosingLists(e, CheckAllA(e, q, s, e.turns).value);
    FinalIsReceipts(e);
  }

  lemma SoundIs(e: Evidence, q: Questions)
    requires SnapshotsSound(e) && Alternate(e) && OtherSound(e) && |e.turns| >= 10 && FinalSound(e)
    requires forall k :: 0 <= k < |e.turns| ==> TurnSound(e, q, k)
    requires e.first.messages == Messages(OfStage(e.turns, 1)) && forall m <- e.final.messages :: e.first.userId <= m.id
    requires Filter((m: Message) => m.id >= e.second.userId, e.second.messages) == Messages(OfStage(e.turns, 2))
    requires Tokens(Messages(OfStage(e.turns, 1))) == e.first.rawTokens && e.first.rawTokens >= 4096
    requires Tokens(Messages(OfStage(e.turns, 2))) == e.second.rawTokens && e.second.rawTokens >= 4096
    requires Anchored(e.first.messages, e.first.userId, q(1, 1)) && Anchored(e.second.messages, e.second.userId, q(2, 1))
    ensures Sound(e, q)
  {
    hide SnapshotsSound, Alternate, OtherSound, FinalSound, TurnSound, Messages, OfStage, Tokens, Anchored;
  }

  // ---- main result ----

  /** The verifier accepts exactly the sound evidence. */
  lemma AcceptedExactly(e: Evidence, q: Questions)
    ensures Accepted(e, q) <==> Sound(e, q)
  {
    hide *;
    if Accepted(e, q) { AcceptedSound(e, q); }
    if Sound(e, q) { SoundAccepted(e, q); }
  }
}
