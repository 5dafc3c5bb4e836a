/**
 An accepted receipt whose second summary claims to cover the final answer, although the answer was
 captured after it: ten turns, five in each stage, then the final recall.
 */
module SecondWindowWitness {
  import opened Common
  import opened SecondWindow

  // ---- the receipt; pair n of the history has the ids 2n+1 and 2n+2 ----

  function Hash(): string { seq(64, _ => '0') }

  function ClaimAt(i: nat): Claim { Claim(i, Hash(), Hash()) }

  function Question(q: Questions, n: nat): string { if n < 10 then q(1 + n / 5, 1 + n % 5) else "recall" }

  function UserAt(q: Questions, n: nat): Message { Message(2 * n + 1, User, Question(q, n), WINDOW) }

  function AssistantAt(n: nat): Message { Message(2 * n + 2, Assistant, "answer", WINDOW) }

  function History(q: Questions, n: nat): (h: seq<Message>)
    ensures |h| == 2 * n
  {
    seq(2 * n, k requires 0 <= k < 2 * n => if k % 2 == 0 then UserAt(q, k / 2) else AssistantAt(k / 2))
  }

  function PersistenceAt(q: Questions, n: nat): Persistence
  {
    var pair := Pair(UserAt(q, n), AssistantAt(n));
    Persistence(2 * n + 2, pair, pair)
  }

  function ReceiptAt(q: Questions, n: nat, index: nat, count: nat): Receipt
  {
    Receipt(ClaimAt(index), History(q, count), Question(q, n), "answer", PersistenceAt(q, n), true)
  }

  /** The rows 0, 6, 7, 13, 14 and 15 belong to the other project, the summaries and the final recall. */
  function CaptureOf(n: nat): nat { if n < 5 then n + 1 else n + 3 }

  function TurnAt(q: Questions, n: nat): Turn
  {
    Turn(1 + n / 5, 1 + n % 5, ClaimAt(CaptureOf(n)), Question(q, n), "answer", PersistenceAt(q, n), true)
  }

  function Turns(q: Questions): (turns: seq<Turn>)
    ensures |turns| == 10 && forall n :: 0 <= n < 10 ==> turns[n] == TurnAt(q, n)
  {
    seq(10, n requires 0 <= n < 10 => TurnAt(q, n))
  }

  function FirstSummary(q: Questions): Summary { Summary(ClaimAt(6), 1, 10, History(q, 5), 10 * WINDOW) }

  function SecondSummary(q: Questions): Summary { Summary(ClaimAt(13), 11, 22, History(q, 10), 10 * WINDOW) }

  function TheEvidence(q: Questions): Evidence
  {
    Evidence(seq(16, _ => Row(Hash(), Hash())), FirstSummary(q), SecondSummary(q), History(q, 5),
             ReceiptAt(q, 0, 0, 1), ReceiptAt(q, 1, 7, 2), ReceiptAt(q, 2, 14, 3), Turns(q),
             ReceiptAt(q, 10, 15, 11), true)
  }

  // ---- its parts ----

  lemma HistoryPair(q: Questions, n: nat, count: nat)
    requires n < count
    ensures History(q, count)[2 * n] == UserAt(q, n) && History(q, count)[2 * n + 1] == AssistantAt(n)
    ensures History(q, count)[2 * n..2 * n + 2] == [UserAt(q, n), AssistantAt(n)]
  {
  }

  lemma HistoryPrefix(q: Questions, n: nat, count: nat)
    requires n <= count
    ensures History(q, n) <= History(q, count)
  {
  }

  lemma PersistedAt(q: Questions, n: nat, count: nat)
    requires n < count
    ensures Persisted(PersistenceAt(q, n), History(q, count), Question(q, n), "answer")
  {
    HistoryPair(q, n, count);
    hide History, Question;
  }

  lemma CapturedAt(q: Questions, index: nat, claimed: set<int>)
    requires index < 16 && index !in claimed
    ensures Captures(TheEvidence(q).rows, ClaimAt(index), claimed)
  {
    hide History, Turns, ReceiptAt, FirstSummary, SecondSummary;
  }

  lemma {:induction false} UniformTokens(messages: seq<Message>)
    requires forall m <- messages :: m.tokens == WINDOW
    ensures Tokens(messages) == WINDOW * |messages|
  {
    if messages != [] { UniformTokens(messages[1..]); }
  }

  lemma FromFirst(q: Questions, n: nat, id: int)
    requires id <= 1
    ensures AtLeast(History(q, n), id) == History(q, n)
  {
    FilterAll((m: Message) => m.id >= id, History(q, n));
  }

  lemma IdsOf(q: Questions, n: nat, k: nat)
    requires k < 2 * n
    ensures History(q, n)[k].id == k + 1
  {
  }

  lemma FromEleventh(q: Questions)
    ensures AtLeast(History(q, 10), 11) == History(q, 10)[10..]
  {
    var h := History(q, 10);
    forall k: nat | k < 20 ensures h[k].id == k + 1 { IdsOf(q, 10, k); }
    hide History;
    assert h == h[..10] + h[10..];
    var p := (m: Message) => m.id >= 11;
    FilterAppend(p, h[..10], h[10..]);
    FilterNone(p, h[..10]);
    FilterAll(p, h[10..]);
    assert [] + h[10..] == h[10..];
  }

  lemma StageTurns(q: Questions)
    ensures OfStage(Turns(q), 1) == Turns(q)[..5] && OfStage(Turns(q), 2) == Turns(q)[5..]
  {
    var turns := Turns(q);
    var first, second := turns[..5], turns[5..];
    assert turns == first + second;
    forall stage ensures OfStage(turns, stage) == OfStage(first, stage) + OfStage(second, stage) {
      FilterAppend((t: Turn) => t.stage == stage, first, second);
    }
    AllOfStage(first, 1);
    AllOfStage(second, 2);
    NoneOfStage(first, 2);
    NoneOfStage(second, 1);
    assert first + [] == first && [] + second == second;
  }

  lemma MessagesOf(q: Questions, turns: seq<Turn>, from: nat)
    requires forall n :: 0 <= n < |turns| ==> turns[n] == TurnAt(q, from + n)
    ensures |Messages(turns)| == 2 * |turns|
    ensures forall n :: 0 <= n < |turns| ==>
              Messages(turns)[2 * n] == UserAt(q, from + n) && Messages(turns)[2 * n + 1] == AssistantAt(from + n)
  {
    MessagesAt(turns);
    hide Messages;
  }

  /** The messages of consecutive turns are a section of the history. */
  lemma MessagesAre(q: Questions, messages: seq<Message>, from: nat, count: nat)
    requires |messages| == 2 * count
    requires forall n :: 0 <= n < count ==>
               messages[2 * n] == UserAt(q, from + n) && messages[2 * n + 1] == AssistantAt(from + n)
    ensures messages == History(q, from + count)[2 * from..]
  {
    var h := History(q, from + count);
    forall k: nat | k < |messages| ensures messages[k] == h[2 * from + k] {
      HistoryPair(q, from + k / 2, from + count);
      hide History, UserAt, AssistantAt;
      assert k == 2 * (k / 2) || k == 2 * (k / 2) + 1;
    }
  }

  lemma StageMessages(q: Questions)
    ensures Messages(OfStage(Turns(q), 1)) == History(q, 5)
    ensures Messages(OfStage(Turns(q), 2)) == History(q, 10)[10..]
  {
    StageTurns(q);
    hide *;
    MessagesOf(q, Turns(q)[..5], 0);
    MessagesOf(q, Turns(q)[5..], 5);
    MessagesAre(q, Messages(Turns(q)[..5]), 0, 5);
    MessagesAre(q, Messages(Turns(q)[5..]), 5, 5);
  }

  // ---- the checks ----

  lemma Opens(q: Questions)
    ensures Opening(TheEvidence(q), q)
  {
    var e := TheEvidence(q);
    CapturedAt(q, 6, {});
    CapturedAt(q, 13, {6});
    HistoryPair(q, 0, 5);
    HistoryPair(q, 5, 10);
    HistoryPrefix(q, 5, 10);
    HistoryPrefix(q, 10, 11);
    FromFirst(q, 5, 0);
    FromEleventh(q);
    UniformTokens(History(q, 5));
    UniformTokens(History(q, 10)[10..]);
    hide History, Captures, AtLeast, Tokens, Turns, Hash;
    assert Anchor(e.first.messages[0], 1, q(1, 1)) && Anchor(e.second.messages[10], 11, q(2, 1));
  }

  function StateB(q: Questions, claimed: set<int>, n: nat): LoopB { LoopB(claimed, History(q, n), 2 * n) }

  lemma StepB(q: Questions, claimed: set<int>, n: nat, index: nat)
    requires index < 16 && index !in claimed
    ensures CheckB(TheEvidence(q).rows, StateB(q, claimed, n), ReceiptAt(q, n, index, n + 1)) ==
            Some(StateB(q, claimed + {index}, n + 1))
  {
    CapturedAt(q, index, claimed);
    PersistedAt(q, n, n + 1);
    HistoryPrefix(q, n, n + 1);
    hide History, Captures, Persisted, TheEvidence, Hash;
  }

  lemma AheadB(rows: seq<Row>, s: LoopB, r: Receipt, rest: seq<Receipt>)
    requires CheckB(rows, s, r).Some?
    ensures CheckAllB(rows, s, [r] + rest) == CheckAllB(rows, CheckB(rows, s, r).value, rest)
  {
    hide CheckB;
    assert ([r] + rest)[1..] == rest;
  }

  lemma ChainB(q: Questions)
    ensures CheckAllB(TheEvidence(q).rows, StateB(q, {6, 13}, 0),
                      [ReceiptAt(q, 0, 0, 1)] + ([ReceiptAt(q, 1, 7, 2)] + [ReceiptAt(q, 2, 14, 3)])) ==
            Some(StateB(q, {6, 13} + {0} + {7} + {14}, 3))
  {
    hide *;
    var rows := TheEvidence(q).rows;
    var a, b, c := ReceiptAt(q, 0, 0, 1), ReceiptAt(q, 1, 7, 2), ReceiptAt(q, 2, 14, 3);
    var s1, s2 := {6, 13} + {0}, {6, 13} + {0} + {7};
    StepB(q, {6, 13}, 0, 0);
    StepB(q, s1, 1, 7);
    StepB(q, s2, 2, 14);
    LastB(rows, StateB(q, s2, 2), c);
    AheadB(rows, StateB(q, s1, 1), b, [c]);
    AheadB(rows, StateB(q, {6, 13}, 0), a, [b] + [c]);
  }

  lemma LastB(rows: seq<Row>, s: LoopB, r: Receipt)
    ensures CheckAllB(rows, s, [r]) == CheckB(rows, s, r)
  {
    hide CheckB;
    assert [r][1..] == [];
  }

  lemma AllB(q: Questions)
    ensures var e := TheEvidence(q);
            CheckAllB(e.rows, StartB(e), ProjectB(e)) == Some(StateB(q, {6, 13} + {0} + {7} + {14}, 3))
  {
    ChainB(q);
    hide CheckAllB, ReceiptAt, Turns, Hash;
    var e := TheEvidence(q);
    assert StartB(e) == StateB(q, {6, 13}, 0);
    assert ProjectB(e) == [e.before] + ([e.afterRestart] + [e.afterSecond]);
  }

  /** Where the loop over the long turns is before turn n. */
  ghost predicate Before(s: LoopA, n: nat)
  {
    && s.stage == (if n <= 5 then 1 else 2) && s.turn == (if n <= 5 then n else n - 5)
    && s.assistantId == 2 * n && s.messageCount == 2 * n
    && s.captureIndex == (if n == 0 then 0 else CaptureOf(n - 1))
    && (forall i <- s.claimed :: i in {0, 6, 7, 13, 14} || i <= s.captureIndex)
    && (forall key <- s.seen :: 5 * (key.0 - 1) + (key.1 - 1) < n)
  }

  lemma StepA(q: Questions, s: LoopA, n: nat)
    requires n < 10 && Before(s, n)
    ensures var next := CheckA(TheEvidence(q), q, s, TurnAt(q, n)); next.Some? && Before(next.value, n + 1)
  {
    var t := TurnAt(q, n);
    assert n == 5 * (n / 5) + n % 5;
    assert CaptureOf(n) !in s.claimed;
    CapturedAt(q, CaptureOf(n), s.claimed);
    PersistedAt(q, n, if n < 5 then 5 else 10);
    PersistedAt(q, n, 11);
    hide History, Captures, Persisted, Hash, Turns;
  }

  lemma {:induction false} AllA(q: Questions, s: LoopA, n: nat)
    requires n <= 10 && Before(s, n)
    ensures var end := CheckAllA(TheEvidence(q), q, s, Turns(q)[n..]); end.Some? && Before(end.value, 10)
    decreases 10 - n
  {
    if n < 10 {
      StepA(q, s, n);
      assert Turns(q)[n..][0] == TurnAt(q, n) && Turns(q)[n..][1..] == Turns(q)[n + 1..];
      AllA(q, CheckA(TheEvidence(q), q, s, TurnAt(q, n)).value, n + 1);
      hide CheckA, Before, TheEvidence, TurnAt, Turns;
    }
  }

  lemma Closes(q: Questions, s: LoopA)
    requires Before(s, 10)
    ensures Closing(TheEvidence(q), s)
  {
    StageMessages(q);
    FromFirst(q, 5, 1);
    FromFirst(q, 11, 1);
    FromEleventh(q);
    CapturedAt(q, 15, s.claimed);
    PersistedAt(q, 10, 11);
    HistoryPair(q, 10, 11);
    HistoryPrefix(q, 5, 11);
    HistoryPrefix(q, 10, 11);
    HistoryPrefix(q, 5, 10);
    var all := History(q, 11);
    assert History(q, 5) + History(q, 10)[10..] + [UserAt(q, 10), AssistantAt(10)] == all by {
      assert all == all[..10] + all[10..20] + all[20..22];
      assert all[..10] == History(q, 5) && all[10..20] == History(q, 10)[10..];
    }
    hide History, Captures, Persisted, Hash, Turns, Messages, OfStage, AtLeast;
  }

  // ---- main result ----

  lemma IsAccepted(q: Questions)
    ensures Accepted(TheEvidence(q), q)
  {
    var e := TheEvidence(q);
    Opens(q);
    AllB(q);
    var start := StartA(e, {6, 13} + {0} + {7} + {14});
    assert Before(start, 0);
    assert Turns(q)[0..] == Turns(q);
    AllA(q, start, 0);
    Closes(q, CheckAllA(e, q, start, e.turns).value);
    hide Opening, CheckAllA, CheckAllB, Closing, History, Hash, Turns, Before;
  }

  /** It is accepted; each long turn of the second stage is captured before the second summary, the final answer after it. */
  lemma SecondCoverageFails(q: Questions)
    ensures var e := TheEvidence(q);
            && Accepted(e, q) && !CoverageHolds(e, e.second)
            && (forall t <- e.turns :: t.stage == 2 ==> t.claim.captureIndex < e.second.claim.captureIndex)
  {
    IsAccepted(q);
    hide Accepted, History, Hash;
  }
}
