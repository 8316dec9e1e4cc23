/** What one turn of `triggerBotReplies` does to the chat, stated as a
    function of the state it starts from and of its oracles: the order the
    shuffle picked, how `generateBotReply` settles and the fresh id and
    timestamp for each position of that order, and the checkpoints at which
    a reset from outside fires. The class `App.ChatApp` runs the loop itself and is
    proved to end in the state this function gives. */
module TurnSpec {
  import opened Types
  import opened Retry

  /** The shared state of the chat: the session counter
      (`chatSessionRef.current`), the message log and the typing map. */
  datatype ChatState = ChatState(epoch: nat, log: seq<Message>, typing: map<string, bool>)

  /** The two suspension points of a bot's step where a reset can fire:
      the thinking delay, and the wait for `generateBotReply`. */
  datatype Checkpoint = Thinking(position: nat) | Generating(position: nat)

  /** One position of the order: how the call of `generateBotReply`
      settles, and the id and timestamp a reply message would get
      (`crypto.randomUUID()`, `Date.now()`). */
  datatype Step = Step(outcome: Outcome, replyId: string, replyTime: int)

  /** The participants a turn asks for replies: everyone but the user. */
  function Bots(roster: seq<Participant>): seq<Participant> {
    Filter(roster, (p: Participant) => !p.isUser)
  }

  /** The order is what sorting a copy of the bots can give: a permutation
      of them. */
  predicate IsShuffleOf(order: seq<Participant>, roster: seq<Participant>) {
    multiset(order) == multiset(Bots(roster))
  }

  /** A shuffle visits only bots of the roster. */
  lemma ShuffleHasOnlyBots(order: seq<Participant>, roster: seq<Participant>)
    requires IsShuffleOf(order, roster)
    ensures |order| == |Bots(roster)|
    ensures forall i :: 0 <= i < |order| ==> order[i] in roster && !order[i].isUser
  {
    assert |multiset(order)| == |multiset(Bots(roster))|;
    forall i | 0 <= i < |order| ensures order[i] in roster && !order[i].isUser {
      assert order[i] in multiset(order);
      assert order[i] in multiset(Bots(roster));
      assert order[i] in Bots(roster);
    }
  }

  /** `ShuffleHasOnlyBots` at one position, as the loop uses it. */
  lemma ShuffledBot(order: seq<Participant>, roster: seq<Participant>, i: nat)
    requires IsShuffleOf(order, roster) && i < |order|
    ensures order[i] in roster && !order[i].isUser
  {
    ShuffleHasOnlyBots(order, roster);
  }

  /** The step of a bot appends a message: `generateBotReply` resolved
      with a non-empty (truthy) text. */
  predicate Appends(step: Step) {
    step.outcome.Returned? && step.outcome.text != ""
  }

  /** The message a bot's step appends. */
  function ReplyMessage(bot: Participant, step: Step): Message
    requires Appends(step)
  {
    Message(step.replyId, bot.id, step.outcome.text, step.replyTime, None)
  }

  /** What a bot's step adds to the log and to the local history. */
  function StepReply(bot: Participant, step: Step): seq<Message> {
    if Appends(step) then [ReplyMessage(bot, step)] else []
  }

  /** The replies of the first `n` positions of the order, in order. */
  function Replies(order: seq<Participant>, steps: seq<Step>, n: nat): seq<Message>
    requires n <= |order| && n <= |steps|
  {
    if n == 0 then []
    else Replies(order, steps, n - 1) + StepReply(order[n - 1], steps[n - 1])
  }

  /** The first position at or after `from` where a reset fires, or `n`. */
  function FirstReset(resets: set<Checkpoint>, from: nat, n: nat): (k: nat)
    requires from <= n
    ensures from <= k <= n
    ensures forall p :: from <= p < k ==> Thinking(p) !in resets && Generating(p) !in resets
    ensures k < n ==> Thinking(k) in resets || Generating(k) in resets
    decreases n - from
  {
    if from == n then n
    else if Thinking(from) in resets || Generating(from) in resets then from
    else FirstReset(resets, from + 1, n)
  }

  /** The ids of a sequence of participants. */
  function Ids(ps: seq<Participant>): (r: set<string>)
    ensures forall i :: 0 <= i < |ps| ==> ps[i].id in r
  {
    if ps == [] then {} else Ids(ps[..|ps| - 1]) + {ps[|ps| - 1].id}
  }

  /** `Ids` holds the ids of `ps` and nothing else. */
  lemma {:induction false} IdsExactly(ps: seq<Participant>, x: string)
    ensures x in Ids(ps) <==> exists i :: 0 <= i < |ps| && ps[i].id == x
  {
    if ps != [] {
      var init := ps[..|ps| - 1];
      IdsExactly(init, x);
      if x in Ids(init) {
        var i :| 0 <= i < |init| && init[i].id == x;
        assert ps[i].id == x;
      }
    }
  }

  /** The local history each of the first `m` calls of `generateBotReply`
      in a turn over `history` is given. */
  function TurnHistories(history: seq<Message>, order: seq<Participant>, steps: seq<Step>, m: nat): seq<seq<Message>>
    requires m <= |order| && m <= |steps|
  {
    if m == 0 then []
    else TurnHistories(history, order, steps, m - 1) + [history + Replies(order, steps, m - 1)]
  }

  function Calls(resets: set<Checkpoint>, k: nat, n: nat): nat {
    if k == n || Thinking(k) in resets then k else k + 1
  }

  /** What a turn did: the final shared state, how many bots it marked as
      typing, and the history it passed to each call of `generateBotReply`,
      in order. */
  datatype TurnResult = TurnResult(state: ChatState, visited: nat, calls: seq<seq<Message>>)

  /** The closed form of one turn started from `s` with session id
      `sessionId`. A turn whose session is already stale does nothing.
      Otherwise, with no reset, every bot takes its step: the log grows by
      the non-empty replies in order and every bot's typing entry is gone.
      When the first reset fires at position `k`, the turn runs the steps
      before `k`, marks bot `k` as typing and stops: the epoch has moved on
      by one and the log and the typing map are empty. The backend is
      called for bot `k` only when the reset fires during that call. */
  function TurnOutcome(s: ChatState, sessionId: nat, history: seq<Message>,
                       order: seq<Participant>, steps: seq<Step>, resets: set<Checkpoint>): TurnResult
    requires |steps| == |order|
  {
    var n := |order|;
    var k := FirstReset(resets, 0, n);
    var calls := TurnHistories(history, order, steps, Calls(resets, k, n));
    if s.epoch != sessionId then TurnResult(s, 0, [])
    else if k == n then
      TurnResult(ChatState(s.epoch, s.log + Replies(order, steps, n), s.typing - Ids(order)), n, calls)
    else
      TurnResult(ChatState(s.epoch + 1, [], map[]), k + 1, calls)
  }

  /** What one bot's step does, once the loop head found the session
      `sessionId` current in state `t`: `bot` at position `i` of the order,
      given the local history `local`, leaves state `t'` and local history
      `local'`; `called` says whether the backend was called and `stop`
      whether a session check left the loop. A reset while thinking stops
      the loop before the call; a reset during the call leaves the reset's
      state (an empty log and typing map under the next epoch) whatever the
      backend returned; with neither, the non-empty reply is appended to
      both the log and the local history and the bot's typing entry is
      gone. */
  predicate StepEffect(sessionId: nat, bot: Participant, step: Step, i: nat, resets: set<Checkpoint>,
                       t: ChatState, local: seq<Message>, t': ChatState, local': seq<Message>,
                       called: bool, stop: bool)
  {
    (called <==> Thinking(i) !in resets) &&
    (Thinking(i) in resets ==> stop) &&
    (Thinking(i) in resets || Generating(i) in resets ==> t' == ChatState(sessionId + 1, [], map[])) &&
    (Thinking(i) !in resets && Generating(i) !in resets ==>
       !stop && t' == ChatState(sessionId, t.log + StepReply(bot, step), t.typing - {bot.id}) &&
       local' == local + StepReply(bot, step))
  }

  /** The first `i` positions of the order ran without a reset from `s`:
      state `t`, local history `local` and the histories of the calls so
      far are those of the closed form. */
  predicate Running(s: ChatState, history: seq<Message>, order: seq<Participant>, steps: seq<Step>, i: nat,
                    t: ChatState, local: seq<Message>, calls: seq<seq<Message>>)
    requires i <= |order| && |steps| == |order|
  {
    t == ChatState(s.epoch, s.log + Replies(order, steps, i), s.typing - Ids(order[..i])) &&
    local == history + Replies(order, steps, i) &&
    calls == TurnHistories(history, order, steps, i)
  }

  /** The turn from `s` was cut short by its first reset. */
  predicate Stopped(s: ChatState, history: seq<Message>, order: seq<Participant>, steps: seq<Step>,
                    resets: set<Checkpoint>, t: ChatState, visited: nat, calls: seq<seq<Message>>)
    requires |steps| == |order|
  {
    var k := FirstReset(resets, 0, |order|);
    k < |order| && visited == k + 1 && t == ChatState(s.epoch + 1, [], map[]) &&
    calls == TurnHistories(history, order, steps, Calls(resets, k, |order|))
  }

  /** One step of the loop keeps it on the closed form: either the session
      is still current and the first `i + 1` positions ran, or the first
      reset fired at position `i` and the turn is cut short there. */
  lemma Advance(s: ChatState, sessionId: nat, history: seq<Message>, order: seq<Participant>, steps: seq<Step>,
                resets: set<Checkpoint>, i: nat, t: ChatState, local: seq<Message>, calls: seq<seq<Message>>,
                t': ChatState, local': seq<Message>, called: bool, stop: bool)
    requires |steps| == |order| && i < |order| && i <= FirstReset(resets, 0, |order|)
    requires s.epoch == sessionId
    requires Running(s, history, order, steps, i, t, local, calls)
    requires StepEffect(sessionId, order[i], steps[i], i, resets, t, local, t', local', called, stop)
    ensures var calls' := if called then calls + [local] else calls;
      if t'.epoch == sessionId then
        !stop && i + 1 <= FirstReset(resets, 0, |order|) &&
        Running(s, history, order, steps, i + 1, t', local', calls')
      else
        Stopped(s, history, order, steps, resets, t', i + 1, calls')
  {
    var n := |order|;
    var k := FirstReset(resets, 0, n);
    assert order[..i + 1][..i] == order[..i];
    assert Ids(order[..i + 1]) == Ids(order[..i]) + {order[i].id};
    if Thinking(i) in resets || Generating(i) in resets {
      assert i == k;
    } else {
      assert i < k;
    }
  }

  /** The ways a turn can end, each read off against the closed form: a
      stale session changes nothing; a turn that ran to the end of the order
      without a reset appended every reply and cleared every typing entry;
      a turn cut short by the first reset left the reset's state. */
  lemma TurnEnds(s: ChatState, sessionId: nat, history: seq<Message>,
                 order: seq<Participant>, steps: seq<Step>, resets: set<Checkpoint>,
                 t: ChatState, local: seq<Message>, visited: nat, calls: seq<seq<Message>>)
    requires |steps| == |order|
    requires s.epoch != sessionId ==> t == s && visited == 0 && calls == []
    requires s.epoch == sessionId && t.epoch == sessionId ==>
      FirstReset(resets, 0, |order|) == |order| && visited == |order| &&
      Running(s, history, order, steps, |order|, t, local, calls)
    requires s.epoch == sessionId && t.epoch != sessionId ==>
      Stopped(s, history, order, steps, resets, t, visited, calls)
    ensures TurnResult(t, visited, calls) == TurnOutcome(s, sessionId, history, order, steps, resets)
  {
    assert order[..|order|] == order;
  }

  /** The local history only ever grows: the replies of a shorter stretch of
      the order are a prefix of those of a longer one. */
  lemma {:induction false} RepliesPrefix(order: seq<Participant>, steps: seq<Step>, i: nat, j: nat)
    requires i <= j <= |order| && j <= |steps|
    ensures Replies(order, steps, i) <= Replies(order, steps, j)
    decreases j - i
  {
    if i < j {
      RepliesPrefix(order, steps, i, j - 1);
    }
  }

  /** The positions among the first `n` whose step appends a reply. */
  function ReplyPositions(steps: seq<Step>, n: nat): seq<nat>
    requires n <= |steps|
  {
    if n == 0 then []
    else ReplyPositions(steps, n - 1) + (if Appends(steps[n - 1]) then [n - 1] else [])
  }

  /** The half of `RepliesFollowOrder` about the positions alone: they are
      increasing positions below `n`, and every appending position is among
      them. */
  lemma {:induction false} ReplyPositionsIncrease(steps: seq<Step>, n: nat)
    requires n <= |steps|
    ensures var ps := ReplyPositions(steps, n);
      (forall j :: 0 <= j < |ps| ==> ps[j] < n && Appends(steps[ps[j]])) &&
      (forall j, j' :: 0 <= j < j' < |ps| ==> ps[j] < ps[j']) &&
      (forall p :: 0 <= p < n && Appends(steps[p]) ==> p in ps)
  {
    if n > 0 {
      ReplyPositionsIncrease(steps, n - 1);
    }
  }

  /** The half of `RepliesFollowOrder` about the replies: the j-th reply is
      the message of the j-th position whose step appends. */
  lemma {:induction false} RepliesAtPositions(order: seq<Participant>, steps: seq<Step>, n: nat)
    requires n <= |order| && n <= |steps|
    ensures var rs, ps := Replies(order, steps, n), ReplyPositions(steps, n);
      |rs| == |ps| &&
      forall j :: 0 <= j < |ps| ==>
        ps[j] < n && Appends(steps[ps[j]]) && rs[j] == ReplyMessage(order[ps[j]], steps[ps[j]])
  {
    if n > 0 {
      RepliesAtPositions(order, steps, n - 1);
      var rs0, ps0 := Replies(order, steps, n - 1), ReplyPositions(steps, n - 1);
      var rs, ps := Replies(order, steps, n), ReplyPositions(steps, n);
      if Appends(steps[n - 1]) {
        assert rs == rs0 + [ReplyMessage(order[n - 1], steps[n - 1])];
        assert ps == ps0 + [n - 1];
        forall j | 0 <= j < |ps|
          ensures ps[j] < n && Appends(steps[ps[j]]) && rs[j] == ReplyMessage(order[ps[j]], steps[ps[j]])
        {
          if j < |ps0| {
            assert ps[j] == ps0[j] && rs[j] == rs0[j];
          }
        }
      } else {
        assert rs == rs0 && ps == ps0;
      }
    }
  }

  /** The replies follow the order of the shuffle, at most one per
      position: the j-th reply is the message of the j-th position whose
      step appends (sent by the bot at that position, with the non-empty
      text it returned); those positions increase strictly, and every
      position whose step appends is among them. */
  lemma RepliesFollowOrder(order: seq<Participant>, steps: seq<Step>, n: nat)
    requires n <= |order| && n <= |steps|
    ensures var rs, ps := Replies(order, steps, n), ReplyPositions(steps, n);
      |rs| == |ps| &&
      (forall j :: 0 <= j < |ps| ==>
         ps[j] < n && Appends(steps[ps[j]]) && rs[j] == ReplyMessage(order[ps[j]], steps[ps[j]])) &&
      (forall j, j' :: 0 <= j < j' < |ps| ==> ps[j] < ps[j']) &&
      (forall p :: 0 <= p < n && Appends(steps[p]) ==> p in ps)
  {
    ReplyPositionsIncrease(steps, n);
    RepliesAtPositions(order, steps, n);
  }

  /** The call at position `i` is given the turn's history followed by the
      replies of the positions before `i`, and nothing else. */
  lemma {:induction false} TurnHistoryAt(history: seq<Message>, order: seq<Participant>, steps: seq<Step>,
                                         m: nat, i: nat)
    requires i < m <= |order| && m <= |steps|
    ensures |TurnHistories(history, order, steps, m)| == m
    ensures TurnHistories(history, order, steps, m)[i] == history + Replies(order, steps, i)
  {
    TurnHistoriesLength(history, order, steps, m - 1);
    if i < m - 1 {
      TurnHistoryAt(history, order, steps, m - 1, i);
    }
  }

  lemma {:induction false} TurnHistoriesLength(history: seq<Message>, order: seq<Participant>, steps: seq<Step>,
                                               m: nat)
    requires m <= |order| && m <= |steps|
    ensures |TurnHistories(history, order, steps, m)| == m
  {
    if m > 0 {
      TurnHistoriesLength(history, order, steps, m - 1);
    }
  }

  /** No bot is left typing: after a turn, no bot it marked as typing still
      has an entry, and the typing map holds nothing it did not hold
      before. */
  lemma TurnClearsTyping(s: ChatState, sessionId: nat, history: seq<Message>,
                         order: seq<Participant>, steps: seq<Step>, resets: set<Checkpoint>)
    requires |steps| == |order|
    ensures var r := TurnOutcome(s, sessionId, history, order, steps, resets);
      r.visited <= |order| &&
      (forall i :: 0 <= i < r.visited ==> order[i].id !in r.state.typing) &&
      r.state.typing.Keys <= s.typing.Keys
  {
  }

  /** Once the epoch has moved on, nothing under the old session survives
      and nothing more is appended: a reset at position `k` leaves the log
      empty, with the epoch advanced by exactly one, even when bot `k`'s
      reply was already generated; no position after `k` is visited or
      called. */
  lemma TurnStopsAtReset(s: ChatState, history: seq<Message>,
                         order: seq<Participant>, steps: seq<Step>, resets: set<Checkpoint>, k: nat)
    requires |steps| == |order| && k < |order|
    requires Thinking(k) in resets || Generating(k) in resets
    ensures var r := TurnOutcome(s, s.epoch, history, order, steps, resets);
      r.state == ChatState(s.epoch + 1, [], map[]) &&
      r.visited <= k + 1 && |r.calls| <= k + 1
  {
    var f := FirstReset(resets, 0, |order|);
    assert f <= k;
    TurnHistoriesLength(history, order, steps, Calls(resets, f, |order|));
  }

  /** A failure never stops the turn: without resets every bot of the order
      is visited and called, and the log grows by exactly the non-empty
      replies, in order, whatever the other bots' backends did. */
  lemma TurnWithoutReset(s: ChatState, history: seq<Message>, order: seq<Participant>, steps: seq<Step>)
    requires |steps| == |order|
    ensures var r := TurnOutcome(s, s.epoch, history, order, steps, {});
      r.state == ChatState(s.epoch, s.log + Replies(order, steps, |order|), s.typing - Ids(order)) &&
      r.visited == |order| && |r.calls| == |order|
  {
    assert FirstReset({}, 0, |order|) == |order|;
    TurnHistoriesLength(history, order, steps, |order|);
  }

  /** Isolation of failures: in a turn over two bots where one bot's
      backend fails and the other's replies, whichever comes first, exactly
      one message is appended, the replying bot's. */
  lemma {:induction false} FailureIsIsolated(order: seq<Participant>, steps: seq<Step>, failed: nat, text: string)
    requires |order| == |steps| == 2 && failed < 2
    requires steps[failed].outcome.Threw?
    requires steps[1 - failed].outcome == Returned(text) && text != ""
    ensures Replies(order, steps, 2) ==
      [Message(steps[1 - failed].replyId, order[1 - failed].id, text, steps[1 - failed].replyTime, None)]
  {
    assert !Appends(steps[failed]) && Appends(steps[1 - failed]);
    assert Replies(order, steps, 1) == StepReply(order[0], steps[0]);
  }
}
