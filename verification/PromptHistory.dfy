/** The prompt history: rebuilt from the log by whole turns under a token budget, and shadowed by a
    cache that may vanish at any moment. */
module PromptHistory {
  import opened Prelude

  datatype Role = User | Assistant

  datatype Message = Message(role: Role, content: string)

  datatype Turn = Turn(user: Message, reply: Message)

  type TokenCounter = string -> nat

  /* ---- Pairing rows into turns ---- */

  predicate StartsTurn(rows: seq<Message>, i: int) {
    0 <= i && i + 1 < |rows| && rows[i].role == User && rows[i + 1].role == Assistant
  }

  function Pairs(rows: seq<Message>): seq<Turn> {
    if |rows| < 2 then []
    else
      var n := |rows|;
      Pairs(rows[..n - 1])
      + (if StartsTurn(rows, n - 2) then [Turn(rows[n - 2], rows[n - 1])] else [])
  }

  method PairCompleteTurns(rows: seq<Message>) returns (turns: seq<Turn>)
    ensures turns == Pairs(rows)
  {
    turns := [];
    if |rows| == 0 { return; }
    for i := 1 to |rows|
      invariant turns == Pairs(rows[..i])
    {
      assert rows[..i + 1][..i] == rows[..i];
      if rows[i - 1].role == User && rows[i].role == Assistant {
        turns := turns + [Turn(rows[i - 1], rows[i])];
      }
    }
    assert rows[..|rows|] == rows;
  }

  // Where the turns stand in the log.
  function Starts(rows: seq<Message>): seq<nat> {
    if |rows| < 2 then []
    else
      var n := |rows|;
      Starts(rows[..n - 1]) + (if StartsTurn(rows, n - 2) then [n - 2] else [])
  }

  predicate StandsAt(rows: seq<Message>, turn: Turn, i: nat) {
    StartsTurn(rows, i) && turn == Turn(rows[i], rows[i + 1])
  }

  lemma EarlierStarts(rows: seq<Message>, i: int)
    requires |rows| >= 2
    ensures StartsTurn(rows[..|rows| - 1], i) <==> StartsTurn(rows, i) && i < |rows| - 2
    ensures StartsTurn(rows, i) ==> 0 <= i <= |rows| - 2
  {
  }

  lemma {:induction false} StartsAreTurns(rows: seq<Message>)
    ensures forall i :: i in Starts(rows) <==> StartsTurn(rows, i)
  {
    hide StartsTurn;
    if |rows| >= 2 {
      var before, n := rows[..|rows| - 1], |rows| - 2;
      StartsAreTurns(before);
      forall i ensures i in Starts(rows) <==> StartsTurn(rows, i) {
        EarlierStarts(rows, i);
        assert i in Starts(rows) <==> i in Starts(before) || (StartsTurn(rows, n) && i == n);
      }
    } else {
      forall i ensures !StartsTurn(rows, i) { NoTurnStarts(rows, i); }
    }
  }

  lemma NoTurnStarts(rows: seq<Message>, i: int)
    requires |rows| < 2
    ensures !StartsTurn(rows, i)
  {
  }

  lemma {:induction false} StartsAscend(rows: seq<Message>)
    ensures forall j, k :: 0 <= j < k < |Starts(rows)| ==> Starts(rows)[j] < Starts(rows)[k]
  {
    hide StartsTurn;
    if |rows| >= 2 {
      var before := rows[..|rows| - 1];
      StartsAscend(before);
      StartsAreTurns(before);
      forall k | 0 <= k < |Starts(before)| ensures Starts(before)[k] < |rows| - 2 {
        assert Starts(before)[k] in Starts(before);
        EarlierStarts(rows, Starts(before)[k]);
      }
    }
  }

  lemma {:induction false} PairsStandAtStarts(rows: seq<Message>)
    ensures |Starts(rows)| == |Pairs(rows)|
    ensures forall k :: 0 <= k < |Starts(rows)| ==> StandsAt(rows, Pairs(rows)[k], Starts(rows)[k])
  {
    if |rows| >= 2 {
      var before := rows[..|rows| - 1];
      PairsStandAtStarts(before);
      forall k | 0 <= k < |Starts(before)| ensures StandsAt(rows, Pairs(before)[k], Starts(before)[k]) {
        assert StandsAt(before, Pairs(before)[k], Starts(before)[k]);
      }
    }
  }

  // Every user row with its reply right behind it is a turn, in log order, no other row is in one, and no
  // two turns share a row.
  lemma TurnsNeverOverlap(rows: seq<Message>)
    ensures |Starts(rows)| == |Pairs(rows)|
    ensures forall k :: 0 <= k < |Starts(rows)| ==> StandsAt(rows, Pairs(rows)[k], Starts(rows)[k])
    ensures forall i :: i in Starts(rows) <==> StartsTurn(rows, i)
    ensures forall j, k :: 0 <= j < k < |Starts(rows)| ==> Starts(rows)[j] + 2 <= Starts(rows)[k]
  {
    StartsAscend(rows);
    StartsAreTurns(rows);
    PairsStandAtStarts(rows);
    forall j, k | 0 <= j < k < |Starts(rows)| ensures Starts(rows)[j] + 2 <= Starts(rows)[k] {
      assert StartsTurn(rows, Starts(rows)[j]) && StartsTurn(rows, Starts(rows)[k]);
    }
  }

  lemma OrphanAddsNoTurn(rows: seq<Message>, user: Message)
    requires user.role == User
    ensures Pairs(rows + [user]) == Pairs(rows)
  {
    assert (rows + [user])[..|rows|] == rows;
  }

  lemma ReplyCompletesTheTurn(rows: seq<Message>, user: Message, reply: Message)
    requires user.role == User && reply.role == Assistant
    ensures Pairs(rows + [user, reply]) == Pairs(rows) + [Turn(user, reply)]
  {
    OrphanAddsNoTurn(rows, user);
    assert (rows + [user, reply])[..|rows| + 1] == rows + [user];
  }

  /* ---- The window ---- */

  function TurnTokens(count: TokenCounter, turn: Turn): nat {
    count(turn.user.content) + count(turn.reply.content)
  }

  function Total(count: TokenCounter, turns: seq<Turn>): nat {
    if |turns| == 0 then 0 else TurnTokens(count, turns[0]) + Total(count, turns[1..])
  }

  // Drop the oldest turn until the rest fits.
  function Windowed(count: TokenCounter, budget: nat, turns: seq<Turn>): seq<Turn> {
    if Total(count, turns) <= budget then turns else Windowed(count, budget, turns[1..])
  }

  lemma {:induction false} DroppingShrinks(count: TokenCounter, turns: seq<Turn>, j: nat, k: nat)
    requires j <= k <= |turns|
    ensures Total(count, turns[k..]) <= Total(count, turns[j..])
    decreases k - j
  {
    if j < k {
      DroppingShrinks(count, turns, j + 1, k);
      assert turns[j..][1..] == turns[j + 1..];
    }
  }

  lemma {:induction false} WindowStartsAt(count: TokenCounter, budget: nat, turns: seq<Turn>, i: nat)
    requires i <= |turns| && Total(count, turns[i..]) <= budget
    requires i > 0 ==> Total(count, turns[i - 1..]) > budget
    ensures Windowed(count, budget, turns) == turns[i..]
    decreases i
  {
    if i == 0 {
      assert turns[0..] == turns;
    } else {
      DroppingShrinks(count, turns, 0, i - 1);
      assert turns[0..] == turns;
      assert turns[1..][i - 1..] == turns[i..];
      if i > 1 {
        assert turns[1..][i - 2..] == turns[i - 1..];
      }
      WindowStartsAt(count, budget, turns[1..], i - 1);
    }
  }

  function Reversed(turns: seq<Turn>): seq<Turn> {
    if |turns| == 0 then [] else [turns[|turns| - 1]] + Reversed(turns[..|turns| - 1])
  }

  method WindowToBudget(count: TokenCounter, budget: nat, turns: seq<Turn>) returns (kept: seq<Turn>)
    ensures kept == Windowed(count, budget, turns)
  {
    kept := [];
    var used := 0;
    var i := |turns|;
    while i > 0
      invariant 0 <= i <= |turns|
      invariant Reversed(kept) == turns[i..] && used == Total(count, turns[i..]) <= budget
    {
      var turn := turns[i - 1];
      var tokens := TurnTokens(count, turn);
      assert turns[i - 1..][1..] == turns[i..];
      if used + tokens > budget {
        break;
      }
      used := used + tokens;
      ghost var newer := kept;
      kept := kept + [turn];
      assert kept[..|newer|] == newer;
      assert turns[i - 1..] == [turn] + turns[i..];
      i := i - 1;
    }
    WindowStartsAt(count, budget, turns, i);
    kept := Reversed(kept);
  }

  // The window is the longest whole-turn suffix within the budget: exactly the suffixes that fit are inside it.
  lemma {:induction false} WindowIsLongestFit(count: TokenCounter, budget: nat, turns: seq<Turn>)
    ensures var start := |turns| - |Windowed(count, budget, turns)|;
            && 0 <= start && Windowed(count, budget, turns) == turns[start..]
            && forall k :: 0 <= k <= |turns| ==> (Total(count, turns[k..]) <= budget <==> start <= k)
  {
    if Total(count, turns) <= budget {
      forall k | 0 <= k <= |turns| ensures Total(count, turns[k..]) <= budget {
        DroppingShrinks(count, turns, 0, k);
        assert turns[0..] == turns;
      }
    } else {
      WindowIsLongestFit(count, budget, turns[1..]);
      var start := |turns| - |Windowed(count, budget, turns)|;
      forall k | 0 <= k <= |turns| ensures Total(count, turns[k..]) <= budget <==> start <= k {
        if k == 0 {
          assert turns[0..] == turns;
        } else {
          assert turns[1..][k - 1..] == turns[k..];
        }
      }
    }
  }

  lemma {:induction false} TotalInTwo(count: TokenCounter, first: seq<Turn>, second: seq<Turn>)
    ensures Total(count, first + second) == Total(count, first) + Total(count, second)
  {
    if |first| == 0 {
      assert first + second == second;
    } else {
      TotalInTwo(count, first[1..], second);
      assert (first + second)[1..] == first[1..] + second;
    }
  }

  // Newer turns only ever push turns off the front: windowing what was kept, with the newer turns behind
  // it, is windowing everything.
  lemma {:induction false} NewerTurnsOnlyDropTheFront(count: TokenCounter, budget: nat, turns: seq<Turn>,
                                                      newer: seq<Turn>)
    ensures Windowed(count, budget, turns + newer)
         == Windowed(count, budget, Windowed(count, budget, turns) + newer)
  {
    if Total(count, turns) > budget {
      TotalInTwo(count, turns, newer);
      assert (turns + newer)[1..] == turns[1..] + newer;
      NewerTurnsOnlyDropTheFront(count, budget, turns[1..], newer);
    }
  }

  /* ---- Rebuilding ---- */

  function Flatten(turns: seq<Turn>): seq<Message> {
    if |turns| == 0 then []
    else Flatten(turns[..|turns| - 1]) + [turns[|turns| - 1].user, turns[|turns| - 1].reply]
  }

  function Rebuilt(count: TokenCounter, budget: nat, rows: seq<Message>): seq<Message> {
    Flatten(Windowed(count, budget, Pairs(rows)))
  }

  method Rebuild(count: TokenCounter, budget: nat, rows: seq<Message>) returns (history: seq<Message>)
    ensures history == Rebuilt(count, budget, rows)
  {
    var turns := PairCompleteTurns(rows);
    var kept := WindowToBudget(count, budget, turns);
    history := [];
    for i := 0 to |kept|
      invariant history == Flatten(kept[..i])
    {
      assert kept[..i + 1][..i] == kept[..i];
      history := history + [kept[i].user, kept[i].reply];
    }
    assert kept[..|kept|] == kept;
  }

  lemma {:induction false} FlattenHasTwoPerTurn(turns: seq<Turn>)
    ensures |Flatten(turns)| == 2 * |turns|
  {
    if |turns| > 0 {
      FlattenHasTwoPerTurn(turns[..|turns| - 1]);
    }
  }

  lemma FlattenOneMore(turns: seq<Turn>, turn: Turn)
    ensures Flatten(turns + [turn]) == Flatten(turns) + [turn.user, turn.reply]
  {
    assert (turns + [turn])[..|turns|] == turns;
  }

  // What a prompt costs: every message in it, whoever spoke.
  function MessageTokens(count: TokenCounter, messages: seq<Message>): nat {
    if |messages| == 0 then 0
    else MessageTokens(count, messages[..|messages| - 1]) + count(messages[|messages| - 1].content)
  }

  lemma {:induction false} TurnsCostTheirMessages(count: TokenCounter, turns: seq<Turn>)
    ensures MessageTokens(count, Flatten(turns)) == Total(count, turns)
  {
    if |turns| > 0 {
      var earlier, last := turns[..|turns| - 1], turns[|turns| - 1];
      TurnsCostTheirMessages(count, earlier);
      var asked := Flatten(earlier) + [last.user];
      assert Flatten(turns) == asked + [last.reply];
      MessageCosts(count, Flatten(earlier), last.user);
      MessageCosts(count, asked, last.reply);
      assert earlier + [last] == turns;
      TotalInTwo(count, earlier, [last]);
      OneTurnCosts(count, last);
    }
  }

  lemma MessageCosts(count: TokenCounter, messages: seq<Message>, m: Message)
    ensures MessageTokens(count, messages + [m]) == MessageTokens(count, messages) + count(m.content)
  {
    assert (messages + [m])[..|messages|] == messages;
  }

  lemma OneTurnCosts(count: TokenCounter, turn: Turn)
    ensures Total(count, [turn]) == count(turn.user.content) + count(turn.reply.content)
  {
    assert [turn][1..] == [] && [turn][..0] == [];
  }

  // The messages of the window cost no more than the budget, questions and replies alike, and those of every
  // longer run of turns up to the newest cost more.
  lemma WindowFitsByMessage(count: TokenCounter, budget: nat, turns: seq<Turn>)
    ensures MessageTokens(count, Flatten(Windowed(count, budget, turns))) <= budget
    ensures |Windowed(count, budget, turns)| <= |turns|
    ensures forall k :: 0 <= k < |turns| - |Windowed(count, budget, turns)| ==>
              MessageTokens(count, Flatten(turns[k..])) > budget
    ensures Windowed(count, budget, turns) == turns[|turns| - |Windowed(count, budget, turns)|..]
  {
    hide Flatten, MessageTokens, Total, Windowed;
    WindowIsLongestFit(count, budget, turns);
    assert Total(count, turns[|turns| - |Windowed(count, budget, turns)|..]) <= budget;
    TurnsCostTheirMessages(count, Windowed(count, budget, turns));
    forall k | 0 <= k < |turns| - |Windowed(count, budget, turns)|
      ensures MessageTokens(count, Flatten(turns[k..])) > budget
    {
      TurnsCostTheirMessages(count, turns[k..]);
    }
  }

  // The rebuilt prompt in the same terms: the newest turns of the log, as many as the budget holds.
  lemma RebuiltFitsByMessage(count: TokenCounter, budget: nat, rows: seq<Message>)
    ensures MessageTokens(count, Rebuilt(count, budget, rows)) <= budget
    ensures exists k :: 0 <= k <= |Pairs(rows)| && Rebuilt(count, budget, rows) == Flatten(Pairs(rows)[k..])
              && forall j :: 0 <= j < k ==> MessageTokens(count, Flatten(Pairs(rows)[j..])) > budget
  {
    hide Flatten, MessageTokens, Windowed, Pairs;
    var turns := Pairs(rows);
    WindowFitsByMessage(count, budget, turns);
    var k := |turns| - |Windowed(count, budget, turns)|;
    assert Rebuilt(count, budget, rows) == Flatten(turns[k..]);
  }

  /* ---- Cache and log ---- */

  // An empty cache is a miss: never written, expired or flushed.
  datatype Store = Store(rows: seq<Message>, cache: seq<Message>)

  // How a turn ended. `blind` is whether a rebuild, if the turn needed one, raised.
  datatype Event =
    | Succeeded(user: string, reply: string, blind: bool)
    | Failed(user: string, blind: bool)                        // the model or a tool failed: no reply row
    | Interrupted(user: string, reply: string, blind: bool)    // no cache write behind the reply row
    | Unsaved(user: string, reply: string, blind: bool)        // the database rejected the reply row
    | Evicted

  function Loaded(count: TokenCounter, budget: nat, s: Store): seq<Message> {
    if s.cache != [] then s.cache else Rebuilt(count, budget, s.rows)
  }

  function Recalled(count: TokenCounter, budget: nat, s: Store, blind: bool): seq<Message> {
    if blind then s.cache else Loaded(count, budget, s)
  }

  function After(count: TokenCounter, budget: nat, s: Store, event: Event): Store {
    if event.Evicted? then s.(cache := [])
    else
      var user := Message(User, event.user);
      var asked := Store(s.rows + [user], s.cache);
      var history := Recalled(count, budget, asked, event.blind);
      match event
      case Succeeded(_, reply, _) =>
        Store(s.rows + [user, Message(Assistant, reply)], history + [user, Message(Assistant, reply)])
      case Failed(_, _) => Store(asked.rows, history)
      case Interrupted(_, reply, _) => Store(s.rows + [user, Message(Assistant, reply)], history)
      case Unsaved(_, reply, _) => Store(asked.rows, history + [user, Message(Assistant, reply)])
  }

  class ConversationMemory {
    var rows: seq<Message>
    var cache: seq<Message>
    const count: TokenCounter
    const budget: nat

    ghost function View(): Store
      reads this
    {
      Store(rows, cache)
    }

    constructor (count: TokenCounter, budget: nat)
      ensures View() == Store([], []) && this.count == count && this.budget == budget
    {
      rows, cache := [], [];
      this.count, this.budget := count, budget;
    }

    // A rebuild that raises degrades to an empty history; a rebuilt one is written back unless it is empty.
    method LoadPromptHistory(rebuildRaises: bool) returns (history: seq<Message>)
      modifies this
      ensures history == Recalled(count, budget, old(View()), rebuildRaises)
      ensures View() == old(View()).(cache := history)
    {
      if cache != [] {
        return cache;
      }
      if rebuildRaises {
        return [];
      }
      history := Rebuild(count, budget, rows);
      if history != [] {
        cache := history;
      }
    }

    method Evict()
      modifies this
      ensures View() == After(count, budget, old(View()), Evicted)
    {
      cache := [];
    }

    // One turn, up to where `event` says it ended.
    method TakeTurn(event: Event)
      requires !event.Evicted?
      modifies this
      ensures View() == After(count, budget, old(View()), event)
    {
      var user := Message(User, event.user);
      rows := rows + [user];
      var history := LoadPromptHistory(event.blind);
      if event.Failed? {
        return;
      }
      history := history + [user];
      var reply := Message(Assistant, event.reply);
      if !event.Unsaved? {
        rows := rows + [reply];
      }
      if event.Interrupted? {
        assert rows == old(rows) + [user, reply];
        return;
      }
      history := history + [reply];
      cache := history;
      assert !event.Unsaved? ==> rows == old(rows) + [user, reply];
    }
  }

  // What is cached is a whole-turn suffix of the completed turns, at least as long as a rebuild would give.
  ghost predicate Shadows(count: TokenCounter, budget: nat, history: seq<Message>, rows: seq<Message>) {
    exists k :: IsSuffixFrom(count, budget, history, Pairs(rows), k)
  }

  predicate IsSuffixFrom(count: TokenCounter, budget: nat, history: seq<Message>, turns: seq<Turn>, k: int) {
    0 <= k <= |turns| && history == Flatten(turns[k..])
    && |Windowed(count, budget, turns)| <= |turns| - k
  }

  ghost predicate Faithful(count: TokenCounter, budget: nat, s: Store) {
    s.cache != [] ==> Shadows(count, budget, s.cache, s.rows)
  }

  lemma LoadedShadows(count: TokenCounter, budget: nat, s: Store)
    requires Faithful(count, budget, s)
    ensures Shadows(count, budget, Loaded(count, budget, s), s.rows)
  {
    hide Windowed, Flatten, Pairs;
    if s.cache == [] {
      var turns := Pairs(s.rows);
      WindowIsLongestFit(count, budget, turns);
      assert IsSuffixFrom(count, budget, Loaded(count, budget, s), turns, |turns| - |Windowed(count, budget, turns)|);
    }
  }

  lemma ShadowGrows(count: TokenCounter, budget: nat, history: seq<Message>, rows: seq<Message>, user: string,
                    reply: string)
    requires Shadows(count, budget, history, rows)
    ensures var both := [Message(User, user), Message(Assistant, reply)];
            Shadows(count, budget, history + both, rows + both)
  {
    hide Windowed, Flatten, Pairs;
    var turns, turn := Pairs(rows), Turn(Message(User, user), Message(Assistant, reply));
    var k :| IsSuffixFrom(count, budget, history, turns, k);
    ReplyCompletesTheTurn(rows, turn.user, turn.reply);
    FlattenOneMore(turns[k..], turn);
    assert (turns + [turn])[k..] == turns[k..] + [turn];
    WindowGrowsByAtMostTheNewer(count, budget, turns, [turn]);
    assert IsSuffixFrom(count, budget, history + [turn.user, turn.reply], turns + [turn], k);
  }

  lemma WindowGrowsByAtMostTheNewer(count: TokenCounter, budget: nat, turns: seq<Turn>, newer: seq<Turn>)
    ensures |Windowed(count, budget, turns + newer)| <= |Windowed(count, budget, turns)| + |newer|
  {
    NewerTurnsOnlyDropTheFront(count, budget, turns, newer);
    WindowIsLongestFit(count, budget, Windowed(count, budget, turns) + newer);
  }

  // Success, failure and eviction, in any order.
  predicate Agreeable(event: Event) { event.Succeeded? || event.Failed? || event.Evicted? }

  function TurnOf(event: Event): Turn
    requires event.Succeeded?
  {
    Turn(Message(User, event.user), Message(Assistant, event.reply))
  }

  // A success behind a rebuild that raised is cached alone: it does no harm if no more would fit anyway.
  predicate Harmless(count: TokenCounter, budget: nat, s: Store, event: Event) {
    event.Succeeded? && event.blind && s.cache == [] ==>
      |Windowed(count, budget, Pairs(s.rows) + [TurnOf(event)])| <= 1
  }

  lemma StepStaysFaithful(count: TokenCounter, budget: nat, s: Store, event: Event)
    requires Faithful(count, budget, s) && Agreeable(event) && Harmless(count, budget, s, event)
    ensures Faithful(count, budget, After(count, budget, s, event))
  {
    hide Shadows, Rebuilt, Pairs, Loaded, Windowed;
    if !event.Evicted? {
      AskedStaysFaithful(count, budget, s, event.user);
      RecalledFromTheTurnsOnly(count, budget, s, event.user, event.blind);
      if event.blind && s.cache == [] {
        if event.Succeeded? {
          AloneShadowsIff(count, budget, s.rows, TurnOf(event));
          assert [] + [Message(User, event.user), Message(Assistant, event.reply)]
              == [Message(User, event.user), Message(Assistant, event.reply)];
        }
      } else {
        var asked := Store(s.rows + [Message(User, event.user)], s.cache);
        LoadedIsCached(count, budget, s);
        LoadedIsCached(count, budget, asked);
        LoadedShadows(count, budget, asked);
        LoadedShadows(count, budget, s);
        if event.Succeeded? {
          ShadowGrows(count, budget, Loaded(count, budget, s), s.rows, event.user, event.reply);
        }
      }
    }
  }

  lemma LoadedIsCached(count: TokenCounter, budget: nat, s: Store)
    ensures s.cache != [] ==> Loaded(count, budget, s) == s.cache
  {
  }

  // One turn alone is a faithful history exactly when a rebuild would keep no more than it.
  lemma AloneShadowsIff(count: TokenCounter, budget: nat, rows: seq<Message>, turn: Turn)
    requires turn.user.role == User && turn.reply.role == Assistant
    ensures Shadows(count, budget, [turn.user, turn.reply], rows + [turn.user, turn.reply])
       <==> |Windowed(count, budget, Pairs(rows) + [turn])| <= 1
  {
    hide Windowed, Flatten, Pairs;
    var turns, history := Pairs(rows) + [turn], [turn.user, turn.reply];
    ReplyCompletesTheTurn(rows, turn.user, turn.reply);
    assert turns[|turns| - 1..] == [turn];
    FlattenOneMore([], turn);
    assert [] + [turn] == [turn] && Flatten([]) + history == history by { FlattenHasTwoPerTurn([]); }
    forall k | 0 <= k <= |turns| && history == Flatten(turns[k..]) ensures k == |turns| - 1 {
      FlattenHasTwoPerTurn(turns[k..]);
    }
    if |Windowed(count, budget, turns)| <= 1 {
      assert IsSuffixFrom(count, budget, history, turns, |turns| - 1);
    }
  }

  // Exactly when a success behind a rebuild that raised leaves the cache shorter than a rebuild.
  lemma BlindSuccessIsFaithfulIff(count: TokenCounter, budget: nat, s: Store, user: string, reply: string)
    requires Faithful(count, budget, s)
    ensures Faithful(count, budget, After(count, budget, s, Succeeded(user, reply, true)))
       <==> s.cache != []
            || |Windowed(count, budget, Pairs(s.rows) + [Turn(Message(User, user), Message(Assistant, reply))])| <= 1
  {
    hide Shadows, Rebuilt, Pairs, Loaded, Windowed;
    var event := Succeeded(user, reply, true);
    if s.cache != [] {
      StepStaysFaithful(count, budget, s, event);
    } else {
      AloneShadowsIff(count, budget, s.rows, TurnOf(event));
      assert [] + [Message(User, user), Message(Assistant, reply)] == [Message(User, user), Message(Assistant, reply)];
    }
  }

  lemma AskedStaysFaithful(count: TokenCounter, budget: nat, s: Store, user: string)
    requires Faithful(count, budget, s)
    ensures Faithful(count, budget, Store(s.rows + [Message(User, user)], s.cache))
  {
    OrphanAddsNoTurn(s.rows, Message(User, user));
  }

  // The user row just saved is not part of the history it is asked with.
  lemma RecalledFromTheTurnsOnly(count: TokenCounter, budget: nat, s: Store, user: string, blind: bool)
    ensures Loaded(count, budget, Store(s.rows + [Message(User, user)], s.cache)) == Loaded(count, budget, s)
    ensures Recalled(count, budget, Store(s.rows + [Message(User, user)], s.cache), blind)
         == Recalled(count, budget, s, blind)
  {
    OrphanAddsNoTurn(s.rows, Message(User, user));
  }

  function Lived(count: TokenCounter, budget: nat, events: seq<Event>): Store {
    if |events| == 0 then Store([], [])
    else After(count, budget, Lived(count, budget, events[..|events| - 1]), events[|events| - 1])
  }

  predicate AllAgreeable(events: seq<Event>) { forall i :: 0 <= i < |events| ==> Agreeable(events[i]) }

  // No rebuild that raised did harm.
  predicate AllHarmless(count: TokenCounter, budget: nat, events: seq<Event>) {
    |events| == 0
    || (AllHarmless(count, budget, events[..|events| - 1])
        && Harmless(count, budget, Lived(count, budget, events[..|events| - 1]), events[|events| - 1]))
  }

  lemma {:induction false} RunsStayFaithful(count: TokenCounter, budget: nat, events: seq<Event>)
    requires AllAgreeable(events) && AllHarmless(count, budget, events)
    ensures Faithful(count, budget, Lived(count, budget, events))
  {
    hide Faithful, After, Harmless;
    if |events| == 0 {
      NewIsFaithful(count, budget);
    } else {
      RunsStayFaithful(count, budget, events[..|events| - 1]);
      StepStaysFaithful(count, budget, Lived(count, budget, events[..|events| - 1]), events[|events| - 1]);
    }
  }

  lemma NewIsFaithful(count: TokenCounter, budget: nat)
    ensures Faithful(count, budget, Store([], []))
  {
  }

  /* ---- Whatever the rebuilds do, the prompt is a whole-turn suffix ---- */

  ghost predicate Trails(history: seq<Message>, rows: seq<Message>) {
    exists k :: TrailsFrom(history, Pairs(rows), k)
  }

  predicate TrailsFrom(history: seq<Message>, turns: seq<Turn>, k: int) {
    0 <= k <= |turns| && history == Flatten(turns[k..])
  }

  lemma NothingTrails(rows: seq<Message>)
    ensures Trails([], rows)
  {
    var turns := Pairs(rows);
    assert turns[|turns|..] == [];
    assert TrailsFrom([], turns, |turns|);
  }

  lemma RebuiltTrails(count: TokenCounter, budget: nat, rows: seq<Message>)
    ensures Trails(Rebuilt(count, budget, rows), rows)
  {
    hide Flatten, Pairs;
    var turns := Pairs(rows);
    WindowIsLongestFit(count, budget, turns);
    assert TrailsFrom(Rebuilt(count, budget, rows), turns, |turns| - |Windowed(count, budget, turns)|);
  }

  lemma TrailGrows(history: seq<Message>, rows: seq<Message>, turn: Turn)
    requires Trails(history, rows) && turn.user.role == User && turn.reply.role == Assistant
    ensures Trails(history + [turn.user, turn.reply], rows + [turn.user, turn.reply])
  {
    hide Flatten, Pairs;
    var turns := Pairs(rows);
    var k :| TrailsFrom(history, turns, k);
    ReplyCompletesTheTurn(rows, turn.user, turn.reply);
    FlattenOneMore(turns[k..], turn);
    assert (turns + [turn])[k..] == turns[k..] + [turn];
    assert TrailsFrom(history + [turn.user, turn.reply], turns + [turn], k);
  }

  lemma StepStillTrails(count: TokenCounter, budget: nat, s: Store, event: Event)
    requires Trails(s.cache, s.rows) && Agreeable(event)
    ensures var after := After(count, budget, s, event); Trails(after.cache, after.rows)
  {
    hide Trails, Rebuilt, Pairs;
    if event.Evicted? {
      NothingTrails(s.rows);
    } else {
      RebuiltTrails(count, budget, s.rows);
      RecalledFromTheTurnsOnly(count, budget, s, event.user, event.blind);
      var history := Recalled(count, budget, s, event.blind);
      OrphanKeepsTrails(history, s.rows, Message(User, event.user));
      if event.Succeeded? {
        TrailGrows(history, s.rows, TurnOf(event));
      }
    }
  }

  lemma OrphanKeepsTrails(history: seq<Message>, rows: seq<Message>, user: Message)
    requires Trails(history, rows) && user.role == User
    ensures Trails(history, rows + [user])
  {
    OrphanAddsNoTurn(rows, user);
  }

  lemma {:induction false} RunsStillTrail(count: TokenCounter, budget: nat, events: seq<Event>)
    requires AllAgreeable(events)
    ensures var s := Lived(count, budget, events); Trails(s.cache, s.rows)
  {
    hide Trails, After;
    if |events| == 0 {
      NothingTrails([]);
    } else {
      RunsStillTrail(count, budget, events[..|events| - 1]);
      StepStillTrails(count, budget, Lived(count, budget, events[..|events| - 1]), events[|events| - 1]);
    }
  }

  // Over every run of successes, failures and evictions the prompt is a whole-turn suffix of the completed
  // turns. If no rebuild that raised did harm, no rebuild outgrows it, and while everything fits the budget
  // it is all of the turns, so that a hit and a rebuild prompt the same.
  lemma CacheRefinesLog(count: TokenCounter, budget: nat, events: seq<Event>)
    requires AllAgreeable(events)
    ensures var s := Lived(count, budget, events);
            var turns, history := Pairs(s.rows), Loaded(count, budget, s);
            && Trails(history, s.rows)
            && (AllHarmless(count, budget, events) ==>
                  && Shadows(count, budget, history, s.rows)
                  && (Total(count, turns) <= budget ==>
                        history == Flatten(turns) == Rebuilt(count, budget, s.rows)))
  {
    hide Flatten, Pairs, Lived, Trails, AllHarmless, Rebuilt;
    var s := Lived(count, budget, events);
    RunsStillTrail(count, budget, events);
    RebuiltTrails(count, budget, s.rows);
    if AllHarmless(count, budget, events) {
      RunsStayFaithful(count, budget, events);
      LoadedShadows(count, budget, s);
      FittingShadowIsAll(count, budget, Loaded(count, budget, s), s.rows);
    }
  }

  lemma FittingShadowIsAll(count: TokenCounter, budget: nat, history: seq<Message>, rows: seq<Message>)
    requires Shadows(count, budget, history, rows)
    ensures Total(count, Pairs(rows)) <= budget ==>
              history == Flatten(Pairs(rows)) == Rebuilt(count, budget, rows)
  {
    hide Flatten, Pairs;
    var turns := Pairs(rows);
    var k :| IsSuffixFrom(count, budget, history, turns, k);
    assert turns[0..] == turns;
  }

  /* ---- Where the cache and the log part ---- */

  lemma DifferentLastTurnIsNoShadow(count: TokenCounter, budget: nat, history: seq<Message>, turns: seq<Turn>,
                                    k: int)
    requires history != [] && turns != []
    requires history[|history| - 1] != turns[|turns| - 1].reply
    ensures !IsSuffixFrom(count, budget, history, turns, k)
  {
    if 0 <= k < |turns| {
      FlattenHasTwoPerTurn(turns[k..]);
      assert turns[k..][|turns| - k - 1] == turns[|turns| - 1];
    }
  }

  // A reply row without a cache write behind it leaves a hole: the cache stays true to the log, whatever
  // the reply, exactly when there was no history to prompt with.
  lemma InterruptedIsHarmlessIff(count: TokenCounter, budget: nat, s: Store, user: string, blind: bool)
    requires Faithful(count, budget, s)
    ensures (forall reply :: Faithful(count, budget, After(count, budget, s, Interrupted(user, reply, blind))))
        <==> Recalled(count, budget, s, blind) == []
  {
    hide Flatten, Pairs, Loaded, IsSuffixFrom;
    var history := Recalled(count, budget, s, blind);
    RecalledFromTheTurnsOnly(count, budget, s, user, blind);
    if history != [] {
      var reply := history[|history| - 1].content + "!";
      var after := After(count, budget, s, Interrupted(user, reply, blind));
      ReplyCompletesTheTurn(s.rows, Message(User, user), Message(Assistant, reply));
      forall k ensures !IsSuffixFrom(count, budget, after.cache, Pairs(after.rows), k) {
        DifferentLastTurnIsNoShadow(count, budget, after.cache, Pairs(after.rows), k);
      }
      assert !Faithful(count, budget, after);
    }
  }

  // Whatever came before, some rejected reply stays in the prompts for as long as the cache lives.
  lemma UnsavedReplyCanMislead(count: TokenCounter, budget: nat, s: Store, user: string, blind: bool)
    ensures exists reply :: !Faithful(count, budget, After(count, budget, s, Unsaved(user, reply, blind)))
  {
    hide Flatten, Pairs, Loaded, IsSuffixFrom;
    var turns := Pairs(s.rows);
    OrphanAddsNoTurn(s.rows, Message(User, user));
    var reply := if turns == [] then "" else turns[|turns| - 1].reply.content + "!";
    var after := After(count, budget, s, Unsaved(user, reply, blind));
    assert after.cache[|after.cache| - 1] == Message(Assistant, reply);
    assert turns != [] ==> |reply| == |turns[|turns| - 1].reply.content| + 1;
    forall k ensures !IsSuffixFrom(count, budget, after.cache, turns, k) {
      if turns == [] {
        NoTurnsNoHistory(count, budget, after.cache, k);
      } else {
        DifferentLastTurnIsNoShadow(count, budget, after.cache, turns, k);
      }
    }
    assert !Faithful(count, budget, after);
  }

  // Whether appending `turn` to the last `n` turns gives the last n + 1: they all repeat it.
  predicate Repeats(turns: seq<Turn>, n: nat, turn: Turn) {
    |turns| > n && forall i :: |turns| - n - 1 <= i < |turns| ==> turns[i] == turn
  }

  // A prompt of the last `n` turns: the rejected turn does no harm exactly when the last n + 1 turns are all
  // that very turn, and no rebuild would keep more of them.
  lemma UnsavedReplyIsFaithfulIff(count: TokenCounter, budget: nat, s: Store, user: string, reply: string,
                                  blind: bool, n: nat)
    requires n <= |Pairs(s.rows)|
    requires Recalled(count, budget, s, blind) == Flatten(Pairs(s.rows)[|Pairs(s.rows)| - n..])
    ensures var turns, turn := Pairs(s.rows), Turn(Message(User, user), Message(Assistant, reply));
            Faithful(count, budget, After(count, budget, s, Unsaved(user, reply, blind)))
            <==> Repeats(turns, n, turn) && |Windowed(count, budget, turns)| <= n + 1
  {
    hide Flatten, Pairs, Recalled, Windowed, Repeats;
    var turns, turn := Pairs(s.rows), Turn(Message(User, user), Message(Assistant, reply));
    var after := After(count, budget, s, Unsaved(user, reply, blind));
    OrphanAddsNoTurn(s.rows, turn.user);
    RecalledFromTheTurnsOnly(count, budget, s, user, blind);
    var prompted := turns[|turns| - n..];
    FlattenOneMore(prompted, turn);
    assert after.cache == Flatten(prompted + [turn]);
    FlattenHasTwoPerTurn(prompted + [turn]);
    forall k | 0 <= k <= |turns| && after.cache == Flatten(turns[k..])
      ensures k == |turns| - n - 1 && turns[k..] == prompted + [turn]
    {
      FlattenHasTwoPerTurn(turns[k..]);
      FlattenTellsTurns(turns[k..], prompted + [turn]);
    }
    if |turns| > n {
      RepeatsIff(turns, n, turn);
      if Repeats(turns, n, turn) && |Windowed(count, budget, turns)| <= n + 1 {
        assert IsSuffixFrom(count, budget, after.cache, turns, |turns| - n - 1);
      }
    } else {
      NothingRepeats(turns, n, turn);
    }
  }

  lemma NothingRepeats(turns: seq<Turn>, n: nat, turn: Turn)
    requires |turns| <= n
    ensures !Repeats(turns, n, turn)
  {
  }

  lemma {:induction false} FlattenTellsTurns(a: seq<Turn>, b: seq<Turn>)
    requires Flatten(a) == Flatten(b)
    ensures a == b
  {
    FlattenHasTwoPerTurn(a);
    FlattenHasTwoPerTurn(b);
    if |a| > 0 {
      var m := |a| - 1;
      FlattenHasTwoPerTurn(a[..m]);
      FlattenHasTwoPerTurn(b[..m]);
      assert Flatten(a)[..2 * m] == Flatten(a[..m]) && Flatten(b)[..2 * m] == Flatten(b[..m]);
      assert Flatten(a)[2 * m] == a[m].user && Flatten(a)[2 * m + 1] == a[m].reply;
      assert Flatten(b)[2 * m] == b[m].user && Flatten(b)[2 * m + 1] == b[m].reply;
      FlattenTellsTurns(a[..m], b[..m]);
      assert a == a[..m] + [a[m]] && b == b[..m] + [b[m]];
    }
  }

  // A list that equals its own tail with one turn behind it holds that turn throughout.
  lemma RepeatsIff(turns: seq<Turn>, n: nat, turn: Turn)
    requires |turns| > n
    ensures turns[|turns| - n - 1..] == turns[|turns| - n..] + [turn] <==> Repeats(turns, n, turn)
  {
    var shifted := turns[|turns| - n..] + [turn];
    var last := turns[|turns| - n - 1..];
    if last == shifted {
      AllTheSame(last, turn);
      forall i | |turns| - n - 1 <= i < |turns| ensures turns[i] == turn {
        assert turns[i] == last[i - (|turns| - n - 1)];
      }
    }
  }

  lemma {:induction false} AllTheSame(last: seq<Turn>, turn: Turn)
    requires |last| > 0 && last == last[1..] + [turn]
    ensures forall i :: 0 <= i < |last| ==> last[i] == turn
    decreases |last|
  {
    assert last[|last| - 1] == (last[1..] + [turn])[|last| - 1];
    if |last| > 1 {
      var tail := last[1..];
      forall i | 0 <= i < |tail| - 1 ensures tail[i] == tail[1..][i] {
        assert last[i + 1] == (last[1..] + [turn])[i + 1];
      }
      assert tail == tail[1..] + [turn];
      AllTheSame(tail, turn);
      assert last[0] == (last[1..] + [turn])[0] == tail[0];
    }
  }

  // So every rejected reply misleads if the prompt was all the completed turns.
  lemma UnsavedReplyAlwaysMisleads(count: TokenCounter, budget: nat, s: Store, user: string, reply: string,
                                   blind: bool)
    requires Recalled(count, budget, s, blind) == Flatten(Pairs(s.rows))
    ensures !Faithful(count, budget, After(count, budget, s, Unsaved(user, reply, blind)))
  {
    hide Flatten, Pairs, Recalled, Windowed, Faithful;
    var turns := Pairs(s.rows);
    assert turns[|turns| - |turns|..] == turns;
    UnsavedReplyIsFaithfulIff(count, budget, s, user, reply, blind, |turns|);
  }

  lemma NoTurnsNoHistory(count: TokenCounter, budget: nat, history: seq<Message>, k: int)
    requires history != []
    ensures !IsSuffixFrom(count, budget, history, [], k)
  {
  }
}
