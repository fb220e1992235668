/** One conversation's turns as a timed transition system: the reservation flag and the turn stream
    in Redis, the message log and the failure rows in Postgres, the send endpoint and the reply job. */
module TurnProtocol {
  import opened Prelude
  import opened StreamCursors

  const FLAG_TTL := 300.0
  const STREAM_TTL := 900.0
  const QUEUE_LIMIT := 300.0
  const JOB_TIMEOUT := 300.0

  datatype Kind = UserMessage | Progress | MessageDone | FailureTag

  datatype Entry = Entry(id: Cursor, turn: nat, kind: Kind)

  datatype Role = User | Assistant

  datatype Row = Row(sequence: nat, role: Role, turn: nat)

  // Reserved .. Queued belong to the endpoint, Running .. Ended to the job. `Lost` is an endpoint or
  // a worker that died and will never take another step.
  datatype Phase =
    | Reserved | Persisted | Announced | Queued
    | Running | Replied | Finished | Tagged | Recorded
    | Cleared | Ended
    | Lost

  // `histAt` and `staleExpiry` remember the stream at the moment of reservation.
  datatype Turn = Turn(phase: Phase, cursor: Cursor, reservedAt: real, startedAt: real,
                       histAt: nat, staleExpiry: Option<real>)

  datatype Flag = Flag(cursor: Cursor, deadline: real)

  // `hist` is every entry ever appended; the key holds `hist[base..]` and exists when that is not empty.
  // `failures` has every turn that went down the failure path, and whether its failure row was stored.
  datatype State = State(now: real, flag: Option<Flag>, hist: seq<Entry>, base: nat,
                         expiry: Option<real>, log: seq<Row>, failures: map<nat, bool>, turns: seq<Turn>)

  const INITIAL := State(0.0, None, [], 0, None, [], map[], [])

  predicate Live(phase: Phase) {
    phase != Cleared && phase != Ended && phase != Lost
  }

  predicate Started(phase: Phase) {
    phase == Running || phase == Replied || phase == Finished || phase == Tagged || phase == Recorded
  }

  /* ---- What each Redis command and each SQL statement does ---- */

  function LastCursor(s: State): Cursor {
    if s.base < |s.hist| then s.hist[|s.hist| - 1].id else STREAM_CURSOR_ORIGIN
  }

  // XADD keeps the key's expiry; a key it creates has none.
  function XAdd(s: State, e: Entry): State {
    s.(hist := s.hist + [e])
  }

  predicate FreshId(s: State, id: Cursor) {
    Precedes(STREAM_CURSOR_ORIGIN, id)
    && (|s.hist| > 0 ==> Precedes(s.hist[|s.hist| - 1].id, id))
  }

  // EXPIRE on a missing key does nothing.
  function ExpireFlag(s: State, ttl: real): State {
    if s.flag.Some? then s.(flag := Some(s.flag.value.(deadline := s.now + ttl))) else s
  }

  function ExpireKey(s: State, ttl: real): State {
    if s.base < |s.hist| then s.(expiry := Some(s.now + ttl)) else s
  }

  // Time passes; a key whose deadline is reached is removed whole.
  function Elapse(s: State, d: real): State {
    var now := s.now + d;
    var flag := if s.flag.Some? && s.flag.value.deadline <= now then None else s.flag;
    if s.expiry.Some? && s.expiry.value <= now
    then s.(now := now, flag := flag, base := |s.hist|, expiry := None)
    else s.(now := now, flag := flag)
  }

  function MaxSequence(log: seq<Row>): nat {
    if |log| == 0 then 0
    else
      var rest := MaxSequence(log[..|log| - 1]);
      if log[|log| - 1].sequence > rest then log[|log| - 1].sequence else rest
  }

  // The repository numbers a row MAX(sequence) + 1.
  function AppendRow(s: State, role: Role, turn: nat): State {
    s.(log := s.log + [Row(MaxSequence(s.log) + 1, role, turn)])
  }

  // A failure row, once stored, stays.
  function Noted(failures: map<nat, bool>, t: nat, stored: bool): map<nat, bool> {
    failures[t := stored || (t in failures && failures[t])]
  }

  function SetPhase(s: State, t: nat, phase: Phase): State
    requires t < |s.turns|
  {
    s.(turns := s.turns[t := s.turns[t].(phase := phase)])
  }

  /* ---- Steps ---- */

  datatype Step =
    | Tick(d: real)
    | Send
    | PersistUser(t: nat)
    | Announce(t: nat, id: Cursor)
    | Enqueue(t: nat)
    | Start(t: nat)
    | Publish(t: nat, id: Cursor)
    | PersistReply(t: nat, saved: bool)
    | Finish(t: nat, id: Cursor)
    | Tag(t: nat, id: Cursor)
    | Record(t: nat, stored: bool)
    | ClearFlag(t: nat)
    | ExpireStream(t: nat)
    | Die(t: nat)

  predicate InPhase(s: State, t: nat, phase: Phase) {
    t < |s.turns| && s.turns[t].phase == phase
  }

  predicate Enabled(s: State, step: Step) {
    match step
    case Tick(d) => d >= 0.0
    case Send => true
    case PersistUser(t) => InPhase(s, t, Reserved)
    case Announce(t, id) => InPhase(s, t, Persisted) && FreshId(s, id)
    case Enqueue(t) => InPhase(s, t, Announced)
    case Start(t) => InPhase(s, t, Queued)
    case Publish(t, id) => (InPhase(s, t, Running) || InPhase(s, t, Replied)) && FreshId(s, id)
    case PersistReply(t, _) => InPhase(s, t, Running)
    case Finish(t, id) => InPhase(s, t, Replied) && FreshId(s, id)
    case Tag(t, id) =>
      (InPhase(s, t, Running) || InPhase(s, t, Replied) || InPhase(s, t, Finished)) && FreshId(s, id)
    case Record(t, _) => InPhase(s, t, Tagged)
    case ClearFlag(t) => InPhase(s, t, Finished) || InPhase(s, t, Recorded)
    case ExpireStream(t) => InPhase(s, t, Cleared)
    case Die(t) => t < |s.turns| && s.turns[t].phase != Ended
  }

  function Reserve(s: State): State {
    s.(flag := Some(Flag(LastCursor(s), s.now + FLAG_TTL)),
       turns := s.turns + [Turn(Reserved, LastCursor(s), s.now, s.now, |s.hist|, s.expiry)])
  }

  function Apply(s: State, step: Step): State
    requires Enabled(s, step)
  {
    match step
    case Tick(d) => Elapse(s, d)
    case Send => if s.flag.None? then Reserve(s) else s
    case PersistUser(t) => SetPhase(AppendRow(s, User, t), t, Persisted)
    case Announce(t, id) => SetPhase(XAdd(s, Entry(id, t, UserMessage)), t, Announced)
    case Enqueue(t) => SetPhase(s, t, Queued)
    case Start(t) =>
      var s' := ExpireFlag(s, FLAG_TTL);
      s'.(turns := s'.turns[t := s'.turns[t].(phase := Running, startedAt := s.now)])
    case Publish(t, id) => XAdd(s, Entry(id, t, Progress))
    case PersistReply(t, saved) => SetPhase(if saved then AppendRow(s, Assistant, t) else s, t, Replied)
    case Finish(t, id) => SetPhase(XAdd(s, Entry(id, t, MessageDone)), t, Finished)
    case Tag(t, id) => SetPhase(XAdd(s, Entry(id, t, FailureTag)), t, Tagged)
    case Record(t, stored) => SetPhase(s.(failures := Noted(s.failures, t, stored)), t, Recorded)
    case ClearFlag(t) => SetPhase(s.(flag := None), t, Cleared)
    case ExpireStream(t) => SetPhase(ExpireKey(s, STREAM_TTL), t, Ended)
    case Die(t) => SetPhase(s, t, Lost)
  }

  /* ---- Runs ---- */

  predicate Legal(s: State, steps: seq<Step>)
    decreases |steps|
  {
    |steps| == 0 || (Enabled(s, steps[0]) && Legal(Apply(s, steps[0]), steps[1..]))
  }

  function Exec(s: State, steps: seq<Step>): State
    requires Legal(s, steps)
    decreases |steps|
  {
    if |steps| == 0 then s else Exec(Apply(s, steps[0]), steps[1..])
  }

  // The deployment's timing promise: a job starts less than QUEUE_LIMIT after its reservation, and is
  // cancelled and has cleared its flag less than JOB_TIMEOUT after it started.
  predicate Punctual(now: real, turn: Turn) {
    Live(turn.phase) ==>
      if Started(turn.phase) then now < turn.startedAt + JOB_TIMEOUT
      else now < turn.reservedAt + QUEUE_LIMIT
  }

  predicate Timely(s: State) {
    forall t :: 0 <= t < |s.turns| ==> Punctual(s.now, s.turns[t])
  }

  predicate TimelyRun(s: State, steps: seq<Step>)
    requires Legal(s, steps)
    decreases |steps|
  {
    Timely(s) && (|steps| == 0 || TimelyRun(Apply(s, steps[0]), steps[1..]))
  }

  /* ---- The invariant ---- */

  predicate IdsAscend(hist: seq<Entry>) {
    (forall i :: 0 <= i < |hist| ==> Precedes(STREAM_CURSOR_ORIGIN, hist[i].id))
    && (forall i, j :: 0 <= i < j < |hist| ==> Precedes(hist[i].id, hist[j].id))
  }

  predicate KeysConsistent(now: real, flag: Option<Flag>, hist: seq<Entry>, base: nat, expiry: Option<real>) {
    base <= |hist|
    && (expiry.Some? ==> base < |hist| && now < expiry.value)
    && (flag.Some? ==> now < flag.value.deadline)
  }

  function FlagDeadline(turn: Turn): real {
    if Started(turn.phase) then turn.startedAt + FLAG_TTL else turn.reservedAt + FLAG_TTL
  }

  predicate HoldsFlag(now: real, flag: Option<Flag>, turn: Turn) {
    flag == Some(Flag(turn.cursor, FlagDeadline(turn)))
    && turn.reservedAt <= now
    && (Started(turn.phase) ==> turn.startedAt < turn.reservedAt + QUEUE_LIMIT)
  }

  // Only the newest turn can be live, and a live turn holds the flag with its own cursor. A flag
  // without a live turn is the newest turn's, left by an endpoint or a worker that died.
  predicate Exclusive(now: real, flag: Option<Flag>, turns: seq<Turn>) {
    (forall t :: 0 <= t < |turns| - 1 ==> !Live(turns[t].phase))
    && (|turns| == 0 ==> flag.None?)
    && (|turns| > 0 ==>
          var turn := turns[|turns| - 1];
          (Live(turn.phase) ==> HoldsFlag(now, flag, turn))
          && (flag.Some? ==> flag.value.cursor == turn.cursor && (Live(turn.phase) || turn.phase == Lost)))
  }

  // A turn's own entries, in stream order.
  function OfTurn(hist: seq<Entry>, t: nat): seq<Entry> {
    if |hist| == 0 then []
    else
      var last := hist[|hist| - 1];
      OfTurn(hist[..|hist| - 1], t) + (if last.turn == t then [last] else [])
  }

  // The user message, then progress entries only.
  predicate Open(slice: seq<Entry>) {
    |slice| > 0 && slice[0].kind == UserMessage
    && forall i :: 1 <= i < |slice| ==> slice[i].kind == Progress
  }

  predicate Answered(slice: seq<Entry>) {
    |slice| > 1 && slice[|slice| - 1].kind == MessageDone && Open(slice[..|slice| - 1])
  }

  // A cancelled job may be tagged after its MessageDone.
  predicate Failed(slice: seq<Entry>) {
    |slice| > 1 && slice[|slice| - 1].kind == FailureTag
    && (Open(slice[..|slice| - 1]) || Answered(slice[..|slice| - 1]))
  }

  predicate SliceMatches(phase: Phase, slice: seq<Entry>, failed: bool) {
    match phase
    case Reserved => slice == [] && !failed
    case Persisted => slice == [] && !failed
    case Announced => |slice| == 1 && Open(slice) && !failed
    case Queued => |slice| == 1 && Open(slice) && !failed
    case Running => Open(slice) && !failed
    case Replied => Open(slice) && !failed
    case Finished => Answered(slice) && !failed
    case Tagged => Failed(slice) && !failed
    case Recorded => Failed(slice) && failed
    case Cleared => (Answered(slice) && !failed) || (Failed(slice) && failed)
    case Ended => (Answered(slice) && !failed) || (Failed(slice) && failed)
    case Lost => true
  }

  predicate TagsAscend(hist: seq<Entry>, turns: nat) {
    (forall i :: 0 <= i < |hist| ==> hist[i].turn < turns)
    && (forall i, j :: 0 <= i < j < |hist| ==> hist[i].turn <= hist[j].turn)
  }

  predicate SlicesMatch(hist: seq<Entry>, failures: map<nat, bool>, turns: seq<Turn>) {
    (forall t :: t in failures ==> t < |turns|)
    && (forall t :: 0 <= t < |turns| ==> SliceMatches(turns[t].phase, OfTurn(hist, t), t in failures))
  }

  // `cursor` splits the entries from `base` on into turns before `t` and turns from `t` on, and nothing
  // of turn `t` or later lies before `histAt`.
  predicate SplitAt(hist: seq<Entry>, base: nat, t: nat, cursor: Cursor, histAt: nat) {
    (cursor == STREAM_CURSOR_ORIGIN || (|hist| > 0 && !Precedes(hist[|hist| - 1].id, cursor)))
    && histAt <= |hist|
    && (forall i :: base <= i < |hist| ==> (Precedes(cursor, hist[i].id) <==> hist[i].turn >= t))
    && (forall i :: 0 <= i < |hist| && hist[i].turn >= t ==> histAt <= i)
  }

  predicate CursorsSplit(hist: seq<Entry>, base: nat, turns: seq<Turn>) {
    forall t :: 0 <= t < |turns| ==> SplitAt(hist, base, t, turns[t].cursor, turns[t].histAt)
  }

  // (user assistant?)*, numbered from 1, each reply right after its own turn's user row.
  predicate LogShaped(log: seq<Row>) {
    (forall i :: 0 <= i < |log| ==> log[i].sequence == i + 1)
    && (|log| > 0 ==> log[0].role == User)
    && (forall i, j :: 0 <= i < |log| && 0 <= j < |log| && j == i + 1 ==>
          if log[j].role == Assistant then log[i].role == User && log[i].turn == log[j].turn
          else log[i].turn < log[j].turn)
  }

  predicate AwaitsReply(phase: Phase) {
    phase == Persisted || phase == Announced || phase == Queued || phase == Running
  }

  predicate LogMatches(log: seq<Row>, turns: seq<Turn>) {
    LogShaped(log)
    && (|turns| == 0 ==> log == [])
    && (|log| > 0 ==> log[|log| - 1].turn < |turns|)
    && (|turns| > 0 ==>
          var t := |turns| - 1;
          (turns[t].phase == Reserved && |log| > 0 ==> log[|log| - 1].turn < t)
          && (AwaitsReply(turns[t].phase) ==> |log| > 0 && log[|log| - 1] == Row(|log|, User, t)))
  }

  // The newest turn, while live, has lost entries only to the expiry the key already had when the
  // turn was reserved; any other expiry lies too far ahead to reach it.
  predicate ExpirySafe(now: real, base: nat, expiry: Option<real>, turn: Turn) {
    Live(turn.phase) ==>
      (turn.cursor == STREAM_CURSOR_ORIGIN ==> turn.staleExpiry.None?)
      && (base <= turn.histAt || (turn.staleExpiry.Some? && turn.staleExpiry.value <= now))
      && (expiry.Some? ==> expiry == turn.staleExpiry || expiry.value >= turn.reservedAt + STREAM_TTL)
  }

  predicate Inv(s: State) {
    KeysConsistent(s.now, s.flag, s.hist, s.base, s.expiry)
    && IdsAscend(s.hist)
    && TagsAscend(s.hist, |s.turns|)
    && Exclusive(s.now, s.flag, s.turns)
    && SlicesMatch(s.hist, s.failures, s.turns)
    && CursorsSplit(s.hist, s.base, s.turns)
    && LogMatches(s.log, s.turns)
    && (|s.turns| > 0 ==> ExpirySafe(s.now, s.base, s.expiry, s.turns[|s.turns| - 1]))
  }

  /* ---- Every step keeps the invariant ---- */

  lemma OfTurnAppend(hist: seq<Entry>, e: Entry, t: nat)
    ensures OfTurn(hist + [e], t) == OfTurn(hist, t) + (if e.turn == t then [e] else [])
  {
    assert (hist + [e])[..|hist|] == hist;
  }

  lemma {:induction false} OfTurnAbsent(hist: seq<Entry>, t: nat)
    requires forall i :: 0 <= i < |hist| ==> hist[i].turn != t
    ensures OfTurn(hist, t) == []
  {
    if |hist| > 0 {
      OfTurnAbsent(hist[..|hist| - 1], t);
    }
  }

  // The largest number of any row, zero of none.
  lemma {:induction false} MaxSequenceIsLargest(log: seq<Row>)
    ensures forall row :: row in log ==> row.sequence <= MaxSequence(log)
    ensures MaxSequence(log) == 0 || exists row :: row in log && row.sequence == MaxSequence(log)
  {
    if |log| > 0 {
      var before, last := log[..|log| - 1], log[|log| - 1];
      MaxSequenceIsLargest(before);
      assert log == before + [last];
      assert last in log;
    }
  }

  lemma {:induction false} MaxSequenceShaped(log: seq<Row>)
    requires forall i :: 0 <= i < |log| ==> log[i].sequence == i + 1
    ensures MaxSequence(log) == |log|
  {
    if |log| > 0 {
      MaxSequenceShaped(log[..|log| - 1]);
    }
  }

  // `turn` replaces turn `t`: the marks taken at its reservation stay.
  predicate SameMarks(before: Turn, turn: Turn) {
    turn.cursor == before.cursor && turn.histAt == before.histAt
    && turn.reservedAt == before.reservedAt && turn.staleExpiry == before.staleExpiry
  }

  lemma MoveKeepsCursors(hist: seq<Entry>, base: nat, turns: seq<Turn>, t: nat, turn: Turn)
    requires CursorsSplit(hist, base, turns) && t < |turns| && SameMarks(turns[t], turn)
    ensures CursorsSplit(hist, base, turns[t := turn])
  {
  }

  lemma MoveKeepsSlices(hist: seq<Entry>, failures: map<nat, bool>, turns: seq<Turn>, t: nat, turn: Turn)
    requires SlicesMatch(hist, failures, turns) && t < |turns|
    requires SliceMatches(turn.phase, OfTurn(hist, t), t in failures)
    ensures SlicesMatch(hist, failures, turns[t := turn])
  {
  }

  lemma MoveKeepsLog(log: seq<Row>, turns: seq<Turn>, t: nat, turn: Turn)
    requires LogMatches(log, turns) && t < |turns|
    requires turn.phase != Reserved && (AwaitsReply(turn.phase) ==> AwaitsReply(turns[t].phase))
    ensures LogMatches(log, turns[t := turn])
  {
  }

  lemma MoveKeepsExclusive(now: real, flag: Option<Flag>, turns: seq<Turn>, t: nat, turn: Turn)
    requires Exclusive(now, flag, turns) && t < |turns| && SameMarks(turns[t], turn)
    requires Live(turn.phase) ==> Live(turns[t].phase) && HoldsFlag(now, flag, turn)
    requires turn.phase == Cleared || turn.phase == Ended ==> flag.None? || t < |turns| - 1
    ensures Exclusive(now, flag, turns[t := turn])
  {
  }

  lemma MoveKeepsExpiry(now: real, base: nat, expiry: Option<real>, turns: seq<Turn>, t: nat, turn: Turn)
    requires t < |turns| && SameMarks(turns[t], turn)
    requires ExpirySafe(now, base, expiry, turns[|turns| - 1])
    requires Live(turn.phase) ==> Live(turns[t].phase)
    ensures ExpirySafe(now, base, expiry, turns[t := turn][|turns| - 1])
  {
  }

  lemma LiveTurnIsNewest(now: real, flag: Option<Flag>, turns: seq<Turn>, t: nat)
    requires Exclusive(now, flag, turns) && t < |turns| && Live(turns[t].phase)
    ensures t == |turns| - 1 && HoldsFlag(now, flag, turns[t])
  {
  }

  // A step that moves one turn and leaves the stream, the log and the failure rows as they are.
  lemma MoveKeepsInv(s: State, t: nat, turn: Turn)
    requires Inv(s) && t < |s.turns| && SameMarks(s.turns[t], turn)
    requires Live(turn.phase) ==> Live(s.turns[t].phase) && HoldsFlag(s.now, s.flag, turn)
    requires turn.phase == Cleared || turn.phase == Ended ==> s.flag.None? || t < |s.turns| - 1
    requires turn.phase != Reserved && (AwaitsReply(turn.phase) ==> AwaitsReply(s.turns[t].phase))
    requires SliceMatches(turn.phase, OfTurn(s.hist, t), t in s.failures)
    ensures Inv(s.(turns := s.turns[t := turn]))
  {
    hide IdsAscend, TagsAscend, Exclusive, SlicesMatch, CursorsSplit, LogMatches, SliceMatches, ExpirySafe;
    MoveKeepsCursors(s.hist, s.base, s.turns, t, turn);
    MoveKeepsSlices(s.hist, s.failures, s.turns, t, turn);
    MoveKeepsLog(s.log, s.turns, t, turn);
    MoveKeepsExclusive(s.now, s.flag, s.turns, t, turn);
    MoveKeepsExpiry(s.now, s.base, s.expiry, s.turns, t, turn);
  }

  lemma AppendKeepsIds(s: State, e: Entry)
    requires IdsAscend(s.hist) && FreshId(s, e.id)
    ensures IdsAscend(s.hist + [e])
  {
  }

  lemma AppendKeepsTags(hist: seq<Entry>, e: Entry, turns: nat)
    requires TagsAscend(hist, turns) && e.turn == turns - 1
    ensures TagsAscend(hist + [e], turns)
  {
  }

  lemma AppendKeepsCursors(s: State, e: Entry)
    requires IdsAscend(s.hist) && FreshId(s, e.id) && e.turn == |s.turns| - 1
    requires CursorsSplit(s.hist, s.base, s.turns)
    ensures CursorsSplit(s.hist + [e], s.base, s.turns)
  {
    forall t | 0 <= t < |s.turns|
      ensures SplitAt(s.hist + [e], s.base, t, s.turns[t].cursor, s.turns[t].histAt)
    {
      assert SplitAt(s.hist, s.base, t, s.turns[t].cursor, s.turns[t].histAt);
    }
  }

  lemma AppendKeepsSlices(hist: seq<Entry>, failures: map<nat, bool>, turns: seq<Turn>, e: Entry, turn: Turn)
    requires SlicesMatch(hist, failures, turns) && e.turn == |turns| - 1
    requires SliceMatches(turn.phase, OfTurn(hist, e.turn) + [e], e.turn in failures)
    ensures SlicesMatch(hist + [e], failures, turns[e.turn := turn])
  {
    forall t | 0 <= t < |turns|
      ensures SliceMatches(turns[e.turn := turn][t].phase, OfTurn(hist + [e], t), t in failures)
    {
      OfTurnAppend(hist, e, t);
      if t != e.turn {
        assert SliceMatches(turns[t].phase, OfTurn(hist, t), t in failures);
        assert OfTurn(hist, t) + [] == OfTurn(hist, t);
      }
    }
  }

  // Appending one entry of the newest, live turn and moving that turn to `turn`.
  lemma AppendKeepsInv(s: State, e: Entry, turn: Turn)
    requires Inv(s) && FreshId(s, e.id) && e.turn == |s.turns| - 1
    requires Live(s.turns[e.turn].phase) && SameMarks(s.turns[e.turn], turn)
    requires Live(turn.phase) && HoldsFlag(s.now, s.flag, turn)
    requires turn.phase != Reserved && (AwaitsReply(turn.phase) ==> AwaitsReply(s.turns[e.turn].phase))
    requires SliceMatches(turn.phase, OfTurn(s.hist, e.turn) + [e], e.turn in s.failures)
    ensures Inv(XAdd(s, e).(turns := s.turns[e.turn := turn]))
  {
    hide IdsAscend, TagsAscend, Exclusive, SlicesMatch, CursorsSplit, LogMatches, SliceMatches, ExpirySafe;
    AppendKeepsIds(s, e);
    AppendKeepsTags(s.hist, e, |s.turns|);
    AppendKeepsCursors(s, e);
    AppendKeepsSlices(s.hist, s.failures, s.turns, e, turn);
    MoveKeepsCursors(s.hist + [e], s.base, s.turns, e.turn, turn);
    MoveKeepsLog(s.log, s.turns, e.turn, turn);
    MoveKeepsExclusive(s.now, s.flag, s.turns, e.turn, turn);
    MoveKeepsExpiry(s.now, s.base, s.expiry, s.turns, e.turn, turn);
  }

  // The endpoint's and the job's XADDs, by the kind of entry.
  lemma PublishKeepsInv(s: State, t: nat, id: Cursor, kind: Kind, phase: Phase)
    requires Inv(s) && FreshId(s, id) && t < |s.turns| && Live(s.turns[t].phase)
    requires match kind
             case UserMessage => s.turns[t].phase == Persisted && phase == Announced
             case Progress => phase == s.turns[t].phase && (phase == Running || phase == Replied)
             case MessageDone => s.turns[t].phase == Replied && phase == Finished
             case FailureTag =>
               (s.turns[t].phase == Running || s.turns[t].phase == Replied || s.turns[t].phase == Finished)
               && phase == Tagged
    ensures Inv(SetPhase(XAdd(s, Entry(id, t, kind)), t, phase))
  {
    hide IdsAscend, TagsAscend, CursorsSplit, LogMatches, ExpirySafe, FreshId, Answered, Failed, Open;
    var e := Entry(id, t, kind);
    SliceGrows(s.turns[t].phase, OfTurn(s.hist, t), t in s.failures, e, phase);
    AppendKeepsInv(s, e, s.turns[t].(phase := phase));
  }

  lemma SliceGrows(before: Phase, slice: seq<Entry>, failed: bool, e: Entry, after: Phase)
    requires SliceMatches(before, slice, failed)
    requires match e.kind
             case UserMessage => before == Persisted && after == Announced
             case Progress => before == after && (after == Running || after == Replied)
             case MessageDone => before == Replied && after == Finished
             case FailureTag => (before == Running || before == Replied || before == Finished) && after == Tagged
    ensures SliceMatches(after, slice + [e], failed)
  {
    assert (slice + [e])[..|slice|] == slice;
  }

  lemma ElapseKeepsCursors(s: State, d: real)
    requires CursorsSplit(s.hist, s.base, s.turns) && s.base <= |s.hist|
    ensures CursorsSplit(s.hist, Elapse(s, d).base, s.turns)
  {
    forall t | 0 <= t < |s.turns|
      ensures SplitAt(s.hist, Elapse(s, d).base, t, s.turns[t].cursor, s.turns[t].histAt)
    {
      assert SplitAt(s.hist, s.base, t, s.turns[t].cursor, s.turns[t].histAt);
    }
  }

  // A punctual turn's flag never lapses, and no expiry but a stale one reaches a punctual turn.
  lemma ElapseKeepsNewest(s: State, d: real, turn: Turn)
    requires d >= 0.0 && Punctual(s.now + d, turn)
    requires Live(turn.phase) ==> HoldsFlag(s.now, s.flag, turn)
    requires ExpirySafe(s.now, s.base, s.expiry, turn)
    ensures Live(turn.phase) ==> HoldsFlag(s.now + d, Elapse(s, d).flag, turn)
    ensures ExpirySafe(s.now + d, Elapse(s, d).base, Elapse(s, d).expiry, turn)
  {
  }

  lemma TickKeepsInv(s: State, d: real)
    requires Inv(s) && d >= 0.0 && Timely(Elapse(s, d))
    ensures Inv(Elapse(s, d))
  {
    hide IdsAscend, TagsAscend, SlicesMatch, CursorsSplit, LogMatches, ExpirySafe;
    ElapseKeepsCursors(s, d);
    if |s.turns| > 0 {
      ElapseKeepsNewest(s, d, s.turns[|s.turns| - 1]);
    }
  }

  lemma ReserveKeepsCursors(s: State)
    requires s.base <= |s.hist| && IdsAscend(s.hist) && TagsAscend(s.hist, |s.turns|)
    requires CursorsSplit(s.hist, s.base, s.turns)
    ensures CursorsSplit(s.hist, s.base, Reserve(s).turns)
  {
    forall t | 0 <= t < |s.turns| + 1
      ensures SplitAt(s.hist, s.base, t, Reserve(s).turns[t].cursor, Reserve(s).turns[t].histAt)
    {
      if t < |s.turns| {
        assert SplitAt(s.hist, s.base, t, s.turns[t].cursor, s.turns[t].histAt);
      }
    }
  }

  lemma ReserveKeepsSlices(s: State)
    requires SlicesMatch(s.hist, s.failures, s.turns) && TagsAscend(s.hist, |s.turns|)
    ensures SlicesMatch(s.hist, s.failures, Reserve(s).turns)
  {
    var turns := Reserve(s).turns;
    OfTurnAbsent(s.hist, |s.turns|);
    forall t | 0 <= t < |turns|
      ensures SliceMatches(turns[t].phase, OfTurn(s.hist, t), t in s.failures)
    {
      if t < |s.turns| {
        assert SliceMatches(s.turns[t].phase, OfTurn(s.hist, t), t in s.failures);
      }
    }
  }

  lemma ReserveKeepsExclusive(s: State)
    requires Exclusive(s.now, s.flag, s.turns) && s.flag.None?
    ensures Exclusive(s.now, Reserve(s).flag, Reserve(s).turns)
  {
  }

  // Only a missing key is reserved at the origin, and a missing key has no expiry.
  lemma OriginMeansMissing(s: State)
    requires KeysConsistent(s.now, s.flag, s.hist, s.base, s.expiry) && IdsAscend(s.hist)
    ensures LastCursor(s) == STREAM_CURSOR_ORIGIN ==> s.base == |s.hist| && s.expiry.None?
  {
  }

  lemma ReserveKeepsInv(s: State)
    requires Inv(s) && s.flag.None?
    ensures Inv(Reserve(s))
  {
    hide IdsAscend, Exclusive, SlicesMatch, CursorsSplit;
    OriginMeansMissing(s);
    ReserveKeepsCursors(s);
    ReserveKeepsSlices(s);
    ReserveKeepsExclusive(s);
  }

  lemma AppendRowKeepsLog(log: seq<Row>, turns: seq<Turn>, role: Role, phase: Phase)
    requires LogMatches(log, turns) && |turns| > 0
    requires match role
             case User => turns[|turns| - 1].phase == Reserved && phase == Persisted
             case Assistant => turns[|turns| - 1].phase == Running && phase == Replied
    ensures var t := |turns| - 1;
            LogMatches(log + [Row(MaxSequence(log) + 1, role, t)], turns[t := turns[t].(phase := phase)])
  {
    MaxSequenceShaped(log);
  }

  lemma RowKeepsSlices(hist: seq<Entry>, failures: map<nat, bool>, turns: seq<Turn>, t: nat, turn: Turn)
    requires SlicesMatch(hist, failures, turns) && t < |turns|
    requires (turns[t].phase == Reserved && turn.phase == Persisted)
             || (turns[t].phase == Running && turn.phase == Replied)
    ensures SlicesMatch(hist, failures, turns[t := turn])
  {
    hide OfTurn, Open;
    assert SliceMatches(turns[t].phase, OfTurn(hist, t), t in failures);
    MoveKeepsSlices(hist, failures, turns, t, turn);
  }

  lemma AppendRowKeepsInv(s: State, t: nat, role: Role, phase: Phase)
    requires Inv(s) && t < |s.turns|
    requires match role
             case User => s.turns[t].phase == Reserved && phase == Persisted
             case Assistant => s.turns[t].phase == Running && phase == Replied
    ensures Inv(SetPhase(AppendRow(s, role, t), t, phase))
  {
    hide IdsAscend, TagsAscend, CursorsSplit, LogMatches, Exclusive, ExpirySafe, SlicesMatch, OfTurn;
    var turn := s.turns[t].(phase := phase);
    LiveTurnIsNewest(s.now, s.flag, s.turns, t);
    AppendRowKeepsLog(s.log, s.turns, role, phase);
    MoveKeepsCursors(s.hist, s.base, s.turns, t, turn);
    RowKeepsSlices(s.hist, s.failures, s.turns, t, turn);
    MoveKeepsExclusive(s.now, s.flag, s.turns, t, turn);
    MoveKeepsExpiry(s.now, s.base, s.expiry, s.turns, t, turn);
  }

  // The refreshed deadline is what makes the flag outlive the job, not only the queue wait.
  lemma StartKeepsExclusive(s: State, t: nat)
    requires Exclusive(s.now, s.flag, s.turns) && InPhase(s, t, Queued) && Punctual(s.now, s.turns[t])
    ensures var turn := s.turns[t].(phase := Running, startedAt := s.now);
            Exclusive(s.now, ExpireFlag(s, FLAG_TTL).flag, s.turns[t := turn])
  {
    LiveTurnIsNewest(s.now, s.flag, s.turns, t);
  }

  lemma StartKeepsSlices(s: State, t: nat)
    requires SlicesMatch(s.hist, s.failures, s.turns) && InPhase(s, t, Queued)
    ensures SlicesMatch(s.hist, s.failures, s.turns[t := s.turns[t].(phase := Running, startedAt := s.now)])
  {
    assert SliceMatches(s.turns[t].phase, OfTurn(s.hist, t), t in s.failures);
    MoveKeepsSlices(s.hist, s.failures, s.turns, t, s.turns[t].(phase := Running, startedAt := s.now));
  }

  lemma StartKeepsInv(s: State, t: nat)
    requires Inv(s) && Timely(s) && Enabled(s, Start(t))
    ensures Inv(Apply(s, Start(t)))
  {
    hide IdsAscend, TagsAscend, CursorsSplit, LogMatches, Exclusive, SlicesMatch, ExpirySafe;
    var turn := s.turns[t].(phase := Running, startedAt := s.now);
    assert Punctual(s.now, s.turns[t]);
    StartKeepsExclusive(s, t);
    StartKeepsSlices(s, t);
    MoveKeepsCursors(s.hist, s.base, s.turns, t, turn);
    MoveKeepsLog(s.log, s.turns, t, turn);
    MoveKeepsExpiry(s.now, s.base, s.expiry, s.turns, t, turn);
  }

  lemma RecordKeepsSlices(hist: seq<Entry>, failures: map<nat, bool>, turns: seq<Turn>, t: nat, turn: Turn,
                          stored: bool)
    requires SlicesMatch(hist, failures, turns) && t < |turns|
    requires turns[t].phase == Tagged && turn.phase == Recorded
    ensures SlicesMatch(hist, Noted(failures, t, stored), turns[t := turn])
  {
    forall u | 0 <= u < |turns|
      ensures SliceMatches(turns[t := turn][u].phase, OfTurn(hist, u), u in Noted(failures, t, stored))
    {
      assert SliceMatches(turns[u].phase, OfTurn(hist, u), u in failures);
    }
  }

  lemma RecordKeepsInv(s: State, t: nat, stored: bool)
    requires Inv(s) && Enabled(s, Record(t, stored))
    ensures Inv(Apply(s, Record(t, stored)))
  {
    hide IdsAscend, TagsAscend, CursorsSplit, SlicesMatch, LogMatches;
    var turn := s.turns[t].(phase := Recorded);
    RecordKeepsSlices(s.hist, s.failures, s.turns, t, turn, stored);
    MoveKeepsCursors(s.hist, s.base, s.turns, t, turn);
    MoveKeepsLog(s.log, s.turns, t, turn);
    MoveKeepsExclusive(s.now, s.flag, s.turns, t, turn);
    MoveKeepsExpiry(s.now, s.base, s.expiry, s.turns, t, turn);
  }

  lemma ClearFlagKeepsExclusive(now: real, flag: Option<Flag>, turns: seq<Turn>, t: nat)
    requires Exclusive(now, flag, turns) && t < |turns| && Live(turns[t].phase)
    ensures Exclusive(now, None, turns[t := turns[t].(phase := Cleared)])
  {
  }

  lemma ClearFlagKeepsSlices(s: State, t: nat)
    requires SlicesMatch(s.hist, s.failures, s.turns) && (InPhase(s, t, Finished) || InPhase(s, t, Recorded))
    ensures SlicesMatch(s.hist, s.failures, s.turns[t := s.turns[t].(phase := Cleared)])
  {
    hide Answered, Failed, Open;
    assert SliceMatches(s.turns[t].phase, OfTurn(s.hist, t), t in s.failures);
    MoveKeepsSlices(s.hist, s.failures, s.turns, t, s.turns[t].(phase := Cleared));
  }

  lemma ClearFlagKeepsInv(s: State, t: nat)
    requires Inv(s) && Enabled(s, ClearFlag(t))
    ensures Inv(Apply(s, ClearFlag(t)))
  {
    hide IdsAscend, TagsAscend, CursorsSplit, LogMatches, Exclusive, ExpirySafe, SlicesMatch;
    var turn := s.turns[t].(phase := Cleared);
    ClearFlagKeepsSlices(s, t);
    MoveKeepsCursors(s.hist, s.base, s.turns, t, turn);
    MoveKeepsLog(s.log, s.turns, t, turn);
    MoveKeepsExpiry(s.now, s.base, s.expiry, s.turns, t, turn);
    ClearFlagKeepsExclusive(s.now, s.flag, s.turns, t);
  }

  // The EXPIRE of an older turn's cleanup may land on the key of the turn that is live now.
  lemma ExpireKeyKeepsExpiry(s: State, turn: Turn)
    requires ExpirySafe(s.now, s.base, s.expiry, turn) && (Live(turn.phase) ==> turn.reservedAt <= s.now)
    ensures ExpirySafe(s.now, s.base, ExpireKey(s, STREAM_TTL).expiry, turn)
  {
  }

  lemma ExpireKeyKeepsInv(s: State)
    requires Inv(s)
    ensures Inv(ExpireKey(s, STREAM_TTL))
  {
    hide IdsAscend, TagsAscend, SlicesMatch, CursorsSplit, LogMatches, Exclusive, ExpirySafe;
    if |s.turns| > 0 {
      if Live(s.turns[|s.turns| - 1].phase) {
        LiveTurnIsNewest(s.now, s.flag, s.turns, |s.turns| - 1);
      }
      ExpireKeyKeepsExpiry(s, s.turns[|s.turns| - 1]);
    }
  }

  lemma ClearedTurnHasNoFlag(now: real, flag: Option<Flag>, turns: seq<Turn>, t: nat)
    requires Exclusive(now, flag, turns) && t < |turns| && turns[t].phase == Cleared
    ensures flag.None? || t < |turns| - 1
  {
  }

  lemma ExpireStreamKeepsInv(s: State, t: nat)
    requires Inv(s) && Enabled(s, ExpireStream(t))
    ensures Inv(Apply(s, ExpireStream(t)))
  {
    hide IdsAscend, TagsAscend, CursorsSplit, LogMatches, Exclusive, ExpirySafe;
    assert SliceMatches(s.turns[t].phase, OfTurn(s.hist, t), t in s.failures);
    ClearedTurnHasNoFlag(s.now, s.flag, s.turns, t);
    ExpireKeyKeepsInv(s);
    MoveKeepsInv(ExpireKey(s, STREAM_TTL), t, s.turns[t].(phase := Ended));
  }

  lemma PhaseKeepsInv(s: State, t: nat, phase: Phase)
    requires Inv(s) && t < |s.turns|
    requires phase == Lost || (phase == Queued && s.turns[t].phase == Announced)
             || (phase == Replied && s.turns[t].phase == Running)
    ensures Inv(SetPhase(s, t, phase))
  {
    hide IdsAscend, TagsAscend, CursorsSplit, LogMatches, Exclusive, ExpirySafe;
    assert SliceMatches(s.turns[t].phase, OfTurn(s.hist, t), t in s.failures);
    if phase != Lost {
      LiveTurnIsNewest(s.now, s.flag, s.turns, t);
    }
    MoveKeepsInv(s, t, s.turns[t].(phase := phase));
  }

  lemma StepKeepsInv(s: State, step: Step)
    requires Inv(s) && Enabled(s, step)
    requires Timely(s) && Timely(Apply(s, step))
    ensures Inv(Apply(s, step))
  {
    hide KeysConsistent, IdsAscend, TagsAscend, Exclusive, SlicesMatch, CursorsSplit, LogMatches, ExpirySafe;
    match step {
      case Tick(d) => TickKeepsInv(s, d);
      case Send => if s.flag.None? { ReserveKeepsInv(s); }
      case PersistUser(t) => AppendRowKeepsInv(s, t, User, Persisted);
      case Announce(t, id) => PublishKeepsInv(s, t, id, UserMessage, Announced);
      case Enqueue(t) => PhaseKeepsInv(s, t, Queued);
      case Start(t) => StartKeepsInv(s, t);
      case Publish(t, id) =>
        PublishKeepsInv(s, t, id, Progress, s.turns[t].phase);
        assert s.turns[t := s.turns[t]] == s.turns;
      case PersistReply(t, saved) =>
        if saved { AppendRowKeepsInv(s, t, Assistant, Replied); } else { PhaseKeepsInv(s, t, Replied); }
      case Finish(t, id) => PublishKeepsInv(s, t, id, MessageDone, Finished);
      case Tag(t, id) => PublishKeepsInv(s, t, id, FailureTag, Tagged);
      case Record(t, stored) => RecordKeepsInv(s, t, stored);
      case ClearFlag(t) => ClearFlagKeepsInv(s, t);
      case ExpireStream(t) => ExpireStreamKeepsInv(s, t);
      case Die(t) => PhaseKeepsInv(s, t, Lost);
    }
  }

  lemma {:induction false} RunKeepsInv(s: State, steps: seq<Step>)
    requires Inv(s) && Legal(s, steps) && TimelyRun(s, steps)
    ensures Inv(Exec(s, steps))
    decreases |steps|
  {
    if |steps| > 0 {
      var next := Apply(s, steps[0]);
      assert TimelyRun(next, steps[1..]);
      StepKeepsInv(s, steps[0]);
      RunKeepsInv(next, steps[1..]);
    }
  }
}
