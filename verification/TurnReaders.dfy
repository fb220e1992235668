/** A reader of the turn stream: it attaches, reads batches, disconnects and resumes, while the
    protocol runs. Readers change nothing, so one reader stands for any number of them. */
module TurnReaders {
  import opened Prelude
  import opened Selection
  import opened StreamCursors
  import opened TurnProtocol
  import opened TurnSafety

  datatype Reader = Reader(start: Cursor, cursor: Cursor, received: seq<Entry>)

  function Retained(s: State): seq<Entry> {
    if s.base <= |s.hist| then s.hist[s.base..] else []
  }

  // XREAD: every retained entry strictly after the cursor.
  function After(entries: seq<Entry>, cursor: Cursor): seq<Entry> {
    if |entries| == 0 then []
    else
      var last := entries[|entries| - 1];
      After(entries[..|entries| - 1], cursor) + (if Precedes(cursor, last.id) then [last] else [])
  }

  // An in-progress turn is replayed from its reservation; an idle conversation from its tail.
  function ResumeTurnCursor(s: State): Cursor {
    if s.flag.Some? then s.flag.value.cursor else LastCursor(s)
  }

  function Attach(s: State): Reader {
    Reader(ResumeTurnCursor(s), ResumeTurnCursor(s), [])
  }

  function Pending(s: State, r: Reader): seq<Entry> {
    After(Retained(s), r.cursor)
  }

  // `Read(k)` delivers the first `k` pending entries; a connection may drop after any of them. A
  // reader that has seen an entry resumes after it, any other one attaches anew.
  datatype Op = Do(step: Step) | Read(count: nat) | Reconnect

  predicate OpEnabled(s: State, r: Reader, op: Op) {
    match op
    case Do(step) => Enabled(s, step)
    case Read(count) => count <= |Pending(s, r)|
    case Reconnect => true
  }

  function Deliver(r: Reader, batch: seq<Entry>): Reader {
    if |batch| == 0 then r
    else Reader(r.start, batch[|batch| - 1].id, r.received + batch)
  }

  function NextState(s: State, r: Reader, op: Op): State
    requires OpEnabled(s, r, op)
  {
    if op.Do? then Apply(s, op.step) else s
  }

  function NextReader(s: State, r: Reader, op: Op): Reader
    requires OpEnabled(s, r, op)
  {
    match op
    case Do(_) => r
    case Read(count) => Deliver(r, Pending(s, r)[..count])
    case Reconnect => if r.received == [] then Attach(s) else r
  }

  // Legal and timely; reads, drops and reconnects come in any order.
  predicate Watching(s: State, r: Reader, ops: seq<Op>)
    decreases |ops|
  {
    Timely(s)
    && (|ops| == 0
        || (OpEnabled(s, r, ops[0])
            && Watching(NextState(s, r, ops[0]), NextReader(s, r, ops[0]), ops[1..])))
  }

  function Watch(s: State, r: Reader, ops: seq<Op>): (State, Reader)
    requires Watching(s, r, ops)
    decreases |ops|
  {
    if |ops| == 0 then (s, r)
    else Watch(NextState(s, r, ops[0]), NextReader(s, r, ops[0]), ops[1..])
  }

  /* ---- XREAD over ascending ids is a suffix ---- */

  lemma {:induction false} AfterFrom(entries: seq<Entry>, cursor: Cursor, m: nat)
    requires m <= |entries|
    requires forall i :: 0 <= i < |entries| ==> (Precedes(cursor, entries[i].id) <==> m <= i)
    ensures After(entries, cursor) == entries[m..]
  {
    if |entries| > 0 {
      var init := entries[..|entries| - 1];
      if m <= |init| {
        AfterFrom(init, cursor, m);
        assert entries[m..] == init[m..] + [entries[|entries| - 1]];
      } else {
        AfterFrom(init, cursor, |init|);
      }
    }
  }

  lemma {:induction false} AfterIsSuffix(entries: seq<Entry>, cursor: Cursor) returns (m: nat)
    requires IdsAscend(entries)
    ensures m <= |entries| && After(entries, cursor) == entries[m..]
    ensures forall i :: 0 <= i < |entries| ==> (Precedes(cursor, entries[i].id) <==> m <= i)
  {
    m := 0;
    while m < |entries| && !Precedes(cursor, entries[m].id)
      invariant m <= |entries|
      invariant forall i :: 0 <= i < m ==> !Precedes(cursor, entries[i].id)
    {
      m := m + 1;
    }
    forall i | m <= i < |entries|
      ensures Precedes(cursor, entries[i].id)
    {
      assert m < i ==> Precedes(entries[m].id, entries[i].id);
    }
    AfterFrom(entries, cursor, m);
  }

  predicate Later(cursor: Cursor, e: Entry) {
    e.id.millis > cursor.millis || (e.id.millis == cursor.millis && e.id.sequence > cursor.sequence)
  }

  // A read returns, in order, exactly the entries of a later millisecond and, of the cursor's own, those
  // numbered higher.
  lemma {:induction false} ReadGoesByTime(entries: seq<Entry>, cursor: Cursor)
    ensures IsFilter(entries, After(entries, cursor), e => Later(cursor, e))
    ensures forall e :: e in After(entries, cursor) <==> e in entries && Later(cursor, e)
  {
    hide IsFilter;
    var later := (e: Entry) => Later(cursor, e);
    if |entries| == 0 {
      NothingFiltered(later);
    } else {
      var before, last := entries[..|entries| - 1], entries[|entries| - 1];
      ReadGoesByTime(before, cursor);
      FiltersOneMore(before, After(before, cursor), later, last);
      assert before + [last] == entries;
      assert forall e :: e in entries <==> e in before || e == last;
    }
  }

  // So what is pending for a reader is what the key has kept of the time behind its cursor.
  lemma PendingGoesByTime(s: State, r: Reader, i: nat)
    requires i < |s.hist|
    ensures var id := s.hist[i].id;
            && (s.base <= i && id.millis > r.cursor.millis ==> s.hist[i] in Pending(s, r))
            && (s.base <= i && id.millis == r.cursor.millis && id.sequence > r.cursor.sequence ==>
                  s.hist[i] in Pending(s, r))
            && (id.millis < r.cursor.millis ==> s.hist[i] !in Pending(s, r))
            && (id.millis == r.cursor.millis && id.sequence <= r.cursor.sequence ==> s.hist[i] !in Pending(s, r))
  {
    hide After;
    ReadGoesByTime(Retained(s), r.cursor);
    if s.base <= i {
      assert Retained(s)[i - s.base] == s.hist[i];
    }
  }

  lemma DeliverLeavesRest(entries: seq<Entry>, r: Reader, count: nat)
    requires IdsAscend(entries) && count <= |After(entries, r.cursor)|
    ensures var pending := After(entries, r.cursor);
            After(entries, Deliver(r, pending[..count]).cursor) == pending[count..]
  {
    var m := AfterIsSuffix(entries, r.cursor);
    if count > 0 {
      assert entries[m..][..count][count - 1] == entries[m + count - 1];
      AfterFrom(entries, entries[m + count - 1].id, m + count);
      assert entries[m..][count..] == entries[m + count..];
    }
  }

  lemma AfterAppend(entries: seq<Entry>, e: Entry, cursor: Cursor)
    ensures After(entries + [e], cursor) == After(entries, cursor) + (if Precedes(cursor, e.id) then [e] else [])
  {
    assert (entries + [e])[..|entries|] == entries;
  }

  /* ---- Nothing is skipped and nothing repeats ---- */

  // No entry lies beyond the cursor that the reader could not have read before it was appended.
  predicate Reached(s: State, cursor: Cursor) {
    cursor == STREAM_CURSOR_ORIGIN || (|s.hist| > 0 && !Precedes(s.hist[|s.hist| - 1].id, cursor))
  }

  // What has been received plus what is still pending is what a fresh read from the start would get.
  predicate ReaderInv(s: State, r: Reader) {
    s.base <= |s.hist| && Reached(s, r.start) && Reached(s, r.cursor)
    && r.received + Pending(s, r) == After(Retained(s), r.start)
  }

  lemma TurnSplits(s: State, t: nat)
    requires Inv(s) && t < |s.turns|
    ensures SplitAt(s.hist, s.base, t, s.turns[t].cursor, s.turns[t].histAt)
  {
    hide SlicesMatch, LogMatches, TagsAscend, Exclusive, ExpirySafe, SplitAt;
  }

  lemma FlagIsNewestTurns(now: real, flag: Option<Flag>, turns: seq<Turn>)
    requires Exclusive(now, flag, turns) && flag.Some?
    ensures |turns| > 0 && flag.value.cursor == turns[|turns| - 1].cursor
  {
  }

  lemma AttachIsConsistent(s: State)
    requires Inv(s)
    ensures ReaderInv(s, Attach(s))
  {
    hide SlicesMatch, LogMatches, TagsAscend, Exclusive, ExpirySafe, CursorsSplit;
    if s.flag.Some? {
      FlagIsNewestTurns(s.now, s.flag, s.turns);
      TurnSplits(s, |s.turns| - 1);
    }
  }

  lemma StepGrowsHistory(s: State, step: Step)
    requires Enabled(s, step)
    ensures var s' := Apply(s, step);
            s'.hist == s.hist
            || (|s.hist| < |s'.hist| && s'.hist == s.hist + [s'.hist[|s.hist|]]
                && FreshId(s, s'.hist[|s.hist|].id) && Live(s.turns[s'.hist[|s.hist|].turn].phase)
                && s'.base == s.base)
    ensures s.base <= |s.hist| ==> s.base <= Apply(s, step).base <= |Apply(s, step).hist|
  {
  }

  lemma FreshIdIsBeyond(s: State, id: Cursor, cursor: Cursor)
    requires Reached(s, cursor) && FreshId(s, id)
    ensures Precedes(cursor, id) && !Precedes(id, cursor)
  {
  }

  lemma StepKeepsReached(s: State, s': State, cursor: Cursor)
    requires Reached(s, cursor)
    requires s'.hist == s.hist
             || (|s.hist| < |s'.hist| && s'.hist == s.hist + [s'.hist[|s.hist|]] && FreshId(s, s'.hist[|s.hist|].id))
    ensures Reached(s', cursor)
  {
    hide Precedes, FreshId;
    if s'.hist != s.hist {
      FreshIdIsBeyond(s, s'.hist[|s.hist|].id, cursor);
    }
  }

  lemma StepKeepsReader(s: State, r: Reader, step: Step)
    requires ReaderInv(s, r) && Enabled(s, step)
    requires Apply(s, step).base == s.base
    ensures ReaderInv(Apply(s, step), r)
  {
    hide Apply, Enabled, Precedes, FreshId, Reached, After;
    var s' := Apply(s, step);
    StepGrowsHistory(s, step);
    StepKeepsReached(s, s', r.start);
    StepKeepsReached(s, s', r.cursor);
    if s'.hist != s.hist {
      var e := s'.hist[|s.hist|];
      assert Retained(s') == Retained(s) + [e];
      FreshIdIsBeyond(s, e.id, r.start);
      FreshIdIsBeyond(s, e.id, r.cursor);
      AfterAppend(Retained(s), e, r.start);
      AfterAppend(Retained(s), e, r.cursor);
      assert r.received + (Pending(s, r) + [e]) == (r.received + Pending(s, r)) + [e];
    }
  }

  lemma BatchEndsInHistory(s: State, r: Reader, count: nat) returns (i: nat)
    requires IdsAscend(s.hist) && s.base <= |s.hist| && 0 < count <= |Pending(s, r)|
    ensures i < |s.hist| && Pending(s, r)[..count][count - 1] == s.hist[i]
  {
    hide IdsAscend, Precedes, After;
    RetainedAscends(s);
    var m := AfterIsSuffix(Retained(s), r.cursor);
    i := s.base + m + count - 1;
  }

  lemma SplitBatch(received: seq<Entry>, pending: seq<Entry>, count: nat)
    requires count <= |pending|
    ensures received + pending[..count] + pending[count..] == received + pending
  {
    assert pending[..count] + pending[count..] == pending;
  }

  lemma ReadKeepsReader(s: State, r: Reader, count: nat)
    requires IdsAscend(s.hist) && ReaderInv(s, r) && count <= |Pending(s, r)|
    ensures ReaderInv(s, Deliver(r, Pending(s, r)[..count]))
  {
    hide IdsAscend, Precedes, Reached, After;
    var pending := Pending(s, r);
    if count > 0 {
      RetainedAscends(s);
      DeliverLeavesRest(Retained(s), r, count);
      var i := BatchEndsInHistory(s, r, count);
      EntryIsReached(s, i);
      SplitBatch(r.received, pending, count);
    }
  }

  lemma RetainedAscends(s: State)
    requires IdsAscend(s.hist) && s.base <= |s.hist|
    ensures IdsAscend(Retained(s))
  {
  }

  lemma EntryIsReached(s: State, i: nat)
    requires IdsAscend(s.hist) && i < |s.hist|
    ensures Reached(s, s.hist[i].id)
  {
    assert i < |s.hist| - 1 ==> Precedes(s.hist[i].id, s.hist[|s.hist| - 1].id);
  }

  lemma {:induction false} WatchKeepsInv(s: State, r: Reader, ops: seq<Op>)
    requires Inv(s) && Watching(s, r, ops)
    ensures Inv(Watch(s, r, ops).0) && s.base <= Watch(s, r, ops).0.base
    decreases |ops|
  {
    hide Inv, Timely, Apply, Enabled;
    if |ops| > 0 {
      var s', r' := NextState(s, r, ops[0]), NextReader(s, r, ops[0]);
      assert Timely(s');
      assert s.base <= |s.hist| by { InvKeys(s); }
      if ops[0].Do? {
        StepKeepsInv(s, ops[0].step);
        StepGrowsHistory(s, ops[0].step);
      }
      WatchKeepsInv(s', r', ops[1..]);
    }
  }

  lemma InvKeys(s: State)
    requires Inv(s)
    ensures s.base <= |s.hist| && IdsAscend(s.hist)
  {
  }

  // While the key survives, no run of steps, reads, drops and reconnects breaks the reader's count: what
  // it has received and what is pending are what one read from its current start would give.
  lemma {:induction false} WatchKeepsReader(s: State, r: Reader, ops: seq<Op>)
    requires Inv(s) && ReaderInv(s, r) && Watching(s, r, ops)
    requires Watch(s, r, ops).0.base == s.base
    ensures ReaderInv(Watch(s, r, ops).0, Watch(s, r, ops).1)
    decreases |ops|
  {
    hide Inv, Timely, Apply, Enabled, ReaderInv;
    if |ops| > 0 {
      var s', r' := NextState(s, r, ops[0]), NextReader(s, r, ops[0]);
      assert Timely(s');
      InvKeys(s);
      match ops[0] {
        case Do(step) =>
          StepKeepsInv(s, step);
          StepGrowsHistory(s, step);
          WatchKeepsInv(s', r', ops[1..]);
          StepKeepsReader(s, r, step);
        case Read(count) =>
          ReadKeepsReader(s, r, count);
        case Reconnect =>
          AttachIsConsistent(s);
      }
      WatchKeepsReader(s', r', ops[1..]);
    }
  }

  /* ---- What a reader of one turn gets ---- */

  lemma {:induction false} OfTurnSplit(a: seq<Entry>, b: seq<Entry>, t: nat)
    ensures OfTurn(a + b, t) == OfTurn(a, t) + OfTurn(b, t)
    decreases |b|
  {
    if |b| == 0 {
      assert a + b == a;
    } else {
      var init := b[..|b| - 1];
      OfTurnSplit(a, init, t);
      assert (a + b)[..|a + b| - 1] == a + init;
    }
  }

  lemma TurnCursorSplits(hist: seq<Entry>, base: nat, t: nat, cursor: Cursor, histAt: nat) returns (k: nat)
    requires base <= |hist| && IdsAscend(hist) && SplitAt(hist, base, t, cursor, histAt)
    ensures base <= k <= |hist| && After(hist[base..], cursor) == hist[k..]
    ensures forall i :: base <= i < |hist| ==> (hist[i].turn >= t <==> k <= i)
  {
    var retained := hist[base..];
    var m := AfterIsSuffix(retained, cursor);
    k := base + m;
    assert retained[m..] == hist[k..];
    forall i | base <= i < |hist|
      ensures hist[i].turn >= t <==> k <= i
    {
      assert retained[i - base] == hist[i];
    }
  }

  lemma NothingOfItBefore(hist: seq<Entry>, base: nat, t: nat, cursor: Cursor, histAt: nat, k: nat)
    requires base <= histAt && k <= |hist| && SplitAt(hist, base, t, cursor, histAt)
    requires forall i :: base <= i < |hist| ==> (hist[i].turn >= t <==> k <= i)
    ensures forall i :: 0 <= i < |hist[..k]| ==> hist[..k][i].turn != t
  {
    hide Precedes;
  }

  // Reading from a turn's own cursor: only that turn and later ones, and all of it unless entries are lost.
  lemma TurnCursorSelectsTurn(hist: seq<Entry>, base: nat, t: nat, cursor: Cursor, histAt: nat)
    requires base <= |hist| && IdsAscend(hist) && SplitAt(hist, base, t, cursor, histAt)
    ensures var read := After(hist[base..], cursor);
            (forall i :: 0 <= i < |read| ==> read[i].turn >= t)
            && (base <= histAt ==> OfTurn(read, t) == OfTurn(hist, t))
  {
    hide IdsAscend, SplitAt, OfTurn, After, Precedes;
    var k := TurnCursorSplits(hist, base, t, cursor, histAt);
    if base <= histAt {
      NothingOfItBefore(hist, base, t, cursor, histAt, k);
      OfTurnAbsent(hist[..k], t);
      OfTurnSplit(hist[..k], hist[k..], t);
      assert hist[..k] + hist[k..] == hist;
    }
  }

  // The tail cursor of a key that survives selects exactly what is appended later.
  lemma TailSelectsNewer(s: State, hist: seq<Entry>)
    requires s.base <= |s.hist| <= |hist| && IdsAscend(hist) && hist[..|s.hist|] == s.hist
    ensures After(hist[s.base..], LastCursor(s)) == hist[|s.hist|..]
  {
    var retained := hist[s.base..];
    var m := |s.hist| - s.base;
    forall i | 0 <= i < |retained|
      ensures Precedes(LastCursor(s), retained[i].id) <==> m <= i
    {
      assert retained[i] == hist[s.base + i];
      if s.base < |s.hist| {
        assert hist[|s.hist| - 1] == s.hist[|s.hist| - 1];
      }
    }
    AfterFrom(retained, LastCursor(s), m);
    assert retained[m..] == hist[|s.hist|..];
  }

  /* ---- Never backwards: any reads, drops, reconnects and expiries ---- */

  // The first `n` turns are over, and a held flag is a later one's.
  predicate Over(s: State, n: nat) {
    n <= |s.turns|
    && (forall t :: 0 <= t < n ==> !Live(s.turns[t].phase))
    && (s.flag.Some? ==> n < |s.turns|)
  }

  // Nothing of the first `n` turns is left to read.
  predicate Beyond(s: State, cursor: Cursor, n: nat) {
    forall i :: s.base <= i < |s.hist| && Precedes(cursor, s.hist[i].id) ==> s.hist[i].turn >= n
  }

  // What has been received is in stream order, without repeats, and of later turns only.
  predicate InOrder(r: Reader, n: nat) {
    (forall i, j :: 0 <= i < j < |r.received| ==> Precedes(r.received[i].id, r.received[j].id))
    && (forall i :: 0 <= i < |r.received| ==> r.received[i].turn >= n)
    && (|r.received| > 0 ==> r.cursor == r.received[|r.received| - 1].id)
  }

  lemma StepKeepsOver(s: State, step: Step, n: nat)
    requires Enabled(s, step) && Over(s, n)
    ensures Over(Apply(s, step), n)
  {
    hide Precedes, FreshId, MaxSequence;
  }

  lemma StepKeepsBeyond(s: State, step: Step, cursor: Cursor, n: nat)
    requires Enabled(s, step) && Over(s, n) && Beyond(s, cursor, n) && s.base <= |s.hist|
    ensures Beyond(Apply(s, step), cursor, n)
  {
    hide Apply, Enabled, Precedes, FreshId;
    StepGrowsHistory(s, step);
  }

  lemma AttachIsBeyond(s: State, n: nat)
    requires Inv(s) && Over(s, n)
    ensures Beyond(s, ResumeTurnCursor(s), n)
  {
    hide SlicesMatch, LogMatches, TagsAscend, Exclusive, ExpirySafe, CursorsSplit;
    if s.flag.Some? {
      FlagIsNewestTurns(s.now, s.flag, s.turns);
      TurnSplits(s, |s.turns| - 1);
    } else {
      NothingBeyondTheTail(s);
    }
  }

  lemma NothingBeyondTheTail(s: State)
    requires IdsAscend(s.hist) && s.base <= |s.hist|
    ensures forall i :: s.base <= i < |s.hist| ==> !Precedes(LastCursor(s), s.hist[i].id)
    ensures After(Retained(s), LastCursor(s)) == []
  {
    hide After;
    assert s.hist[..|s.hist|] == s.hist;
    TailSelectsNewer(s, s.hist);
    forall i | s.base <= i < |s.hist| ensures !Precedes(LastCursor(s), s.hist[i].id) {
      assert i < |s.hist| - 1 ==> Precedes(s.hist[i].id, s.hist[|s.hist| - 1].id);
    }
  }

  // A batch is a stretch of the history, strictly beyond the cursor.
  lemma PendingIsHistory(s: State, r: Reader) returns (k: nat)
    requires IdsAscend(s.hist) && s.base <= |s.hist|
    ensures s.base <= k <= |s.hist| && Pending(s, r) == s.hist[k..]
    ensures forall i :: k <= i < |s.hist| ==> Precedes(r.cursor, s.hist[i].id)
  {
    hide IdsAscend, Precedes, After;
    RetainedAscends(s);
    var m := AfterIsSuffix(Retained(s), r.cursor);
    k := s.base + m;
    assert Retained(s)[m..] == s.hist[k..];
    forall i | k <= i < |s.hist| ensures Precedes(r.cursor, s.hist[i].id) {
      assert Retained(s)[i - s.base] == s.hist[i];
    }
  }

  lemma ReadKeepsOrder(s: State, r: Reader, count: nat, n: nat)
    requires IdsAscend(s.hist) && s.base <= |s.hist| && count <= |Pending(s, r)|
    requires Beyond(s, r.cursor, n) && InOrder(r, n)
    ensures InOrder(Deliver(r, Pending(s, r)[..count]), n)
    ensures Beyond(s, Deliver(r, Pending(s, r)[..count]).cursor, n)
  {
    hide Pending, Precedes;
    if count > 0 {
      var k := PendingIsHistory(s, r);
      var batch := Pending(s, r)[..count];
      assert forall i :: 0 <= i < count ==> batch[i] == s.hist[k + i];
      var r' := Deliver(r, batch);
      BatchFollows(r.received, r.cursor, batch);
      LaterCursorsStayBeyond(s, r.cursor, k + count - 1, n);
      forall i | 0 <= i < |r'.received| ensures r'.received[i].turn >= n {
        assert i >= |r.received| ==> r'.received[i] == s.hist[k + i - |r.received|];
      }
    }
  }

  lemma BatchFollows(received: seq<Entry>, cursor: Cursor, batch: seq<Entry>)
    requires forall i, j :: 0 <= i < j < |received| ==> Precedes(received[i].id, received[j].id)
    requires |received| > 0 ==> cursor == received[|received| - 1].id
    requires forall i, j :: 0 <= i < j < |batch| ==> Precedes(batch[i].id, batch[j].id)
    requires forall i :: 0 <= i < |batch| ==> Precedes(cursor, batch[i].id)
    ensures var all := received + batch;
            forall i, j :: 0 <= i < j < |all| ==> Precedes(all[i].id, all[j].id)
  {
    var all := received + batch;
    forall i, j | 0 <= i < j < |all| ensures Precedes(all[i].id, all[j].id) {
      if i < |received| <= j {
        assert all[i] == received[i] && all[j] == batch[j - |received|];
        assert i < |received| - 1 ==> Precedes(received[i].id, received[|received| - 1].id);
        assert Precedes(cursor, batch[j - |received|].id);
      } else if j < |received| {
        assert all[i] == received[i] && all[j] == received[j];
      } else {
        assert all[i] == batch[i - |received|] && all[j] == batch[j - |received|];
      }
    }
  }

  lemma LaterCursorsStayBeyond(s: State, cursor: Cursor, k: nat, n: nat)
    requires Beyond(s, cursor, n) && k < |s.hist| && Precedes(cursor, s.hist[k].id)
    ensures Beyond(s, s.hist[k].id, n)
  {
  }

  lemma {:induction false} WatchNeverLooksBack(s: State, r: Reader, ops: seq<Op>, n: nat)
    requires Inv(s) && Over(s, n) && Beyond(s, r.cursor, n) && InOrder(r, n) && Watching(s, r, ops)
    ensures InOrder(Watch(s, r, ops).1, n)
    decreases |ops|
  {
    hide Inv, Timely, Apply, Enabled, Over, Beyond, InOrder, Precedes, Pending, ResumeTurnCursor;
    if |ops| > 0 {
      var s', r' := NextState(s, r, ops[0]), NextReader(s, r, ops[0]);
      assert Timely(s');
      InvKeys(s);
      match ops[0] {
        case Do(step) =>
          StepKeepsInv(s, step);
          StepKeepsOver(s, step, n);
          StepKeepsBeyond(s, step, r.cursor, n);
        case Read(count) =>
          ReadKeepsOrder(s, r, count, n);
        case Reconnect =>
          AttachIsBeyond(s, n);
          NothingIsInOrder(Attach(s), n);
      }
      WatchNeverLooksBack(s', r', ops[1..], n);
    }
  }

  lemma NothingIsInOrder(r: Reader, n: nat)
    requires r.received == []
    ensures InOrder(r, n)
  {
  }

  /* ---- All of a turn, exactly when no reconnect skipped it ---- */

  // Whether a reader without an entry that reconnects now still gets turn `t`.
  predicate Resumable(s: State, t: nat) {
    (s.flag.Some? && t == |s.turns| - 1) || OfTurn(s.hist, t) == []
  }

  // Every reconnect before the first entry came while turn `t` held the flag, or had nothing on the stream.
  predicate Resumed(s: State, r: Reader, ops: seq<Op>, t: nat)
    requires Watching(s, r, ops)
    decreases |ops|
  {
    |ops| == 0
    || ((ops[0].Reconnect? && r.received == [] ==> Resumable(s, t))
        && Resumed(NextState(s, r, ops[0]), NextReader(s, r, ops[0]), ops[1..], t))
  }

  predicate Complete(s: State, r: Reader, t: nat) {
    OfTurn(r.received, t) + OfTurn(Pending(s, r), t) == OfTurn(s.hist, t)
  }

  // The key has kept all of turn `t`, if it has begun.
  predicate Kept(s: State, t: nat) {
    s.base <= |s.hist| && (t < |s.turns| ==> s.base <= s.turns[t].histAt)
  }

  // Turn `t` is over, was on the stream, and will not reach the reader any more.
  predicate Missed(s: State, r: Reader, t: nat) {
    t < |s.turns| && (s.flag.None? || t < |s.turns| - 1) && OfTurn(s.hist, t) != []
    && OfTurn(r.received, t) == [] && OfTurn(Pending(s, r), t) == []
  }

  lemma UnbegunTurnHasNoEntries(s: State, t: nat)
    requires TagsAscend(s.hist, |s.turns|) && t >= |s.turns|
    ensures OfTurn(s.hist, t) == []
  {
    OfTurnAbsent(s.hist, t);
  }

  // What a fresh attachment reads of any turn: all of it or nothing.
  lemma ResumeSelects(s: State, t: nat)
    requires Inv(s) && Kept(s, t)
    ensures OfTurn(Pending(s, Attach(s)), t) == if Resumable(s, t) then OfTurn(s.hist, t) else []
  {
    hide IdsAscend, SlicesMatch, LogMatches, Exclusive, ExpirySafe, CursorsSplit, OfTurn, After, Precedes, SplitAt,
         TagsAscend;
    var read := Pending(s, Attach(s));
    if s.flag.Some? {
      FlagIsNewestTurns(s.now, s.flag, s.turns);
      var u := |s.turns| - 1;
      TurnSplits(s, u);
      TurnCursorSelectsTurn(s.hist, s.base, u, s.turns[u].cursor, s.turns[u].histAt);
      assert read == After(s.hist[s.base..], s.turns[u].cursor);
      if t < u {
        assert forall i :: 0 <= i < |read| ==> read[i].turn != t;
        OfTurnAbsent(read, t);
      } else if t > u {
        UnbegunTurnHasNoEntries(s, t);
        var k := PendingIsHistory(s, Attach(s));
        OfTurnSplit(s.hist[..k], s.hist[k..], t);
        assert s.hist[..k] + s.hist[k..] == s.hist;
      }
    } else {
      NothingBeyondTheTail(s);
      OfTurnAbsent(read, t);
    }
  }

  lemma ReconnectDecides(s: State, r: Reader, t: nat)
    requires Inv(s) && Kept(s, t) && r.received == []
    ensures var r' := NextReader(s, r, Reconnect);
            if Resumable(s, t) then Complete(s, r', t) else Missed(s, r', t)
  {
    hide Inv, Pending, OfTurn, TagsAscend;
    ResumeSelects(s, t);
    NothingOfAnyTurn(t);
    InvTags(s);
    assert [] + OfTurn(Pending(s, Attach(s)), t) == OfTurn(Pending(s, Attach(s)), t);
    if t >= |s.turns| {
      UnbegunTurnHasNoEntries(s, t);
    }
  }

  // A reader of turn `t` that drops before its first entry and reconnects keeps the turn exactly if the
  // turn still holds the flag, or has nothing on the stream.
  lemma ReconnectKeepsTheTurnIff(s: State, r: Reader, t: nat)
    requires Inv(s) && t < |s.turns| && s.base <= s.turns[t].histAt
    requires r.received == [] && r.cursor == s.turns[t].cursor
    ensures OfTurn(Pending(s, r), t) == OfTurn(s.hist, t)
    ensures OfTurn(Pending(s, NextReader(s, r, Reconnect)), t) == OfTurn(Pending(s, r), t)
       <==> (s.flag.Some? && t == |s.turns| - 1) || OfTurn(s.hist, t) == []
  {
    hide IdsAscend, SlicesMatch, LogMatches, Exclusive, ExpirySafe, CursorsSplit, OfTurn, After, Precedes, SplitAt,
         TagsAscend, Resumable;
    InvKeys(s);
    TurnSplits(s, t);
    TurnCursorSelectsTurn(s.hist, s.base, t, s.turns[t].cursor, s.turns[t].histAt);
    ResumeSelects(s, t);
    ResumableIs(s, t);
  }

  lemma ResumableIs(s: State, t: nat)
    ensures Resumable(s, t) <==> (s.flag.Some? && t == |s.turns| - 1) || OfTurn(s.hist, t) == []
  {
  }

  lemma StepGrowsPending(s: State, r: Reader, step: Step)
    requires ReaderInv(s, r) && Enabled(s, step) && Apply(s, step).base == s.base
    ensures var s' := Apply(s, step);
            if s'.hist == s.hist then Pending(s', r) == Pending(s, r)
            else |s.hist| < |s'.hist| && Pending(s', r) == Pending(s, r) + [s'.hist[|s.hist|]]
                 && s'.hist == s.hist + [s'.hist[|s.hist|]] && Live(s.turns[s'.hist[|s.hist|].turn].phase)
  {
    hide Apply, Enabled, Precedes, FreshId, Reached, After;
    var s' := Apply(s, step);
    StepGrowsHistory(s, step);
    if s'.hist != s.hist {
      var e := s'.hist[|s.hist|];
      assert Retained(s') == Retained(s) + [e];
      FreshIdIsBeyond(s, e.id, r.cursor);
      AfterAppend(Retained(s), e, r.cursor);
    }
  }

  lemma StepKeepsComplete(s: State, r: Reader, step: Step, t: nat)
    requires ReaderInv(s, r) && Enabled(s, step) && Apply(s, step).base == s.base && Complete(s, r, t)
    ensures Complete(Apply(s, step), r, t)
  {
    hide Apply, Enabled, Pending, ReaderInv, OfTurn;
    var s' := Apply(s, step);
    StepGrowsPending(s, r, step);
    if s'.hist != s.hist {
      var e := s'.hist[|s.hist|];
      OfTurnAppend(s.hist, e, t);
      OfTurnAppend(Pending(s, r), e, t);
      var more := if e.turn == t then [e] else [];
      assert OfTurn(r.received, t) + (OfTurn(Pending(s, r), t) + more)
          == OfTurn(r.received, t) + OfTurn(Pending(s, r), t) + more;
    }
  }

  // A turn without the flag never gets it back.
  lemma StepKeepsFlagless(s: State, step: Step, t: nat)
    requires Enabled(s, step) && t < |s.turns| && (s.flag.None? || t < |s.turns| - 1)
    ensures var s' := Apply(s, step); t < |s'.turns| && (s'.flag.None? || t < |s'.turns| - 1)
  {
    hide Precedes, FreshId, MaxSequence;
  }

  lemma FlaglessTurnIsNotLive(s: State, t: nat)
    requires Inv(s) && t < |s.turns| && (s.flag.None? || t < |s.turns| - 1)
    ensures !Live(s.turns[t].phase)
  {
    hide KeysConsistent, IdsAscend, TagsAscend, SlicesMatch, CursorsSplit, LogMatches, ExpirySafe;
  }

  lemma StepKeepsMissed(s: State, r: Reader, step: Step, t: nat)
    requires Inv(s) && ReaderInv(s, r) && Enabled(s, step) && Apply(s, step).base == s.base && Missed(s, r, t)
    ensures Missed(Apply(s, step), r, t)
  {
    hide Inv, Apply, Enabled, Pending, ReaderInv, OfTurn;
    var s' := Apply(s, step);
    StepGrowsPending(s, r, step);
    StepKeepsFlagless(s, step, t);
    FlaglessTurnIsNotLive(s, t);
    if s'.hist != s.hist {
      var e := s'.hist[|s.hist|];
      OfTurnAppend(s.hist, e, t);
      OfTurnAppend(Pending(s, r), e, t);
    }
  }

  // A read moves entries from pending to received.
  lemma ReadMoves(s: State, r: Reader, count: nat, t: nat)
    requires IdsAscend(s.hist) && s.base <= |s.hist| && count <= |Pending(s, r)|
    ensures var r' := Deliver(r, Pending(s, r)[..count]);
            OfTurn(r'.received, t) + OfTurn(Pending(s, r'), t)
            == OfTurn(r.received, t) + OfTurn(Pending(s, r), t)
  {
    hide IdsAscend, After, OfTurn, Precedes;
    var pending := Pending(s, r);
    RetainedAscends(s);
    DeliverLeavesRest(Retained(s), r, count);
    if count > 0 {
      assert pending[..count] + pending[count..] == pending;
      OfTurnSplit(pending[..count], pending[count..], t);
      OfTurnSplit(r.received, pending[..count], t);
      assert OfTurn(r.received, t) + OfTurn(pending[..count], t) + OfTurn(pending[count..], t)
          == OfTurn(r.received, t) + (OfTurn(pending[..count], t) + OfTurn(pending[count..], t));
    }
  }

  lemma StepKeepsKept(s: State, step: Step, t: nat)
    requires Enabled(s, step) && Kept(s, t) && Apply(s, step).base == s.base
    ensures Kept(Apply(s, step), t)
  {
    hide Precedes, FreshId, MaxSequence;
  }

  // One operation, from a reader that has or will have all of turn `t`, or from one that missed it.
  lemma OpDecides(s: State, r: Reader, op: Op, t: nat)
    requires Inv(s) && ReaderInv(s, r) && OpEnabled(s, r, op) && Timely(s) && Timely(NextState(s, r, op))
    requires NextState(s, r, op).base == s.base && Kept(s, t)
    ensures var s', r' := NextState(s, r, op), NextReader(s, r, op);
            && Kept(s', t)
            && (Missed(s, r, t) ==> Missed(s', r', t))
            && (Complete(s, r, t) ==>
                  if op.Reconnect? && r.received == [] && !Resumable(s, t) then Missed(s', r', t)
                  else Complete(s', r', t))
  {
    hide Inv, Apply, Enabled, Pending, ReaderInv, OfTurn, Kept, Resumable, Timely;
    InvKeys(s);
    match op {
      case Do(step) =>
        StepKeepsKept(s, step, t);
        if Missed(s, r, t) { StepKeepsMissed(s, r, step, t); }
        if Complete(s, r, t) { StepKeepsComplete(s, r, step, t); }
      case Read(count) =>
        ReadMoves(s, r, count, t);
      case Reconnect =>
        if r.received == [] {
          ReconnectDecides(s, r, t);
          if Missed(s, r, t) { MissedIsNotResumable(s, r, t); }
        }
    }
  }

  lemma MissedIsNotResumable(s: State, r: Reader, t: nat)
    requires Missed(s, r, t)
    ensures !Resumable(s, t) && !Complete(s, r, t)
  {
    hide OfTurn;
  }

  // While the key survives: from a reader that has or will have all of turn `t`, every run ends with one
  // that has or will have all of it exactly if no reconnect skipped it; otherwise the turn is missed.
  lemma {:induction false} WatchIsCompleteIff(s: State, r: Reader, ops: seq<Op>, t: nat)
    requires Inv(s) && ReaderInv(s, r) && Watching(s, r, ops) && Kept(s, t)
    requires Watch(s, r, ops).0.base == s.base
    requires Complete(s, r, t) || Missed(s, r, t)
    ensures var (s', r') := Watch(s, r, ops);
            if Complete(s, r, t) && Resumed(s, r, ops, t) then Complete(s', r', t) else Missed(s', r', t)
    decreases |ops|
  {
    hide Inv, Timely, Apply, Enabled, ReaderInv, Kept, Complete, Missed, Resumable, Pending;
    if |ops| > 0 {
      var s', r' := NextState(s, r, ops[0]), NextReader(s, r, ops[0]);
      assert Timely(s');
      FirstOpKeepsReader(s, r, ops);
      OpDecides(s, r, ops[0], t);
      if Missed(s', r', t) { MissedIsNotResumable(s', r', t); }
      if Missed(s, r, t) { MissedIsNotResumable(s, r, t); }
      WatchIsCompleteIff(s', r', ops[1..], t);
    }
  }

  lemma FirstOpKeepsReader(s: State, r: Reader, ops: seq<Op>)
    requires Inv(s) && ReaderInv(s, r) && |ops| > 0 && Watching(s, r, ops)
    requires Watch(s, r, ops).0.base == s.base
    ensures var s', r' := NextState(s, r, ops[0]), NextReader(s, r, ops[0]);
            Inv(s') && ReaderInv(s', r') && s'.base == s.base
  {
    hide Inv, Timely, Apply, Enabled, ReaderInv;
    var s', r' := NextState(s, r, ops[0]), NextReader(s, r, ops[0]);
    assert Timely(s');
    InvKeys(s);
    match ops[0] {
      case Do(step) =>
        StepKeepsInv(s, step);
        StepGrowsHistory(s, step);
        WatchKeepsInv(s', r', ops[1..]);
        StepKeepsReader(s, r, step);
      case Read(count) =>
        ReadKeepsReader(s, r, count);
      case Reconnect =>
        AttachIsConsistent(s);
    }
  }

  /* ---- What a reader gets that attached during a turn, and one that attached while idle ---- */

  lemma FlaggedTurnsAreOver(s: State)
    requires Inv(s)
    ensures Over(s, if s.flag.Some? then |s.turns| - 1 else |s.turns|)
  {
    hide KeysConsistent, IdsAscend, TagsAscend, SlicesMatch, CursorsSplit, LogMatches, ExpirySafe;
  }

  lemma AttachedLooksForward(s: State, n: nat)
    requires Inv(s) && Over(s, n)
    ensures Beyond(s, Attach(s).cursor, n) && InOrder(Attach(s), n)
  {
    hide Inv, Beyond;
    AttachIsBeyond(s, n);
  }

  lemma AttachedIsComplete(s: State, t: nat)
    requires Inv(s) && Kept(s, t) && Resumable(s, t)
    ensures Complete(s, Attach(s), t)
  {
    hide Inv, Pending, Resumable, OfTurn;
    ResumeSelects(s, t);
    NothingOfAnyTurn(t);
    assert [] + OfTurn(Pending(s, Attach(s)), t) == OfTurn(Pending(s, Attach(s)), t);
  }

  // Attached while turn `t` holds the flag. Whatever is read, dropped, reconnected or expires: nothing of
  // an earlier turn, in order, nothing twice. While the key survives: received plus pending are one read
  // from the current start, and of turn `t` they are everything exactly when no reconnect skipped it.
  lemma ReaderOfTurnIsExact(s: State, ops: seq<Op>, t: nat)
    requires Inv(s) && s.flag.Some? && t == |s.turns| - 1 && Watching(s, Attach(s), ops)
    ensures var (s', r) := Watch(s, Attach(s), ops);
            && InOrder(r, t)
            && (s'.base == s.base ==> r.received + Pending(s', r) == After(Retained(s'), r.start))
            && (s'.base == s.base <= s.turns[t].histAt ==>
                  && (OfTurn(r.received, t) + OfTurn(Pending(s', r), t) == OfTurn(s'.hist, t)
                      <==> Resumed(s, Attach(s), ops, t))
                  && (Resumed(s, Attach(s), ops, t) && Pending(s', r) == [] ==>
                        OfTurn(r.received, t) == OfTurn(s'.hist, t)))
  {
    hide Inv, Watching, Watch, Resumed, Over, Beyond, InOrder, OfTurn, Pending, Retained, After, Reached, Precedes;
    var (s', r) := Watch(s, Attach(s), ops);
    FlaggedTurnsAreOver(s);
    AttachedLooksForward(s, t);
    WatchNeverLooksBack(s, Attach(s), ops, t);
    AttachIsConsistent(s);
    InvKeys(s);
    if s'.base == s.base {
      WatchKeepsReader(s, Attach(s), ops);
      if s.base <= s.turns[t].histAt {
        AttachedIsComplete(s, t);
        WatchIsCompleteIff(s, Attach(s), ops, t);
        if Missed(s', r, t) { MissedIsNotResumable(s', r, t); }
        NothingOfAnyTurn(t);
        assert OfTurn(r.received, t) + [] == OfTurn(r.received, t);
      }
    }
  }

  lemma NothingOfAnyTurn(t: nat)
    ensures OfTurn([], t) == []
  {
  }

  // Attached while no turn holds the flag: only turns reserved later, in order, nothing twice; while the
  // key survives, all of each of them exactly when no reconnect skipped it, and everything appended since
  // for as long as the reader keeps its start.
  lemma IdleReaderGetsOnlyLaterTurns(s: State, ops: seq<Op>, t: nat)
    requires Inv(s) && s.flag.None? && t >= |s.turns| && Watching(s, Attach(s), ops)
    ensures var (s', r) := Watch(s, Attach(s), ops);
            && InOrder(r, |s.turns|)
            && (s'.base == s.base ==>
                  && (OfTurn(r.received, t) + OfTurn(Pending(s', r), t) == OfTurn(s'.hist, t)
                      <==> Resumed(s, Attach(s), ops, t))
                  && (r.start == Attach(s).start ==>
                        |s.hist| <= |s'.hist| && r.received + Pending(s', r) == s'.hist[|s.hist|..]))
  {
    hide Inv, Watching, Watch, Resumed, Over, Beyond, InOrder, OfTurn, Pending, After, Reached, Precedes, IdsAscend,
         TagsAscend;
    var (s', r) := Watch(s, Attach(s), ops);
    FlaggedTurnsAreOver(s);
    AttachedLooksForward(s, |s.turns|);
    WatchNeverLooksBack(s, Attach(s), ops, |s.turns|);
    AttachIsConsistent(s);
    InvKeys(s);
    if s'.base == s.base {
      InvTags(s);
      UnbegunTurnHasNoEntries(s, t);
      AttachedIsComplete(s, t);
      WatchIsCompleteIff(s, Attach(s), ops, t);
      if Missed(s', r, t) { MissedIsNotResumable(s', r, t); }
      WatchKeepsReader(s, Attach(s), ops);
      WatchKeepsInv(s, Attach(s), ops);
      WatchKeepsHistory(s, Attach(s), ops);
      InvKeys(s');
      TailSelectsNewer(s, s'.hist);
    }
  }

  lemma InvTags(s: State)
    requires Inv(s)
    ensures TagsAscend(s.hist, |s.turns|)
  {
  }

  lemma {:induction false} WatchKeepsHistory(s: State, r: Reader, ops: seq<Op>)
    requires Inv(s) && Watching(s, r, ops)
    ensures var s' := Watch(s, r, ops).0; |s.hist| <= |s'.hist| && s'.hist[..|s.hist|] == s.hist
    decreases |ops|
  {
    hide Inv, Timely, Apply, Enabled;
    if |ops| > 0 {
      var s' := NextState(s, r, ops[0]);
      assert Timely(s');
      if ops[0].Do? {
        StepKeepsInv(s, ops[0].step);
        StepGrowsHistory(s, ops[0].step);
      }
      WatchKeepsHistory(s', NextReader(s, r, ops[0]), ops[1..]);
      var last := Watch(s, r, ops).0;
      assert last.hist[..|s'.hist|][..|s.hist|] == last.hist[..|s.hist|];
    }
  }

  /* ---- A turn that is missed ---- */

  // A reader without an entry that reconnects while no turn holds the flag starts at the tail: whatever
  // was still pending is never delivered.
  lemma ReattachingWhileIdleDropsPending(s: State, r: Reader)
    requires Inv(s) && s.flag.None? && r.received == []
    ensures var r' := NextReader(s, r, Reconnect); r'.received == [] && Pending(s, r') == []
  {
    hide Inv, IdsAscend, Precedes, After;
    InvKeys(s);
    NothingBeyondTheTail(s);
  }

  lemma Watched(s: State, r: Reader, op: Op, ops: seq<Op>)
    requires Timely(s) && OpEnabled(s, r, op) && Watching(NextState(s, r, op), NextReader(s, r, op), ops)
    ensures Watching(s, r, [op] + ops)
    ensures Watch(s, r, [op] + ops) == Watch(NextState(s, r, op), NextReader(s, r, op), ops)
  {
    assert ([op] + ops)[1..] == ops;
  }

  // The first turn is running, with its user message on the stream, when a reader attaches; it reads
  // nothing before the turn ends. The whole slice is pending; a reconnect drops it.
  lemma ReconnectMissesAnEndedTurn() returns (ops: seq<Op>, s: State)
    ensures Watching(RUNNING, Attach(RUNNING), ops)
    ensures Watch(RUNNING, Attach(RUNNING), ops) == (s, Attach(RUNNING))
    ensures Pending(s, Attach(RUNNING)) == OfTurn(s.hist, 0) && |OfTurn(s.hist, 0)| == 2
    ensures Pending(s, NextReader(s, Attach(RUNNING), Reconnect)) == []
  {
    hide Watching, Watch, Pending, MaxSequence, OfTurn;
    var r := Attach(RUNNING);
    MaxSequenceShaped(RUNNING.log);
    var s1 := Apply(RUNNING, PersistReply(0, true));
    assert s1 == RUNNING.(log := s1.log, turns := [RUNNING.turns[0].(phase := Replied)]);
    var s2 := Apply(s1, Finish(0, Id(2)));
    assert s2.turns == [RUNNING.turns[0].(phase := Finished)];
    assert s2.hist == [Entry(Id(1), 0, UserMessage), Entry(Id(2), 0, MessageDone)];
    var s3 := Apply(s2, ClearFlag(0));
    assert s3 == s2.(flag := None, turns := [RUNNING.turns[0].(phase := Cleared)]);
    s := Apply(s3, ExpireStream(0));
    assert s == s3.(expiry := Some(900.0), turns := [RUNNING.turns[0].(phase := Ended)]);
    ops := [];
    WatchedNothing(s, r);
    Watched(s3, r, Do(ExpireStream(0)), ops);
    ops := [Do(ExpireStream(0))] + ops;
    Watched(s2, r, Do(ClearFlag(0)), ops);
    ops := [Do(ClearFlag(0))] + ops;
    Watched(s1, r, Do(Finish(0, Id(2))), ops);
    ops := [Do(Finish(0, Id(2)))] + ops;
    Watched(RUNNING, r, Do(PersistReply(0, true)), ops);
    ops := [Do(PersistReply(0, true))] + ops;
    TwoEntriesPending(s, r);
  }

  lemma WatchedNothing(s: State, r: Reader)
    requires Timely(s)
    ensures Watching(s, r, []) && Watch(s, r, []) == (s, r)
  {
  }

  lemma TwoEntriesPending(s: State, r: Reader)
    requires s.hist == [Entry(Id(1), 0, UserMessage), Entry(Id(2), 0, MessageDone)] && s.base == 0 && s.flag.None?
    requires r == Reader(STREAM_CURSOR_ORIGIN, STREAM_CURSOR_ORIGIN, [])
    ensures Pending(s, r) == s.hist == OfTurn(s.hist, 0)
    ensures Pending(s, NextReader(s, r, Reconnect)) == []
  {
    AfterFrom(s.hist, r.cursor, 0);
    assert s.hist[0..] == s.hist;
    NothingBeyondTheTail(s);
    var first := [s.hist[0]];
    assert s.hist == first + [s.hist[1]] && first == [] + [s.hist[0]];
    OfTurnAppend([], s.hist[0], 0);
    OfTurnAppend(first, s.hist[1], 0);
    assert OfTurn([], 0) == [];
  }
}
