/** Assembling tool calls from a streamed completion: each call's pieces arrive over many lines, mixed
    with the pieces of the others, and are keyed by an index. */
module ToolCallAssembly {
  import opened Prelude
  import opened Selection
  import opened ToolLoop

  // Empty text stands for an absent field: the accumulator skips both.
  datatype Delta = Delta(index: Option<int>, id: string, name: string, arguments: string)

  // A blank line, the end marker, malformed data or a payload without choices is `Idle`.
  datatype Line = Idle | Choice(content: string, reasoning: string, deltas: seq<Delta>,
                                finishReason: Option<FinishReason>, model: Option<string>)

  datatype Fragment = Fragment(id: string, name: string, arguments: string)

  const EMPTY := Fragment("", "", "")

  function IndexOf(delta: Delta): int { if delta.index.Some? then delta.index.value else 0 }

  function Extend(fragment: Fragment, delta: Delta): Fragment {
    Fragment(if delta.id != "" then delta.id else fragment.id,
             if delta.name != "" then delta.name else fragment.name,
             fragment.arguments + delta.arguments)
  }

  function Accumulate(fragments: map<int, Fragment>, delta: Delta): map<int, Fragment> {
    var index := IndexOf(delta);
    fragments[index := Extend(if index in fragments then fragments[index] else EMPTY, delta)]
  }

  function Accumulated(fragments: map<int, Fragment>, deltas: seq<Delta>): map<int, Fragment> {
    if |deltas| == 0 then fragments
    else Accumulate(Accumulated(fragments, deltas[..|deltas| - 1]), deltas[|deltas| - 1])
  }

  /* ---- Index order ---- */

  predicate IsLeast(keys: set<int>, k: int) { k in keys && forall j :: j in keys ==> k <= j }

  lemma Inhabited(keys: set<int>)
    requires keys != {}
    ensures exists k :: k in keys
  {
    assert (forall k :: k !in keys) ==> keys == {};
  }

  lemma {:induction false} HasLeast(keys: set<int>)
    requires keys != {}
    ensures exists k :: IsLeast(keys, k)
    decreases |keys|
  {
    Inhabited(keys);
    var k :| k in keys;
    var rest := keys - {k};
    assert forall j :: j in keys ==> j == k || j in rest;
    if rest == {} {
      assert IsLeast(keys, k);
    } else {
      HasLeast(rest);
      var j :| IsLeast(rest, j);
      var least := if k <= j then k else j;
      assert IsLeast(keys, least);
    }
  }

  function Sorted(keys: set<int>): seq<int>
    decreases |keys|
  {
    if keys == {} then []
    else
      HasLeast(keys);
      var k :| IsLeast(keys, k);
      [k] + Sorted(keys - {k})
  }

  predicate Ascending(s: seq<int>) { forall i, j :: 0 <= i < j < |s| ==> s[i] < s[j] }

  lemma SortedStartsAtTheLeast(keys: set<int>)
    requires keys != {}
    ensures exists k :: IsLeast(keys, k) && Sorted(keys) == [k] + Sorted(keys - {k})
  {
    HasLeast(keys);
    var k :| IsLeast(keys, k);
    assert forall j :: IsLeast(keys, j) ==> j == k;
  }

  lemma {:induction false} SortedAscends(keys: set<int>)
    ensures Ascending(Sorted(keys)) && Lists(Sorted(keys), keys)
    decreases |keys|
  {
    if keys == {} {
      assert Sorted(keys) == [];
    } else {
      SortedAfterTheLeast(keys);
    }
  }

  // The sequence holds exactly the members of the set.
  predicate Lists(s: seq<int>, keys: set<int>) {
    (forall i :: 0 <= i < |s| ==> s[i] in keys) && forall k :: k in keys ==> k in s
  }

  lemma ConsAscends(k: int, rest: seq<int>, keys: set<int>)
    requires IsLeast(keys, k) && Ascending(rest) && Lists(rest, keys - {k})
    ensures Ascending([k] + rest)
  {
    var all := [k] + rest;
    forall i, j | 0 <= i < j < |all| ensures all[i] < all[j] {
      assert all[j] == rest[j - 1];
    }
  }

  lemma ConsLists(k: int, rest: seq<int>, keys: set<int>)
    requires k in keys && Lists(rest, keys - {k})
    ensures Lists([k] + rest, keys)
  {
    forall j | j in keys ensures j in [k] + rest {
      assert j == k || j in keys - {k};
    }
  }

  lemma SortedAfterTheLeast(keys: set<int>)
    requires keys != {}
    ensures Ascending(Sorted(keys)) && Lists(Sorted(keys), keys)
    decreases |keys|, 0
  {
    hide Sorted, Ascending, Lists;
    SortedStartsAtTheLeast(keys);
    var k :| IsLeast(keys, k) && Sorted(keys) == [k] + Sorted(keys - {k});
    SortedAscends(keys - {k});
    ConsAscends(k, Sorted(keys - {k}), keys);
    ConsLists(k, Sorted(keys - {k}), keys);
  }

  function Listed(fragments: map<int, Fragment>, order: seq<int>): seq<ToolCall>
    requires forall i :: 0 <= i < |order| ==> order[i] in fragments
  {
    seq(|order|, i requires 0 <= i < |order| => CallOf(fragments[order[i]]))
  }

  function Assembled(fragments: map<int, Fragment>): seq<ToolCall> {
    SortedAscends(fragments.Keys);
    Listed(fragments, Sorted(fragments.Keys))
  }

  /* ---- The parser ---- */

  function ParsedLine(fragments: map<int, Fragment>, line: Line): Option<Chunk> {
    if line.Idle? then None
    else Some(Chunk(line.content, line.reasoning,
                    if line.finishReason.Some? then Some(Assembled(Accumulated(fragments, line.deltas))) else None,
                    line.finishReason, line.model))
  }

  function Deltas(lines: seq<Line>): seq<Delta> {
    if |lines| == 0 then []
    else
      var last := lines[|lines| - 1];
      Deltas(lines[..|lines| - 1]) + (if last.Idle? then [] else last.deltas)
  }

  function Parsed(lines: seq<Line>): seq<Chunk> {
    if |lines| == 0 then []
    else
      var before := lines[..|lines| - 1];
      var chunk := ParsedLine(Accumulated(map[], Deltas(before)), lines[|lines| - 1]);
      Parsed(before) + (if chunk.Some? then [chunk.value] else [])
  }

  lemma {:induction false} AccumulatedInTwo(fragments: map<int, Fragment>, first: seq<Delta>, second: seq<Delta>)
    ensures Accumulated(fragments, first + second) == Accumulated(Accumulated(fragments, first), second)
  {
    hide Accumulate;
    if |second| == 0 {
      assert first + second == first;
    } else {
      AccumulatedInTwo(fragments, first, second[..|second| - 1]);
      assert (first + second)[..|first + second| - 1] == first + second[..|second| - 1];
    }
  }

  // The dictionary shared by all lines of one response.
  class FragmentTable {
    var fragments: map<int, Fragment>

    constructor ()
      ensures fragments == map[]
    {
      fragments := map[];
    }

    method AccumulateFragment(delta: Delta)
      modifies this
      ensures fragments == Accumulate(old(fragments), delta)
    {
      var index := IndexOf(delta);
      var fragment := if index in fragments then fragments[index] else EMPTY;
      if delta.id != "" {
        fragment := fragment.(id := delta.id);
      }
      if delta.name != "" {
        fragment := fragment.(name := delta.name);
      }
      if delta.arguments != "" {
        fragment := fragment.(arguments := fragment.arguments + delta.arguments);
      }
      fragments := fragments[index := fragment];
      ghost var was := if index in old(fragments) then old(fragments)[index] else EMPTY;
      assert was.arguments + "" == was.arguments;
    }

    method ParseLine(line: Line) returns (chunk: Option<Chunk>)
      modifies this
      ensures chunk == ParsedLine(old(fragments), line)
      ensures fragments == Accumulated(old(fragments), if line.Idle? then [] else line.deltas)
    {
      if line.Idle? {
        return None;
      }
      for i := 0 to |line.deltas|
        invariant fragments == Accumulated(old(fragments), line.deltas[..i])
      {
        assert line.deltas[..i + 1][..i] == line.deltas[..i];
        AccumulateFragment(line.deltas[i]);
      }
      assert line.deltas[..|line.deltas|] == line.deltas;
      var toolCalls := None;
      if line.finishReason.Some? {
        toolCalls := Some(Assembled(fragments));
      }
      chunk := Some(Chunk(line.content, line.reasoning, toolCalls, line.finishReason, line.model));
    }
  }

  method ParseResponse(lines: seq<Line>) returns (chunks: seq<Chunk>)
    ensures chunks == Parsed(lines)
  {
    chunks := [];
    var table := new FragmentTable();
    for i := 0 to |lines|
      invariant chunks == Parsed(lines[..i])
      invariant table.fragments == Accumulated(map[], Deltas(lines[..i]))
    {
      assert lines[..i + 1][..i] == lines[..i];
      AccumulatedInTwo(map[], Deltas(lines[..i]), if lines[i].Idle? then [] else lines[i].deltas);
      var chunk := table.ParseLine(lines[i]);
      if chunk.Some? {
        chunks := chunks + [chunk.value];
      }
    }
    assert lines[..|lines|] == lines;
  }

  /* ---- What one call is made of ---- */

  // The pieces sent under one index, in arrival order.
  function PiecesOf(deltas: seq<Delta>, index: int): seq<Delta> {
    if |deltas| == 0 then []
    else
      var last := deltas[|deltas| - 1];
      PiecesOf(deltas[..|deltas| - 1], index) + (if IndexOf(last) == index then [last] else [])
  }

  function Arguments(pieces: seq<Delta>): string {
    if |pieces| == 0 then "" else Arguments(pieces[..|pieces| - 1]) + pieces[|pieces| - 1].arguments
  }

  function LastId(pieces: seq<Delta>): string {
    if |pieces| == 0 then ""
    else if pieces[|pieces| - 1].id != "" then pieces[|pieces| - 1].id
    else LastId(pieces[..|pieces| - 1])
  }

  function LastName(pieces: seq<Delta>): string {
    if |pieces| == 0 then ""
    else if pieces[|pieces| - 1].name != "" then pieces[|pieces| - 1].name
    else LastName(pieces[..|pieces| - 1])
  }

  function Described(pieces: seq<Delta>): ToolCall {
    ToolCall(LastId(pieces), LastName(pieces), Arguments(pieces))
  }

  function CallOf(f: Fragment): ToolCall { ToolCall(f.id, f.name, f.arguments) }

  lemma PieceExtends(pieces: seq<Delta>, last: Delta, f: Fragment)
    requires Described(pieces) == CallOf(f)
    ensures Described(pieces + [last]) == CallOf(Extend(f, last))
  {
    assert (pieces + [last])[..|pieces|] == pieces;
  }

  lemma NoPiecesDescribeNothing()
    ensures Described([]) == CallOf(EMPTY)
  {
  }

  lemma {:induction false} FragmentsAreTheirPieces(deltas: seq<Delta>, index: int)
    ensures var fragments, pieces := Accumulated(map[], deltas), PiecesOf(deltas, index);
            && (index in fragments <==> pieces != [])
            && (index in fragments ==> CallOf(fragments[index]) == Described(pieces))
  {
    hide Described, Extend, CallOf;
    if |deltas| > 0 {
      var before, last := deltas[..|deltas| - 1], deltas[|deltas| - 1];
      FragmentsAreTheirPieces(before, index);
      var fragments, pieces := Accumulated(map[], before), PiecesOf(before, index);
      if IndexOf(last) == index {
        NoPiecesDescribeNothing();
        PieceExtends(pieces, last, if index in fragments then fragments[index] else EMPTY);
      } else {
        assert PiecesOf(deltas, index) == pieces;
      }
    }
  }

  // The calls come in ascending index order, one for each index that was sent, and each is made of its
  // own pieces alone: arguments in arrival order, the last id and the last name that were not empty.
  lemma CallsAreTheirPieces(deltas: seq<Delta>)
    ensures var calls := Assembled(Accumulated(map[], deltas));
            exists order ::
              && Ascending(order) && |order| == |calls|
              && (forall index :: index in order <==> PiecesOf(deltas, index) != [])
              && (forall i :: 0 <= i < |order| ==> calls[i] == Described(PiecesOf(deltas, order[i])))
  {
    hide Accumulated, PiecesOf, Described, Sorted;
    var fragments := Accumulated(map[], deltas);
    var order := Sorted(fragments.Keys);
    SortedAscends(fragments.Keys);
    forall index ensures index in order <==> PiecesOf(deltas, index) != [] {
      FragmentsAreTheirPieces(deltas, index);
    }
    forall i | 0 <= i < |order| ensures Assembled(fragments)[i] == Described(PiecesOf(deltas, order[i])) {
      FragmentsAreTheirPieces(deltas, order[i]);
    }
  }

  // Which pieces these are: those that name the index, and for index 0 those that name none, in arrival order.
  lemma {:induction false} PiecesAreSelected(deltas: seq<Delta>, index: int)
    ensures IsFilter(deltas, PiecesOf(deltas, index),
                     (delta: Delta) => delta.index == Some(index) || (delta.index == None && index == 0))
  {
    hide IsFilter;
    var named := (delta: Delta) => delta.index == Some(index) || (delta.index == None && index == 0);
    if |deltas| == 0 {
      NothingFiltered(named);
    } else {
      var before, last := deltas[..|deltas| - 1], deltas[|deltas| - 1];
      PiecesAreSelected(before, index);
      FiltersOneMore(before, PiecesOf(before, index), named, last);
      assert before + [last] == deltas;
    }
  }

  // However the pieces of the calls are cut and interleaved: streams that agree on each index agree on the calls.
  lemma InterleavingDoesNotMatter(one: seq<Delta>, other: seq<Delta>)
    requires forall index ::
               && (PiecesOf(one, index) == [] <==> PiecesOf(other, index) == [])
               && Described(PiecesOf(one, index)) == Described(PiecesOf(other, index))
    ensures Assembled(Accumulated(map[], one)) == Assembled(Accumulated(map[], other))
  {
    hide Accumulated, PiecesOf, Described, Assembled;
    var a, b := Accumulated(map[], one), Accumulated(map[], other);
    forall index
      ensures index in a <==> index in b
      ensures index in a ==> a[index] == b[index]
    {
      FragmentsAreTheirPieces(one, index);
      FragmentsAreTheirPieces(other, index);
    }
    assert a == b;
  }

  /* ---- What the tool loop is given ---- */

  predicate Finishes(line: Line) { line.Choice? && line.finishReason.Some? }

  predicate NoneFinishes(lines: seq<Line>) { forall i :: 0 <= i < |lines| ==> !Finishes(lines[i]) }

  // Calls are reported by finishing lines only: the aggregated completion carries the calls assembled from
  // everything up to the last finishing line.
  lemma {:induction false} CompletionCarriesTheCalls(before: seq<Line>, finishing: Line, after: seq<Line>)
    requires Finishes(finishing) && NoneFinishes(after)
    ensures AbsorbAll(Parsed(before + [finishing] + after)).toolCalls
         == Assembled(Accumulated(map[], Deltas(before + [finishing])))
  {
    hide Assembled, Accumulated, Parsed, AbsorbAll, Finishes;
    var start := before + [finishing];
    if |after| == 0 {
      OneMoreLine(before, finishing);
      assert start + after == start;
    } else {
      var earlier := after[..|after| - 1];
      CompletionCarriesTheCalls(before, finishing, earlier);
      OneMoreLine(start + earlier, after[|after| - 1]);
      assert start + earlier + [after[|after| - 1]] == start + after;
    }
  }

  lemma {:induction false} UnfinishedCarriesNone(lines: seq<Line>)
    requires NoneFinishes(lines)
    ensures AbsorbAll(Parsed(lines)).toolCalls == [] && AbsorbAll(Parsed(lines)).finishReason == None
  {
    hide Assembled, Accumulated;
    if |lines| > 0 {
      var before, line := lines[..|lines| - 1], lines[|lines| - 1];
      UnfinishedCarriesNone(before);
      OneMoreLine(before, line);
      assert before + [line] == lines;
      assert !Finishes(line);
      var parsed := Parsed(before);
      assert parsed + [] == parsed;
      if line.Choice? {
        var chunk := ParsedLine(Accumulated(map[], Deltas(before)), line).value;
        assert (parsed + [chunk])[..|parsed|] == parsed;
        assert Parsed(lines) == parsed + [chunk];
        assert chunk.finishReason == None;
        assert AbsorbAll(parsed).finishReason == None;
      } else {
        assert Parsed(lines) == parsed;
      }
    }
  }

  lemma OneMoreLine(before: seq<Line>, line: Line)
    ensures AbsorbAll(Parsed(before + [line])).toolCalls
         == if Finishes(line) then Assembled(Accumulated(map[], Deltas(before + [line])))
            else AbsorbAll(Parsed(before)).toolCalls
  {
    hide Assembled, Accumulated;
    var lines := before + [line];
    assert lines[..|before|] == before;
    AccumulatedInTwo(map[], Deltas(before), if line.Idle? then [] else line.deltas);
    if line.Choice? {
      var chunk := ParsedLine(Accumulated(map[], Deltas(before)), line).value;
      assert (Parsed(before) + [chunk])[..|Parsed(before)|] == Parsed(before);
    } else {
      assert Parsed(before) + [] == Parsed(before);
    }
  }
}
