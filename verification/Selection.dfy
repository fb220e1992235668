/** Selecting from a sequence: which positions are taken, in order, and what becomes of them. */
module Selection {
  predicate Increasing(positions: seq<nat>) {
    forall j, k :: 0 <= j < k < |positions| ==> positions[j] < positions[k]
  }

  // Exactly the positions of the items that are wanted.
  predicate Locates<S>(items: seq<S>, positions: seq<nat>, wanted: S -> bool) {
    && (forall k :: 0 <= k < |positions| ==> positions[k] < |items| && wanted(items[positions[k]]))
    && (forall i: nat :: i < |items| && wanted(items[i]) ==> i in positions)
  }

  predicate Become<S, T>(items: seq<S>, taken: seq<T>, positions: seq<nat>, becomes: (S, T) -> bool) {
    |positions| == |taken|
    && forall k :: 0 <= k < |taken| ==> positions[k] < |items| && becomes(items[positions[k]], taken[k])
  }

  // `positions` says where the taken items come from, and each is what its source becomes.
  predicate Selects<S, T>(items: seq<S>, taken: seq<T>, positions: seq<nat>, wanted: S -> bool,
                          becomes: (S, T) -> bool)
  {
    Increasing(positions) && Locates(items, positions, wanted) && Become(items, taken, positions, becomes)
  }

  ghost predicate IsSelection<S, T>(items: seq<S>, taken: seq<T>, wanted: S -> bool, becomes: (S, T) -> bool) {
    exists positions :: Selects(items, taken, positions, wanted, becomes)
  }

  // The items that are wanted, as they are.
  ghost predicate IsFilter<S>(items: seq<S>, taken: seq<S>, wanted: S -> bool) {
    IsSelection(items, taken, wanted, (item, same) => same == item)
  }

  lemma NothingSelected<S, T>(wanted: S -> bool, becomes: (S, T) -> bool)
    ensures IsSelection([], [], wanted, becomes)
  {
    assert Selects([], [], [], wanted, becomes);
  }

  lemma SelectsNoMore<S, T>(items: seq<S>, taken: seq<T>, wanted: S -> bool, becomes: (S, T) -> bool, item: S)
    requires IsSelection(items, taken, wanted, becomes) && !wanted(item)
    ensures IsSelection(items + [item], taken, wanted, becomes)
  {
    var positions :| Selects(items, taken, positions, wanted, becomes);
    assert Selects(items + [item], taken, positions, wanted, becomes);
  }

  lemma LocatesOneMore<S>(items: seq<S>, positions: seq<nat>, wanted: S -> bool, item: S, n: nat)
    requires Locates(items, positions, wanted) && Increasing(positions) && wanted(item) && n == |items|
    ensures Locates(items + [item], positions + [n], wanted) && Increasing(positions + [n])
  {
    var all, more := items + [item], positions + [n];
    forall i: nat | i < |all| && wanted(all[i]) ensures i in more {
      if i == n {
        assert more[|positions|] == n;
      } else {
        assert all[i] == items[i] && i in positions;
      }
    }
  }

  lemma BecomeOneMore<S, T>(items: seq<S>, taken: seq<T>, positions: seq<nat>, becomes: (S, T) -> bool, item: S,
                            value: T, n: nat)
    requires Become(items, taken, positions, becomes) && becomes(item, value) && n == |items|
    ensures Become(items + [item], taken + [value], positions + [n], becomes)
  {
  }

  lemma SelectsOneMore<S, T>(items: seq<S>, taken: seq<T>, wanted: S -> bool, becomes: (S, T) -> bool, item: S,
                             value: T)
    requires IsSelection(items, taken, wanted, becomes) && wanted(item) && becomes(item, value)
    ensures IsSelection(items + [item], taken + [value], wanted, becomes)
  {
    hide Increasing, Locates, Become;
    var positions :| Selects(items, taken, positions, wanted, becomes);
    var n: nat := |items|;
    LocatesOneMore(items, positions, wanted, item, n);
    BecomeOneMore(items, taken, positions, becomes, item, value, n);
    assert Selects(items + [item], taken + [value], positions + [n], wanted, becomes);
  }

  // One more item of a filter, wanted or not.
  lemma FiltersOneMore<S>(items: seq<S>, taken: seq<S>, wanted: S -> bool, item: S)
    requires IsFilter(items, taken, wanted)
    ensures IsFilter(items + [item], taken + (if wanted(item) then [item] else []), wanted)
  {
    hide IsSelection;
    if wanted(item) {
      SelectsOneMore(items, taken, wanted, (item, same) => same == item, item, item);
    } else {
      SelectsNoMore(items, taken, wanted, (item, same) => same == item, item);
      assert taken + [] == taken;
    }
  }

  lemma NothingFiltered<S>(wanted: S -> bool)
    ensures IsFilter([], [], wanted)
  {
    hide IsSelection;
    NothingSelected<S, S>(wanted, (item, same) => same == item);
  }

  // The same filter for another way to say what is wanted.
  lemma FiltersAlike<S(!new)>(items: seq<S>, taken: seq<S>, wanted: S -> bool, also: S -> bool)
    requires IsFilter(items, taken, wanted) && forall item :: wanted(item) <==> also(item)
    ensures IsFilter(items, taken, also)
  {
    var positions :| Selects(items, taken, positions, wanted, (item, same) => same == item);
    assert Selects(items, taken, positions, also, (item, same) => same == item);
  }

  // What is filtered, and then turned one by one.
  lemma FilterTurns<S, T>(items: seq<S>, taken: seq<S>, others: seq<T>, wanted: S -> bool, turns: (S, T) -> bool)
    requires IsFilter(items, taken, wanted) && |others| == |taken|
    requires forall k :: 0 <= k < |taken| ==> turns(taken[k], others[k])
    ensures IsSelection(items, others, wanted, turns)
  {
    var positions :| Selects(items, taken, positions, wanted, (item, same) => same == item);
    assert Selects(items, others, positions, wanted, turns);
  }

  lemma WantedIsTaken<S, T>(items: seq<S>, taken: seq<T>, wanted: S -> bool, becomes: (S, T) -> bool, i: nat)
    returns (k: nat)
    requires IsSelection(items, taken, wanted, becomes) && i < |items| && wanted(items[i])
    ensures k < |taken| && becomes(items[i], taken[k])
  {
    var positions :| Selects(items, taken, positions, wanted, becomes);
    assert i in positions;
    k :| 0 <= k < |positions| && positions[k] == i;
  }
}
