/** Lists filled by offering items one after the other, each kept only if it fits. */
module Selection {

  /** The places before `i` among increasing places are the first `n`. */
  predicate CountBefore(places: seq<nat>, i: nat, n: nat) {
    n <= |places| && (n > 0 ==> places[n - 1] < i) && (n < |places| ==> i <= places[n])
  }

  /** `kept` holds the items at these places, in order, and an item is kept exactly
      when it fits behind the items kept before it. */
  ghost predicate TakenInTurn<T>(fits: (nat, seq<T>) -> bool, items: seq<T>, kept: seq<T>, places: seq<nat>) {
    && |places| == |kept|
    && (forall j, k | 0 <= j < k < |places| :: places[j] < places[k])
    && (forall j | 0 <= j < |places| :: places[j] < |items| && kept[j] == items[places[j]])
    && (forall i: nat, n: nat | i < |items| && CountBefore(places, i, n) ::
          i in places <==> fits(i, kept[..n] + [items[i]]))
  }

  lemma NothingTaken<T>(fits: (nat, seq<T>) -> bool)
    ensures TakenInTurn(fits, [], [], [])
  {
  }

  /** What the places before the last item stay for. */
  lemma EarlierKept<T>(
    fits: (nat, seq<T>) -> bool, items: seq<T>, kept: seq<T>, places: seq<nat>, x: T, i: nat, n: nat)
    requires TakenInTurn(fits, items, kept, places) && i < |items| && CountBefore(places, i, n)
    ensures i in places <==> fits(i, (kept + [x])[..n] + [(items + [x])[i]])
    ensures i in places <==> fits(i, kept[..n] + [(items + [x])[i]])
  {
    assert (kept + [x])[..n] == kept[..n];
    assert (items + [x])[i] == items[i];
  }

  lemma TakeIt<T>(fits: (nat, seq<T>) -> bool, items: seq<T>, kept: seq<T>, places: seq<nat>, x: T)
    requires TakenInTurn(fits, items, kept, places) && fits(|items|, kept + [x])
    ensures TakenInTurn(fits, items + [x], kept + [x], places + [|items|])
  {
    var all, more, where := items + [x], kept + [x], places + [|items|];
    forall i: nat, n: nat | i < |all| && CountBefore(where, i, n)
      ensures i in where <==> fits(i, more[..n] + [all[i]])
    {
      if i < |items| {
        assert n <= |places|;
        assert CountBefore(places, i, n);
        EarlierKept(fits, items, kept, places, x, i, n);
      } else {
        assert n == |places|;
        assert more[..n] == kept;
        assert where[|places|] == i;
      }
    }
  }

  lemma LeaveIt<T>(fits: (nat, seq<T>) -> bool, items: seq<T>, kept: seq<T>, places: seq<nat>, x: T)
    requires TakenInTurn(fits, items, kept, places) && !fits(|items|, kept + [x])
    ensures TakenInTurn(fits, items + [x], kept, places)
  {
    var all := items + [x];
    forall i: nat, n: nat | i < |all| && CountBefore(places, i, n)
      ensures i in places <==> fits(i, kept[..n] + [all[i]])
    {
      if i < |items| {
        EarlierKept(fits, items, kept, places, x, i, n);
      } else {
        assert n == |places|;
        assert kept[..n] == kept;
      }
    }
  }

  /** One more item is kept exactly when it fits behind the others. */
  lemma TakeNext<T>(fits: (nat, seq<T>) -> bool, items: seq<T>, kept: seq<T>, places: seq<nat>, x: T)
    requires TakenInTurn(fits, items, kept, places)
    ensures if fits(|items|, kept + [x]) then TakenInTurn(fits, items + [x], kept + [x], places + [|items|])
            else TakenInTurn(fits, items + [x], kept, places)
  {
    hide TakenInTurn;
    if fits(|items|, kept + [x]) {
      TakeIt(fits, items, kept, places, x);
    } else {
      LeaveIt(fits, items, kept, places, x);
    }
  }

  /** How many of the places come before `i`. */
  function Before(places: seq<nat>, i: nat): (n: nat)
    requires forall j, k | 0 <= j < k < |places| :: places[j] < places[k]
    ensures CountBefore(places, i, n)
  {
    if places == [] || places[|places| - 1] < i then |places| else Before(places[..|places| - 1], i)
  }

  /** The places kept before `i` are the same in any two lists filled this way. */
  lemma {:induction false} SameBefore<T>(
    fits: (nat, seq<T>) -> bool, items: seq<T>, a: seq<T>, p: seq<nat>, b: seq<T>, q: seq<nat>, i: nat)
    requires TakenInTurn(fits, items, a, p) && TakenInTurn(fits, items, b, q) && i <= |items|
    ensures Before(p, i) == Before(q, i)
    ensures a[..Before(p, i)] == b[..Before(q, i)]
  {
    if i > 0 {
      SameBefore(fits, items, a, p, b, q, i - 1);
      var n := Before(p, i - 1);
      assert i - 1 in p <==> fits(i - 1, a[..n] + [items[i - 1]]);
      assert i - 1 in q <==> fits(i - 1, b[..n] + [items[i - 1]]);
      NextBefore(p, i - 1);
      NextBefore(q, i - 1);
    }
  }

  lemma NextBefore(places: seq<nat>, i: nat)
    requires forall j, k | 0 <= j < k < |places| :: places[j] < places[k]
    ensures var n := Before(places, i);
            if i in places then n < |places| && places[n] == i && Before(places, i + 1) == n + 1
            else Before(places, i + 1) == n
  {
    var n, m := Before(places, i), Before(places, i + 1);
    if i in places {
      var j :| 0 <= j < |places| && places[j] == i;
      assert j == n;
    }
  }

  /** There is only one such list. */
  lemma TakenOnce<T>(fits: (nat, seq<T>) -> bool, items: seq<T>, a: seq<T>, p: seq<nat>, b: seq<T>, q: seq<nat>)
    requires TakenInTurn(fits, items, a, p) && TakenInTurn(fits, items, b, q)
    ensures a == b
  {
    SameBefore(fits, items, a, p, b, q, |items|);
    assert Before(p, |items|) == |p| && Before(q, |items|) == |q|;
    assert a[..|p|] == a && b[..|q|] == b;
  }

  ghost predicate EveryPrefixFits<T>(fits: (nat, seq<T>) -> bool, items: seq<T>) {
    forall k: nat | k < |items| :: fits(k, items[..k] + [items[k]])
  }

  /** The next place, when every prefix fits. */
  lemma AllTakenNext<T>(fits: (nat, seq<T>) -> bool, items: seq<T>, kept: seq<T>, places: seq<nat>, i: nat)
    requires TakenInTurn(fits, items, kept, places) && i < |items| && EveryPrefixFits(fits, items)
    requires CountBefore(places, i, i) && i <= |kept| && kept[..i] == items[..i]
    ensures CountBefore(places, i + 1, i + 1) && i + 1 <= |kept| && kept[i] == items[i]
  {
    assert fits(i, items[..i] + [items[i]]);
    assert i in places;
    var j :| 0 <= j < |places| && places[j] == i;
    assert j == i;
  }

  lemma {:induction false} AllTakenTo<T>(
    fits: (nat, seq<T>) -> bool, items: seq<T>, kept: seq<T>, places: seq<nat>, i: nat)
    requires TakenInTurn(fits, items, kept, places) && i <= |items| && EveryPrefixFits(fits, items)
    ensures CountBefore(places, i, i) && i <= |kept| && kept[..i] == items[..i]
  {
    hide TakenInTurn, EveryPrefixFits, CountBefore;
    if i == 0 {
      NoneBefore(places);
    } else {
      AllTakenTo(fits, items, kept, places, i - 1);
      AllTakenNext(fits, items, kept, places, i - 1);
      assert kept[..i] == kept[..i - 1] + [kept[i - 1]];
      assert items[..i] == items[..i - 1] + [items[i - 1]];
    }
  }

  lemma NoneBefore(places: seq<nat>)
    ensures CountBefore(places, 0, 0)
  {
  }

  /** When every prefix fits, everything is kept. */
  lemma AllTaken<T>(fits: (nat, seq<T>) -> bool, items: seq<T>, kept: seq<T>, places: seq<nat>)
    requires TakenInTurn(fits, items, kept, places) && EveryPrefixFits(fits, items)
    ensures kept == items
  {
    AllTakenTo(fits, items, kept, places, |items|);
    assert |places| == |items|;
    assert kept[..|items|] == kept && items[..|items|] == items;
  }
}
