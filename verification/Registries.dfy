/** Items that are in at most one of several lists and know which one, as the
    state and event items of the tasks do. */
module Registries {

  /** `at` is the container pointer of each item that is in a list. */
  datatype Registry = Registry(lists: seq<seq<nat>>, at: map<nat, nat>)

  ghost predicate Distinct(s: seq<nat>)
  {
    forall i, j :: 0 <= i < j < |s| ==> s[i] != s[j]
  }

  /** The container pointers tell the truth. */
  ghost predicate Linked(r: Registry)
  {
    && (forall i :: 0 <= i < |r.lists| ==> Distinct(r.lists[i]))
    && (forall i, x :: 0 <= i < |r.lists| && x in r.lists[i] ==> x in r.at && r.at[x] == i)
    && (forall x :: x in r.at ==> r.at[x] < |r.lists| && x in r.lists[r.at[x]])
  }

  /** How many items there are. */
  function Total(lists: seq<seq<nat>>): nat
  {
    if lists == [] then 0 else |lists[0]| + Total(lists[1..])
  }

  function Less(s: seq<nat>, x: nat): seq<nat>
  {
    if s == [] then [] else if s[0] == x then s[1..] else [s[0]] + Less(s[1..], x)
  }

  /** uxListRemove: the item knows its list. */
  function Remove(r: Registry, x: nat): Registry
    requires x in r.at && r.at[x] < |r.lists|
  {
    var i := r.at[x];
    Registry(r.lists[i := Less(r.lists[i], x)], r.at - {x})
  }

  /** vListInsertEnd. */
  function Add(r: Registry, i: nat, x: nat): Registry
    requires i < |r.lists|
  {
    Registry(r.lists[i := r.lists[i] + [x]], r.at[x := i])
  }

  function Moved(r: Registry, i: nat, x: nat): Registry
    requires x in r.at && r.at[x] < |r.lists| && i < |r.lists|
  {
    Add(Remove(r, x), i, x)
  }

  lemma {:induction false} LessMembers(s: seq<nat>, x: nat)
    requires Distinct(s)
    ensures Distinct(Less(s, x))
    ensures forall y :: y in Less(s, x) <==> y in s && y != x
    ensures |Less(s, x)| == if x in s then |s| - 1 else |s|
  {
    if s == [] {
    } else if s[0] == x {
      assert forall y :: y in s[1..] ==> y in s;
      forall y | y in s && y != x ensures y in s[1..] {
        var i :| 0 <= i < |s| && s[i] == y;
        assert s[1..][i - 1] == y;
      }
    } else {
      LessMembers(s[1..], x);
      var rest := Less(s[1..], x);
      forall i | 0 <= i < |rest| ensures rest[i] != s[0] {
        assert rest[i] in rest;
      }
    }
  }

  lemma {:induction false} RemoveLinked(r: Registry, x: nat)
    requires Linked(r) && x in r.at
    ensures Linked(Remove(r, x)) && x !in Remove(r, x).at
  {
    var i := r.at[x];
    LessMembers(r.lists[i], x);
    hide Less;
    var r' := Remove(r, x);
    forall j | 0 <= j < |r'.lists| ensures Distinct(r'.lists[j]) {
      assert Distinct(r.lists[j]);
    }
    hide Distinct;
    forall j, y | 0 <= j < |r'.lists| && y in r'.lists[j] ensures y in r'.at && r'.at[y] == j {
      assert y in r.lists[j];
    }
  }

  lemma {:induction false} AddLinked(r: Registry, i: nat, x: nat)
    requires Linked(r) && x !in r.at && i < |r.lists|
    ensures Linked(Add(r, i, x))
  {
    var r' := Add(r, i, x);
    assert x !in r.lists[i];
    forall j | 0 <= j < |r'.lists| ensures Distinct(r'.lists[j]) {
      assert Distinct(r.lists[j]);
    }
    hide Distinct;
    forall j, y | 0 <= j < |r'.lists| && y in r'.lists[j] ensures y in r'.at && r'.at[y] == j {
      if y != x {
        assert y in r.lists[j];
      }
    }
    forall y | y in r'.at ensures r'.at[y] < |r'.lists| && y in r'.lists[r'.at[y]] {
      if y == x {
        assert r'.lists[i][|r.lists[i]|] == x;
      } else {
        assert y in r.lists[r.at[y]];
      }
    }
  }

  lemma {:induction false} TotalUpdate(lists: seq<seq<nat>>, i: nat, list: seq<nat>)
    requires i < |lists|
    ensures Total(lists[i := list]) == Total(lists) - |lists[i]| + |list|
  {
    if i == 0 {
      assert lists[0 := list][1..] == lists[1..];
    } else {
      TotalUpdate(lists[1..], i - 1, list);
      assert lists[i := list][1..] == lists[1..][i - 1 := list];
    }
  }

  /** What a removal does to each list and to the number of items. */
  lemma {:induction false} RemoveEffect(r: Registry, x: nat)
    requires Linked(r) && x in r.at
    ensures var r' := Remove(r, x);
            && Total(r'.lists) == Total(r.lists) - 1 && |r'.lists| == |r.lists|
            && (forall j :: 0 <= j < |r.lists| && j != r.at[x] ==> r'.lists[j] == r.lists[j])
            && |r'.lists[r.at[x]]| == |r.lists[r.at[x]]| - 1
            && (forall y :: y in r'.lists[r.at[x]] <==> y in r.lists[r.at[x]] && y != x)
  {
    var i := r.at[x];
    assert Distinct(r.lists[i]);
    hide Linked, Distinct;
    LessMembers(r.lists[i], x);
    TotalUpdate(r.lists, i, Less(r.lists[i], x));
  }

  lemma {:induction false} AddEffect(r: Registry, i: nat, x: nat)
    requires i < |r.lists|
    ensures var r' := Add(r, i, x);
            && Total(r'.lists) == Total(r.lists) + 1 && |r'.lists| == |r.lists|
            && (forall j :: 0 <= j < |r.lists| && j != i ==> r'.lists[j] == r.lists[j])
            && r'.lists[i] == r.lists[i] + [x]
  {
    TotalUpdate(r.lists, i, r.lists[i] + [x]);
  }

  /** A move keeps the items together, wherever from and wherever to. */
  lemma {:induction false} MovedEffect(r: Registry, i: nat, x: nat)
    requires Linked(r) && x in r.at && i < |r.lists|
    ensures var r' := Moved(r, i, x);
            && Linked(r') && r'.at == r.at[x := i]
            && Total(r'.lists) == Total(r.lists) && |r'.lists| == |r.lists|
            && r'.lists[i] != []
            && (forall j :: 0 <= j < |r.lists| && j != i && j != r.at[x] ==> r'.lists[j] == r.lists[j])
            && (i != r.at[x] ==> |r'.lists[i]| == |r.lists[i]| + 1 && |r'.lists[r.at[x]]| == |r.lists[r.at[x]]| - 1)
  {
    RemoveLinked(r, x);
    RemoveEffect(r, x);
    AddLinked(Remove(r, x), i, x);
    AddEffect(Remove(r, x), i, x);
    hide Linked, Remove;
    assert Remove(r, x).at == r.at - {x} by { RemoveAt(r, x); }
  }

  lemma {:induction false} LessAbsent(s: seq<nat>, x: nat)
    requires x !in s
    ensures Less(s, x) == s
  {
    if s != [] {
      LessAbsent(s[1..], x);
    }
  }

  /** A moved item is last in its new list, and in every list the others keep
      their order. */
  lemma {:induction false} MovedOrder(r: Registry, i: nat, x: nat, j: nat)
    requires Linked(r) && x in r.at && i < |r.lists| && j < |r.lists|
    ensures Moved(r, i, x).lists[j] == Less(r.lists[j], x) + if j == i then [x] else []
  {
    hide Less;
    if j != r.at[x] {
      LessAbsent(r.lists[j], x);
    }
  }

  lemma {:induction false} RemoveAt(r: Registry, x: nat)
    requires x in r.at && r.at[x] < |r.lists|
    ensures Remove(r, x).at == r.at - {x}
  {
  }
}
