/** Lists kept in ascending key order, as the users of vListInsert see them:
    delayed tasks by wake time, timers by expiry time, waiting tasks by
    reversed priority. */
module SortedLists {

  datatype Entry = Entry(item: nat, key: int)

  ghost predicate Sorted(s: seq<Entry>)
  {
    forall i, j :: 0 <= i < j < |s| ==> s[i].key <= s[j].key
  }

  /** Where an item with the given key goes: in front of the first larger key,
      hence behind all equal ones. */
  function Position(s: seq<Entry>, key: int): (p: nat)
    ensures p <= |s|
    ensures forall i :: 0 <= i < p ==> s[i].key <= key
    ensures p < |s| ==> s[p].key > key
  {
    PositionFrom(s, key, 0)
  }

  function PositionFrom(s: seq<Entry>, key: int, from: nat): (p: nat)
    requires from <= |s|
    ensures from <= p <= |s|
    ensures forall i :: from <= i < p ==> s[i].key <= key
    ensures p < |s| ==> s[p].key > key
    decreases |s| - from
  {
    if from == |s| || s[from].key > key then from else PositionFrom(s, key, from + 1)
  }

  function Insert(s: seq<Entry>, e: Entry): (r: seq<Entry>)
    ensures |r| == |s| + 1
    ensures Sorted(s) ==> Sorted(r)
  {
    var p := Position(s, e.key);
    s[..p] + [e] + s[p..]
  }

  /** The place of a key is unique in a sorted list. */
  lemma {:induction false} PositionIs(s: seq<Entry>, key: int, p: nat)
    requires p <= |s|
    requires forall i :: 0 <= i < p ==> s[i].key <= key
    requires p < |s| ==> s[p].key > key
    ensures Position(s, key) == p
  {
    PositionFromIs(s, key, 0, p);
  }

  lemma {:induction false} PositionFromIs(s: seq<Entry>, key: int, from: nat, p: nat)
    requires from <= p <= |s|
    requires forall i :: from <= i < p ==> s[i].key <= key
    requires p < |s| ==> s[p].key > key
    ensures PositionFrom(s, key, from) == p
    decreases p - from
  {
    if from == p {
    } else {
      PositionFromIs(s, key, from + 1, p);
    }
  }

  lemma {:induction false} PositionOfTail(s: seq<Entry>, key: int)
    requires s != [] && s[0].key <= key
    ensures Position(s, key) == 1 + Position(s[1..], key)
  {
    hide Sorted;
    var q := Position(s[1..], key);
    assert forall i :: 1 <= i < q + 1 ==> s[i] == s[1..][i - 1];
    PositionIs(s, key, q + 1);
  }

  /** The elements of a list after an insertion, by index. */
  lemma {:induction false} InsertElements(s: seq<Entry>, e: Entry)
    ensures var p := Position(s, e.key);
            && (forall i :: 0 <= i < p ==> Insert(s, e)[i] == s[i])
            && Insert(s, e)[p] == e
            && (forall i :: p < i <= |s| ==> Insert(s, e)[i] == s[i - 1])
  {
    hide Sorted;
  }

  lemma {:induction false} InsertBounds(s: seq<Entry>, e: Entry, low: int, high: int)
    requires low <= e.key < high
    requires forall i :: 0 <= i < |s| ==> low <= s[i].key < high
    ensures forall i :: 0 <= i <= |s| ==> low <= Insert(s, e)[i].key < high
    ensures Insert(s, e)[0] == e || (s != [] && Insert(s, e)[0] == s[0])
  {
    hide Sorted, Insert;
    InsertElements(s, e);
  }

  function Shift(s: seq<Entry>, offset: int): (r: seq<Entry>)
    ensures |r| == |s|
    ensures forall i :: 0 <= i < |s| ==> r[i] == Entry(s[i].item, s[i].key + offset)
    ensures Sorted(s) ==> Sorted(r)
  {
    seq(|s|, i requires 0 <= i < |s| => Entry(s[i].item, s[i].key + offset))
  }

  lemma {:induction false} ShiftInsert(s: seq<Entry>, e: Entry, offset: int)
    ensures Shift(Insert(s, e), offset)
            == Insert(Shift(s, offset), Entry(e.item, e.key + offset))
  {
    hide Sorted;
    var p := Position(s, e.key);
    var e' := Entry(e.item, e.key + offset);
    PositionIs(Shift(s, offset), e'.key, p);
    hide Position;
    var l, r := Shift(Insert(s, e), offset), Insert(Shift(s, offset), e');
    assert forall i :: 0 <= i < |l| ==> l[i] == r[i];
  }

  lemma {:induction false} ShiftConcat(a: seq<Entry>, b: seq<Entry>, offset: int)
    ensures Shift(a + b, offset) == Shift(a, offset) + Shift(b, offset)
  {
    hide Sorted;
  }

  lemma {:induction false} InsertLeft(a: seq<Entry>, b: seq<Entry>, e: Entry)
    requires forall i :: 0 <= i < |b| ==> b[i].key > e.key
    ensures Insert(a + b, e) == Insert(a, e) + b
  {
    var p := Position(a, e.key);
    PositionIs(a + b, e.key, p);
    assert (a + b)[..p] == a[..p];
    assert (a + b)[p..] == a[p..] + b;
  }

  lemma {:induction false} InsertRight(a: seq<Entry>, b: seq<Entry>, e: Entry)
    requires forall i :: 0 <= i < |a| ==> a[i].key <= e.key
    ensures Insert(a + b, e) == a + Insert(b, e)
  {
    var p := Position(b, e.key);
    PositionIs(a + b, e.key, |a| + p);
    assert (a + b)[..|a| + p] == a + b[..p];
    assert (a + b)[|a| + p..] == b[p..];
  }

  function Items(s: seq<Entry>): (r: seq<nat>)
    ensures |r| == |s|
    ensures forall i :: 0 <= i < |s| ==> r[i] == s[i].item
  {
    seq(|s|, i requires 0 <= i < |s| => s[i].item)
  }

  lemma {:induction false} ItemsConcat(a: seq<Entry>, b: seq<Entry>)
    ensures Items(a + b) == Items(a) + Items(b)
  {
  }

  // ---------------------------------------------------------------------
  // Cutting a list at a threshold
  // ---------------------------------------------------------------------

  /** The entries with keys up to the threshold, if the list is sorted. */
  function UpTo(s: seq<Entry>, threshold: int): seq<Entry>
  {
    s[..Position(s, threshold)]
  }

  function Beyond(s: seq<Entry>, threshold: int): seq<Entry>
  {
    s[Position(s, threshold)..]
  }

  lemma {:induction false} Cut(s: seq<Entry>, threshold: int)
    requires Sorted(s)
    ensures s == UpTo(s, threshold) + Beyond(s, threshold)
    ensures forall i :: 0 <= i < |UpTo(s, threshold)| ==> UpTo(s, threshold)[i].key <= threshold
    ensures forall i :: 0 <= i < |Beyond(s, threshold)| ==> Beyond(s, threshold)[i].key > threshold
    ensures Sorted(Beyond(s, threshold))
    ensures s == [] || s[0].key > threshold ==> UpTo(s, threshold) == [] && Beyond(s, threshold) == s
  {
    hide Position;
    var p := Position(s, threshold);
    var b := s[p..];
    forall i | 0 <= i < |b| ensures b[i].key > threshold {
      assert b[i] == s[p + i];
    }
    assert forall i :: 0 <= i < |b| ==> b[i] == s[p + i];
  }

  /** Cutting off what is due twice is cutting it off once, later. */
  lemma {:induction false} CutTwice(s: seq<Entry>, first: int, second: int)
    requires first <= second
    ensures Beyond(Beyond(s, first), second) == Beyond(s, second)
    ensures UpTo(s, first) + UpTo(Beyond(s, first), second) == UpTo(s, second)
  {
    var p := Position(s, first);
    var q := Position(s[p..], second);
    forall i | 0 <= i < p + q ensures s[i].key <= second {
      assert i >= p ==> s[p..][i - p] == s[i];
    }
    PositionIs(s, second, p + q);
  }

  /** The list without the entries of one item. */
  function Without(s: seq<Entry>, item: nat): (r: seq<Entry>)
    ensures |r| <= |s|
  {
    if s == [] then
      []
    else if s[0].item == item then
      Without(s[1..], item)
    else
      [s[0]] + Without(s[1..], item)
  }

  lemma {:induction false} WithoutKeeps(s: seq<Entry>, item: nat)
    ensures forall x :: x in Without(s, item) <==> x in s && x.item != item
    ensures Sorted(s) ==> Sorted(Without(s, item))
  {
    if s == [] {
    } else {
      WithoutKeeps(s[1..], item);
      assert forall x :: x in s <==> x == s[0] || x in s[1..];
      var rest := Without(s[1..], item);
      if Sorted(s) {
        forall i | 0 <= i < |rest|
          ensures s[0].key <= rest[i].key
        {
          assert rest[i] in s[1..];
        }
      }
    }
  }

  lemma {:induction false} WithoutFirst(s: seq<Entry>, item: nat)
    ensures Without([], item) == []
    ensures s != [] ==> Without(s, item) == (if s[0].item == item then [] else [s[0]]) + Without(s[1..], item)
  {
    if s != [] {
      assert [] + Without(s[1..], item) == Without(s[1..], item);
    }
  }

  lemma {:induction false} WithoutConcat(a: seq<Entry>, b: seq<Entry>, item: nat)
    ensures Without(a + b, item) == Without(a, item) + Without(b, item)
  {
    hide Without;
    WithoutFirst(a, item);
    if a == [] {
      assert a + b == b;
    } else {
      WithoutConcat(a[1..], b, item);
      WithoutFirst(a + b, item);
      assert (a + b)[1..] == a[1..] + b;
    }
  }

  lemma {:induction false} WithoutShift(s: seq<Entry>, item: nat, offset: int)
    ensures Without(Shift(s, offset), item) == Shift(Without(s, item), offset)
  {
    hide Sorted;
    if s == [] {
    } else {
      WithoutShift(s[1..], item, offset);
      assert Shift(s, offset)[1..] == Shift(s[1..], offset);
      ShiftConcat([s[0]], Without(s[1..], item), offset);
      assert Shift([s[0]], offset) == [Shift(s, offset)[0]];
      hide Shift;
    }
  }

  // ---------------------------------------------------------------------
  // One item's entries
  // ---------------------------------------------------------------------

  /** The entries of one item. */
  function EntriesOf(list: seq<Entry>, x: nat): seq<Entry>
  {
    if list == [] then [] else (if list[0].item == x then [list[0]] else []) + EntriesOf(list[1..], x)
  }

  lemma {:induction false} EntriesOfConcat(a: seq<Entry>, b: seq<Entry>, x: nat)
    ensures EntriesOf(a + b, x) == EntriesOf(a, x) + EntriesOf(b, x)
  {
    hide EntriesOf;
    if a == [] {
      EntriesOfNone(x);
      assert a + b == b;
    } else {
      EntriesOfConcat(a[1..], b, x);
      EntriesOfFirst(a, x);
      EntriesOfFirst(a + b, x);
      assert (a + b)[1..] == a[1..] + b;
    }
  }

  lemma {:induction false} EntriesOfNone(x: nat)
    ensures EntriesOf([], x) == []
  {
  }

  lemma {:induction false} EntriesOfFirst(list: seq<Entry>, x: nat)
    requires list != []
    ensures EntriesOf(list, x) == (if list[0].item == x then [list[0]] else []) + EntriesOf(list[1..], x)
  {
  }

  lemma {:induction false} EntriesOfOne(e: Entry, x: nat)
    ensures EntriesOf([e], x) == if e.item == x then [e] else []
  {
    assert [e][1..] == [];
  }

  lemma {:induction false} EntriesOfInsert(list: seq<Entry>, e: Entry, x: nat)
    ensures e.item != x ==> EntriesOf(Insert(list, e), x) == EntriesOf(list, x)
    ensures e.item == x && EntriesOf(list, x) == [] ==> EntriesOf(Insert(list, e), x) == [e]
  {
    hide Sorted, EntriesOf;
    var p := Position(list, e.key);
    var a, b := list[..p], list[p..];
    assert list == a + b && Insert(list, e) == a + [e] + b;
    hide Insert, Position;
    EntriesOfConcat(a, b, x);
    EntriesOfConcat(a + [e], b, x);
    EntriesOfConcat(a, [e], x);
    EntriesOfOne(e, x);
  }

  lemma {:induction false} EntriesOfWithout(list: seq<Entry>, y: nat, x: nat)
    ensures EntriesOf(Without(list, y), x) == if x == y then [] else EntriesOf(list, x)
  {
    if list == [] {
    } else {
      EntriesOfWithout(list[1..], y, x);
      if list[0].item != y {
        assert Without(list, y)[1..] == Without(list[1..], y);
      }
    }
  }

  /** The entries of an item are entries of the list. */
  lemma {:induction false} EntriesOfIsThere(list: seq<Entry>, x: nat, i: nat)
    requires i < |EntriesOf(list, x)|
    ensures exists k :: 0 <= k < |list| && list[k] == EntriesOf(list, x)[i]
  {
    if list[0].item == x && i == 0 {
    } else {
      var j := if list[0].item == x then i - 1 else i;
      EntriesOfIsThere(list[1..], x, j);
      var k :| 0 <= k < |list[1..]| && list[1..][k] == EntriesOf(list[1..], x)[j];
      assert list[k + 1] == EntriesOf(list, x)[i];
    }
  }
}
