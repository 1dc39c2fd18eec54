/** The registry of live storage servers and its round-robin placement (gfs/naming_server/server.py). */
module Registry {
  import opened Base

  const HEARTBEAT_TIMEOUT := 15.0

  // ---- live.sort() ----

  /** Order of Python strings: by code point, a proper prefix first. */
  predicate TextLeq(a: string, b: string) {
    a == [] || (b != [] && (a[0] < b[0] || (a[0] == b[0] && TextLeq(a[1..], b[1..]))))
  }

  predicate Leq(a: Address, b: Address) {
    TextLeq(a.text, b.text)
  }

  lemma {:induction false} TextOrder(a: string, b: string, c: string)
    ensures TextLeq(a, b) || TextLeq(b, a)
    ensures TextLeq(a, b) && TextLeq(b, a) ==> a == b
    ensures TextLeq(a, b) && TextLeq(b, c) ==> TextLeq(a, c)
    decreases |a|
  {
    if a != [] && b != [] {
      TextOrder(a[1..], b[1..], if c == [] then [] else c[1..]);
      assert a == [a[0]] + a[1..] && b == [b[0]] + b[1..];
    }
  }

  /** The first place where two texts differ decides; a text comes after its proper prefixes. */
  lemma {:induction false} TextLeqIs(a: string, b: string)
    ensures TextLeq(a, b) <==> a <= b || exists i ::
      (0 <= i < |a| && i < |b| && a[..i] == b[..i] && a[i] < b[i])
  {
    if a != [] && b != [] && a[0] == b[0] {
      TextLeqIs(a[1..], b[1..]);
      assert a <= b <==> a[1..] <= b[1..] by {
        assert a == [a[0]] + a[1..] && b == [b[0]] + b[1..];
      }
      if i :| 0 <= i < |a[1..]| && i < |b[1..]| && a[1..][..i] == b[1..][..i] && a[1..][i] < b[1..][i] {
        assert a[..i + 1] == [a[0]] + a[1..][..i] && b[..i + 1] == [b[0]] + b[1..][..i];
        assert a[i + 1] < b[i + 1];
      }
      if i :| 0 <= i < |a| && i < |b| && a[..i] == b[..i] && a[i] < b[i] {
        assert a[1..][..i - 1] == a[..i][1..] && b[1..][..i - 1] == b[..i][1..];
        assert a[1..][i - 1] < b[1..][i - 1];
      }
    } else if a != [] && b != [] && a[0] < b[0] {
      assert a[..0] == b[..0];
    }
  }

  ghost predicate Sorted(xs: seq<Address>) {
    forall i, j :: 0 <= i < j < |xs| ==> Leq(xs[i], xs[j])
  }

  function Insert(a: Address, xs: seq<Address>): (r: seq<Address>)
    ensures Elems(r) == {a} + Elems(xs) && |r| == |xs| + 1
  {
    if xs == [] || Leq(a, xs[0]) then [a] + xs
    else
      var rest := Insert(a, xs[1..]);
      assert Elems(xs) == {xs[0]} + Elems(xs[1..]);
      assert Elems([xs[0]] + rest) == {xs[0]} + Elems(rest);
      [xs[0]] + rest
  }

  function Sort(xs: seq<Address>): (r: seq<Address>)
    ensures Elems(r) == Elems(xs) && |r| == |xs|
  {
    if xs == [] then [] else
      assert Elems(xs) == {xs[0]} + Elems(xs[1..]);
      Insert(xs[0], Sort(xs[1..]))
  }

  lemma {:induction false} InsertSorted(a: Address, xs: seq<Address>)
    requires Sorted(xs)
    ensures Sorted(Insert(a, xs))
  {
    if xs == [] {
    } else if Leq(a, xs[0]) {
      forall i | 0 <= i < |xs| ensures Leq(a, xs[i]) {
        TextOrder(a.text, xs[0].text, xs[i].text);
      }
    } else {
      InsertSorted(a, xs[1..]);
      var r := Insert(a, xs[1..]);
      TextOrder(a.text, xs[0].text, "");
      forall i | 0 <= i < |r| ensures Leq(xs[0], r[i]) {
        assert r[i] in Elems(r);
      }
    }
  }

  lemma {:induction false} SortSorted(xs: seq<Address>)
    ensures Sorted(Sort(xs))
  {
    if xs != [] {
      SortSorted(xs[1..]);
      InsertSorted(xs[0], Sort(xs[1..]));
    }
  }

  lemma SortDistinct(xs: seq<Address>)
    ensures Distinct(Sort(xs)) <==> Distinct(xs)
  {
    DistinctIffElems(xs);
    DistinctIffElems(Sort(xs));
  }

  lemma SameLeast(xs: seq<Address>, ys: seq<Address>)
    requires xs != [] && ys != [] && Sorted(xs) && Sorted(ys) && Elems(xs) == Elems(ys)
    ensures xs[0] == ys[0]
  {
    assert xs[0] in Elems(ys) && ys[0] in Elems(xs);
    TextOrder(xs[0].text, ys[0].text, "");
    TextOrder(xs[0].text, xs[0].text, "");
  }

  lemma TailElems(xs: seq<Address>)
    requires xs != [] && Distinct(xs)
    ensures Elems(xs[1..]) == Elems(xs) - {xs[0]} && Distinct(xs[1..]) && xs == [xs[0]] + xs[1..]
  {}

  lemma {:induction false} SortedUnique(xs: seq<Address>, ys: seq<Address>)
    requires Sorted(xs) && Sorted(ys) && Distinct(xs) && Distinct(ys) && Elems(xs) == Elems(ys)
    ensures xs == ys
  {
    ElemsDistinct(xs);
    ElemsDistinct(ys);
    if xs != [] {
      SameLeast(xs, ys);
      TailElems(xs);
      TailElems(ys);
      SortedUnique(xs[1..], ys[1..]);
    }
  }

  /** The sorted list depends only on which servers are live, not on the order they registered in. */
  lemma SortOfSet(xs: seq<Address>, ys: seq<Address>)
    requires Distinct(xs) && Distinct(ys) && Elems(xs) == Elems(ys)
    ensures Sort(xs) == Sort(ys)
  {
    SortSorted(xs);
    SortSorted(ys);
    SortDistinct(xs);
    SortDistinct(ys);
    SortedUnique(Sort(xs), Sort(ys));
  }

  // ---- one pick ----

  /** The remainder for a positive divisor, by repeated subtraction (see ModIs). */
  function Mod(x: int, n: nat): (d: int)
    requires n > 0
    ensures 0 <= d < n
    decreases if x < 0 then n - x else x
  {
    if x < 0 then Mod(x + n, n) else if x < n then x else Mod(x - n, n)
  }

  /** The live list rotated to start at the cursor, cut to `count` servers. */
  function PickFrom(live: seq<Address>, cursor: nat, count: nat): seq<Address> {
    if live == [] then [] else
      var start := Mod(cursor, |live|);
      var ordered := live[start..] + live[..start];
      if count < |live| then ordered[..count] else ordered
  }

  lemma {:induction false} ModUnique(x: int, n: nat, q: int, d: nat)
    requires d < n && x == q * n + d
    ensures Mod(x, n) == d
    decreases if q < 0 then -q else q
  {
    MulSpan(q, n);
    if q > 0 {
      assert x - n == (q - 1) * n + d;
      ModUnique(x - n, n, q - 1, d);
    } else if q < 0 {
      assert x + n == (q + 1) * n + d;
      ModUnique(x + n, n, q + 1, d);
    }
  }

  lemma MulSpan(k: int, n: nat)
    ensures k >= 1 ==> k * n >= n
    ensures k <= -1 ==> k * n <= 0 - n
    ensures k == 0 ==> k * n == 0
  {
    if k >= 1 { assert (k - 1) * n >= 0; }
    if k <= -1 { assert (-k - 1) * n >= 0; }
  }

  lemma ModIs(x: int, n: nat)
    requires n > 0
    ensures Mod(x, n) == x % n
    ensures x == x / n * n + Mod(x, n)
  {
    ModUnique(x, n, x / n, x % n);
  }

  lemma ModShift(x: int, n: nat)
    requires n > 0
    ensures Mod(x + n, n) == Mod(x, n) && Mod(x - n, n) == Mod(x, n)
    ensures 0 <= x < n ==> Mod(x, n) == x
  {
    hide Mod;
    ModIs(x, n);
    var q, d := x / n, Mod(x, n);
    assert (q + 1) * n == q * n + n && (q - 1) * n == q * n - n;
    ModUnique(x + n, n, q + 1, d);
    ModUnique(x - n, n, q - 1, d);
    if 0 <= x < n { ModUnique(x, n, 0, x); }
  }

  /** Whether the server at place `p` of the sorted list is picked when the cursor is at `c`. */
  predicate Hit(p: int, c: int, n: nat, r: nat)
    requires n > 0
  {
    Mod(p - c, n) < r
  }

  /** Going back by `c` places or by its remainder is the same. */
  lemma HitCursor(p: int, c: int, n: nat)
    requires n > 0
    ensures Mod(p - c, n) == Mod(p - Mod(c, n), n)
  {
    hide Mod;
    var q, e := c / n, (p - Mod(c, n)) / n;
    var d := Mod(p - Mod(c, n), n);
    ModIs(c, n);
    ModIs(p - Mod(c, n), n);
    assert (e - q) * n == e * n - q * n;
    ModUnique(p - c, n, e - q, d);
  }

  /** A pick is min(count, N) distinct live servers, and these are the hit ones. */
  lemma PickIs(live: seq<Address>, cursor: nat, count: nat)
    requires Distinct(live)
    ensures var picked := PickFrom(live, cursor, count);
      && |picked| == (if count < |live| then count else |live|)
      && Distinct(picked) && Elems(picked) <= Elems(live)
      && forall p :: 0 <= p < |live| ==> (live[p] in picked <==> Hit(p, cursor, |live|, count))
  {
    hide Mod;
    if live != [] {
      RotatePrefix(live, Mod(cursor, |live|), count);
      forall p | 0 <= p < |live| ensures live[p] in PickFrom(live, cursor, count) <==> Hit(p, cursor, |live|, count) {
        HitCursor(p, cursor, |live|);
      }
    }
  }

  lemma ModPlus(x: nat, i: nat, n: nat)
    requires i < n
    ensures Mod(x + i, n) == if Mod(x, n) + i < n then Mod(x, n) + i else Mod(x, n) + i - n
  {
    hide Mod;
    var d := Mod(x, n) + i;
    var q := (x / n) * n;
    ModIs(x, n);
    assert x + i == q + d;
    if d < n {
      ModUnique(x + i, n, x / n, d);
    } else {
      assert (x / n + 1) * n == q + n;
      ModUnique(x + i, n, x / n + 1, d - n);
    }
  }

  /** In the order of the list from the cursor on, around its end. */
  lemma PickOrder(live: seq<Address>, cursor: nat, count: nat, i: nat)
    requires i < |PickFrom(live, cursor, count)|
    ensures live != [] && PickFrom(live, cursor, count)[i] == live[Mod(cursor + i, |live|)]
  {
    hide Mod;
    ModPlus(cursor, i, |live|);
    var s := Mod(cursor, |live|);
    assert PickFrom(live, cursor, count)[i] == (live[s..] + live[..s])[i];
  }

  lemma RotatePrefix(live: seq<Address>, s: nat, count: nat)
    requires Distinct(live) && s < |live|
    ensures var ordered := live[s..] + live[..s];
      var picked := if count < |live| then ordered[..count] else ordered;
      && |picked| == (if count < |live| then count else |live|)
      && Distinct(picked) && Elems(picked) <= Elems(live)
      && forall p :: 0 <= p < |live| ==> (live[p] in picked <==> Mod(p - s, |live|) < count)
  {
    hide Mod;
    var n := |live|;
    var ordered := live[s..] + live[..s];
    var picked := if count < n then ordered[..count] else ordered;
    assert forall j :: 0 <= j < |picked| ==> picked[j] == ordered[j];
    forall p | 0 <= p < n ensures live[p] in picked <==> Mod(p - s, n) < count {
      var d := if s <= p then p - s else p - s + n;
      ModShift(p - s, n);
      ModShift(d, n);
      assert ordered[d] == live[p];
      if d < |picked| { assert picked[d] == live[p]; }
    }
  }

  // ---- many picks over a fixed live set ----

  /** How many of `m` consecutive picks, starting at `cursor`, include the server. */
  function Load(live: seq<Address>, cursor: nat, count: nat, m: nat, a: Address): nat {
    if m == 0 then 0
    else Load(live, cursor, count, m - 1, a) + if a in PickFrom(live, cursor + m - 1, count) then 1 else 0
  }

  /** The same count by place, for `k` picks of the first turn around the list. */
  function TurnLoad(d: int, n: int, r: int, k: int): int {
    Max(0, (if d + 1 < k then d + 1 else k) - Max(0, d - r + 1)) + Max(0, k - (d + n - r + 1))
  }

  lemma TurnStep(d: nat, n: nat, r: nat, k: nat)
    requires d < n && 0 < r <= n && k < n
    ensures TurnLoad(d, n, r, k + 1) == TurnLoad(d, n, r, k) + if Mod(d - k, n) < r then 1 else 0
  {
    hide Mod;
    ModShift(d - k, n);
    ModShift(d - k + n, n);
  }

  lemma FirstTurn(live: seq<Address>, cursor: nat, r: nat, m: nat, p: nat)
    requires Distinct(live) && 0 < r <= |live| && m <= |live| && p < |live|
    ensures Load(live, cursor, r, m, live[p]) == TurnLoad(Mod(p - cursor, |live|), |live|, r, m)
    decreases m
  {
    hide Mod, PickFrom, TurnLoad;
    if m == 0 {
      NoTurn(Mod(p - cursor, |live|), |live|, r);
    } else {
      FirstTurn(live, cursor, r, m - 1, p);
      PickIs(live, cursor + m - 1, r);
      OffsetStep(p, cursor, |live|, m - 1);
      TurnStep(Mod(p - cursor, |live|), |live|, r, m - 1);
    }
  }

  lemma NoTurn(d: nat, n: nat, r: nat)
    requires d < n && r <= n
    ensures TurnLoad(d, n, r, 0) == 0
  {}

  lemma OffsetStep(p: int, c: int, n: nat, k: nat)
    requires n > 0
    ensures Mod(Mod(p - c, n) - k, n) == Mod(p - (c + k), n)
  {
    hide Mod;
    var x, q := p - c, (p - c) / n;
    var e, d := (Mod(x, n) - k) / n, Mod(Mod(x, n) - k, n);
    ModIs(x, n);
    ModIs(Mod(x, n) - k, n);
    assert (e + q) * n == e * n + q * n;
    ModUnique(p - (c + k), n, e + q, d);
  }

  lemma PickTurn(live: seq<Address>, cursor: nat, r: nat)
    requires live != []
    ensures PickFrom(live, cursor + |live|, r) == PickFrom(live, cursor, r)
  {
    hide Mod;
    ModShift(cursor, |live|);
  }

  lemma WholeTurn(d: nat, n: nat, r: nat)
    requires d < n && 0 < r <= n
    ensures TurnLoad(d, n, r, n) == r
  {}

  lemma {:induction false} TurnAgain(live: seq<Address>, cursor: nat, r: nat, m: nat, p: nat)
    requires Distinct(live) && 0 < r <= |live| && p < |live|
    ensures Load(live, cursor, r, |live| + m, live[p]) == r + Load(live, cursor, r, m, live[p])
    decreases m
  {
    hide Mod, PickFrom, TurnLoad;
    if m == 0 {
      FirstTurn(live, cursor, r, |live|, p);
      WholeTurn(Mod(p - cursor, |live|), |live|, r);
    } else {
      TurnAgain(live, cursor, r, m - 1, p);
      PickTurn(live, cursor + m - 1, r);
    }
  }

  /** Every N consecutive picks give each of the N live servers exactly R chunks. */
  lemma FullTurn(live: seq<Address>, cursor: nat, r: nat, a: Address)
    requires Distinct(live) && 0 < r <= |live| && a in live
    ensures Load(live, cursor, r, |live|, a) == r
  {
    hide Mod, PickFrom, TurnLoad, Load;
    var p :| 0 <= p < |live| && live[p] == a;
    FirstTurn(live, cursor, r, |live|, p);
    WholeTurn(Mod(p - cursor, |live|), |live|, r);
  }

  /** Within the first turn two servers differ by at most min(R, N-R). */
  lemma TurnGap(d: nat, e: nat, n: nat, r: nat, k: nat)
    requires d < n && e < n && 0 < r <= n && k <= n
    ensures TurnLoad(d, n, r, k) - TurnLoad(e, n, r, k) <= r
    ensures TurnLoad(d, n, r, k) - TurnLoad(e, n, r, k) <= n - r
  {}

  /** After any number of consecutive picks two servers differ by at most min(R, N-R) chunks. */
  lemma {:induction false} Balanced(live: seq<Address>, cursor: nat, r: nat, m: nat, a: Address, b: Address)
    requires Distinct(live) && 0 < r <= |live| && a in live && b in live
    ensures Load(live, cursor, r, m, a) - Load(live, cursor, r, m, b) <= r
    ensures Load(live, cursor, r, m, a) - Load(live, cursor, r, m, b) <= |live| - r
    decreases m
  {
    hide Mod, PickFrom, TurnLoad, Load;
    var p :| 0 <= p < |live| && live[p] == a;
    var q :| 0 <= q < |live| && live[q] == b;
    if m <= |live| {
      FirstTurn(live, cursor, r, m, p);
      FirstTurn(live, cursor, r, m, q);
      TurnGap(Mod(p - cursor, |live|), Mod(q - cursor, |live|), |live|, r, m);
    } else {
      Balanced(live, cursor, r, m - |live|, a, b);
      TurnAgain(live, cursor, r, m - |live|, p);
      TurnAgain(live, cursor, r, m - |live|, q);
    }
  }

  /** The bound is reached: with the cursor at rest on the first server, after as many picks as the
      bound says, some server is that far ahead of another. */
  lemma BalancedTight(live: seq<Address>, r: nat)
    requires Distinct(live) && 0 < r < |live|
    ensures exists m: nat, a, b ::
      (a in live && b in live
       && Load(live, 0, r, m, a) - Load(live, 0, r, m, b) == if r < |live| - r then r else |live| - r)
  {
    hide Mod, PickFrom, Load;
    var n := |live|;
    var m := if r < n - r then r else n - r;
    FirstTurn(live, 0, r, m, r - 1);
    FirstTurn(live, 0, r, m, n - 1);
    ModShift(r - 1, n);
    ModShift(n - 1, n);
  }

  // ---- the object ----

  /** Heard from within the timeout. */
  ghost function LiveAt(lastSeen: map<Address, real>, now: real): set<Address> {
    set a | a in lastSeen && now - lastSeen[a] <= HEARTBEAT_TIMEOUT
  }

  /** A RegisterStorage or Heartbeat call and the time it arrives. */
  datatype Beat = Beat(addr: Address, at: real)

  function Heard(lastSeen: map<Address, real>, beats: seq<Beat>): map<Address, real> {
    if beats == [] then lastSeen else
      var n := |beats| - 1;
      Heard(lastSeen, beats[..n])[beats[n].addr := beats[n].at]
  }

  /** A server that did not call is as before. */
  lemma {:induction false} HeardNot(lastSeen: map<Address, real>, beats: seq<Beat>, a: Address)
    requires forall i :: 0 <= i < |beats| ==> beats[i].addr != a
    ensures a in Heard(lastSeen, beats) <==> a in lastSeen
    ensures a in lastSeen ==> Heard(lastSeen, beats)[a] == lastSeen[a]
  {
    if beats != [] {
      HeardNot(lastSeen, beats[..|beats| - 1], a);
    }
  }

  /** Of the calls of one server the last counts. */
  lemma {:induction false} HeardLast(lastSeen: map<Address, real>, beats: seq<Beat>, i: nat)
    requires i < |beats| && forall j :: i < j < |beats| ==> beats[j].addr != beats[i].addr
    ensures beats[i].addr in Heard(lastSeen, beats) && Heard(lastSeen, beats)[beats[i].addr] == beats[i].at
  {
    var n := |beats| - 1;
    if i < n {
      HeardLast(lastSeen, beats[..n], i);
    }
  }

  class StorageRegistry {
    /** Last heartbeat per server, and the order in which the servers first appeared. */
    var lastSeen: map<Address, real>
    var order: seq<Address>
    var cursor: nat

    ghost predicate Valid()
      reads this
    {
      Distinct(order) && Elems(order) == lastSeen.Keys
    }

    ghost function LiveSet(now: real): set<Address>
      reads this
    {
      LiveAt(lastSeen, now)
    }

    constructor ()
      ensures Valid() && lastSeen == map[] && cursor == 0
    {
      lastSeen, order, cursor := map[], [], 0;
    }

    /** RegisterStorage and Heartbeat; a known server keeps its place in the order. */
    method MarkAlive(a: Address, now: real)
      requires Valid()
      modifies this
      ensures Valid() && cursor == old(cursor)
      ensures lastSeen == old(lastSeen)[a := now]
      ensures forall t :: now <= t <= now + 15.0 ==> LiveSet(t) == old(LiveSet(t)) + {a}
      ensures forall t :: t > now + 15.0 ==> LiveSet(t) == old(LiveSet(t)) - {a}
    {
      if a !in lastSeen {
        assert a !in Elems(order);
        assert Elems(order + [a]) == Elems(order) + {a};
        order := order + [a];
      }
      lastSeen := lastSeen[a := now];
    }

    /** What other handlers do to the registry in the meantime: some heartbeats and some picks. */
    method Interlude(beats: seq<Beat>, picks: nat)
      requires Valid()
      modifies this
      ensures Valid() && lastSeen == Heard(old(lastSeen), beats) && cursor == old(cursor) + picks
    {
      for i := 0 to |beats|
        invariant Valid() && lastSeen == Heard(old(lastSeen), beats[..i]) && cursor == old(cursor)
      {
        assert beats[..i + 1][..i] == beats[..i];
        MarkAlive(beats[i].addr, beats[i].at);
      }
      assert beats[..|beats|] == beats;
      cursor := cursor + picks;
    }

    method MarkDead(a: Address)
      requires Valid()
      modifies this
      ensures Valid() && cursor == old(cursor)
      ensures lastSeen == old(lastSeen) - {a}
      ensures forall t :: LiveSet(t) == old(LiveSet(t)) - {a}
    {
      order := Filter((x: Address) => x != a, order);
      lastSeen := lastSeen - {a};
      assert forall x :: x in order <==> x in Elems(order);
    }

    method LiveServers(now: real) returns (live: seq<Address>)
      requires Valid()
      ensures Distinct(live) && Elems(live) == LiveSet(now)
      ensures forall a :: a in live <==> a in lastSeen && now - lastSeen[a] <= 15.0
    {
      var seen := lastSeen;
      live := Filter((a: Address) => a in seen && now - seen[a] <= HEARTBEAT_TIMEOUT, order);
      assert forall x :: x in order <==> x in Elems(order);
    }

    /** Up to `count` distinct live servers. An empty live set leaves the cursor where it was. */
    method Pick(count: nat, now: real) returns (picked: seq<Address>, ghost live: seq<Address>)
      requires Valid()
      modifies this`cursor
      ensures Valid()
      ensures Distinct(live) && Sorted(live) && Elems(live) == LiveSet(now)
      ensures picked == PickFrom(live, old(cursor), count)
      ensures cursor == old(cursor) + if live == [] then 0 else 1
    {
      var unsorted := LiveServers(now);
      live := Sort(unsorted);
      SortSorted(unsorted);
      SortDistinct(unsorted);
      if unsorted == [] {
        return [], [];
      }
      var list := Sort(unsorted);
      var start := Mod(cursor, |list|);
      cursor := cursor + 1;
      var ordered := list[start..] + list[..start];
      picked := if count < |ordered| then ordered[..count] else ordered;
    }
  }
}
