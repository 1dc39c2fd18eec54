/** Names, bytes and small facts about sequences and finite sets shared by every module. */
module Base {
  newtype Byte = b: int | 0 <= b < 256
  type Bytes = seq<Byte>
  datatype Address = Address(text: string)
  datatype Filename = Filename(text: string)
  datatype ChunkId = ChunkId(hex: string)

  datatype Option<+T> = None | Some(value: T)

  function Max(a: int, b: int): int {
    if a < b then b else a
  }

  ghost predicate Distinct<T(!new)>(xs: seq<T>) {
    forall i, j :: 0 <= i < j < |xs| ==> xs[i] != xs[j]
  }

  function Elems<T>(xs: seq<T>): set<T> {
    set x | x in xs
  }

  function Concat<T>(xss: seq<seq<T>>): (r: seq<T>) {
    if xss == [] then [] else xss[0] + Concat(xss[1..])
  }

  function Filter<T(!new)>(p: T -> bool, xs: seq<T>): (ys: seq<T>)
    ensures forall x :: x in ys <==> x in xs && p(x)
    ensures |ys| <= |xs|
    ensures Distinct(xs) ==> Distinct(ys)
  {
    if xs == [] then []
    else if p(xs[0]) then [xs[0]] + Filter(p, xs[1..])
    else Filter(p, xs[1..])
  }

  lemma {:induction false} FilterTwice<T(!new)>(p: T -> bool, q: T -> bool, xs: seq<T>)
    ensures (forall x :: p(x) ==> q(x)) ==> Filter(p, Filter(q, xs)) == Filter(p, xs)
    ensures (forall x :: p(x) ==> !q(x)) ==> Filter(p, Filter(q, xs)) == []
  {
    if xs != [] { FilterTwice(p, q, xs[1..]); }
  }

  lemma {:induction false} ElemsDistinct<T(!new)>(xs: seq<T>)
    requires Distinct(xs)
    ensures |Elems(xs)| == |xs|
  {
    if xs == [] {
    } else {
      ElemsDistinct(xs[1..]);
      assert Elems(xs) == {xs[0]} + Elems(xs[1..]);
    }
  }

  lemma {:induction false} ElemsBound<T>(xs: seq<T>)
    ensures |Elems(xs)| <= |xs|
  {
    if xs == [] {
    } else {
      ElemsBound(xs[1..]);
      assert Elems(xs) == {xs[0]} + Elems(xs[1..]);
    }
  }

  /** A list without repetitions is exactly one whose element set is as large as the list. */
  lemma DistinctIffElems<T(!new)>(xs: seq<T>)
    ensures Distinct(xs) <==> |Elems(xs)| == |xs|
  {
    if Distinct(xs) {
      ElemsDistinct(xs);
    } else {
      var i, j :| 0 <= i < j < |xs| && xs[i] == xs[j];
      var ys := xs[..j] + xs[j + 1..];
      ElemsBound(ys);
      assert Elems(xs) == Elems(ys) by {
        forall x | x in xs ensures x in ys {
          var k :| 0 <= k < |xs| && xs[k] == x;
          if k < j { assert ys[k] == x; }
          else if k == j { assert ys[i] == x; }
          else { assert ys[k - 1] == x; }
        }
      }
    }
  }

  /** Every finite set can be listed, each element once. */
  lemma {:induction false} Listing<T(!new)>(s: set<T>) returns (xs: seq<T>)
    ensures Distinct(xs) && Elems(xs) == s
  {
    if s == {} {
      xs := [];
    } else {
      var x :| x in s;
      var rest := Listing(s - {x});
      xs := [x] + rest;
      assert x !in Elems(rest);
      assert Elems(xs) == {x} + Elems(rest);
    }
  }

  lemma {:induction false} SubsetSize<T>(a: set<T>, b: set<T>)
    requires a <= b
    ensures |a| <= |b|
  {
    if a != {} {
      var x :| x in a;
      SubsetSize(a - {x}, b - {x});
    }
  }

  lemma SubsetSameSize<T>(a: set<T>, b: set<T>)
    requires a <= b && |a| == |b|
    ensures a == b
  {
    if a != b {
      var x :| x in b && x !in a;
      SubsetSize(a, b - {x});
    }
  }

  lemma ConcatAppend<T>(xss: seq<seq<T>>, yss: seq<seq<T>>)
    ensures Concat(xss + yss) == Concat(xss) + Concat(yss)
  {
    if xss == [] {
      assert xss + yss == yss;
    } else {
      assert (xss + yss)[1..] == xss[1..] + yss;
      ConcatAppend(xss[1..], yss);
    }
  }
}
