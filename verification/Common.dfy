/** Definitions shared by every component: option and result types, machine-word
    bounds, and the flattening of nested loops into one sequence. */
module Common {

  const U16: nat := 0x1_0000
  const U32: nat := 0x1_0000_0000

  datatype Option<+T> = None | Some(value: T)

  datatype Result<+T, +E> = Ok(value: T) | Err(error: E)

  /** The sequence a `for` loop over `s` builds when each round appends `f(s[i])`. */
  function FlatMap<T, U>(s: seq<T>, f: T -> seq<U>): (r: seq<U>)
  {
    if s == [] then [] else f(s[0]) + FlatMap(s[1..], f)
  }

  function Map<T, U>(s: seq<T>, f: T -> U): (r: seq<U>)
    ensures |r| == |s|
    ensures forall i :: 0 <= i < |s| ==> r[i] == f(s[i])
  {
    seq(|s|, i requires 0 <= i < |s| => f(s[i]))
  }

  function Filter<T(!new)>(s: seq<T>, keep: T -> bool): (r: seq<T>)
    ensures forall x :: x in r <==> x in s && keep(x)
  {
    if s == [] then []
    else (if keep(s[0]) then [s[0]] else []) + Filter(s[1..], keep)
  }

  lemma {:induction false} FlatMapMember<T(!new), U>(s: seq<T>, f: T -> seq<U>, y: U)
    ensures y in FlatMap(s, f) <==> exists x :: x in s && y in f(x)
  {
    if s != [] {
      FlatMapMember(s[1..], f, y);
      assert s == [s[0]] + s[1..];
    }
  }

  lemma {:induction false} FlatMapAppend<T, U>(a: seq<T>, b: seq<T>, f: T -> seq<U>)
    ensures FlatMap(a + b, f) == FlatMap(a, f) + FlatMap(b, f)
  {
    if a == [] {
      assert a + b == b;
    } else {
      assert (a + b)[1..] == a[1..] + b;
      FlatMapAppend(a[1..], b, f);
    }
  }

  /** One round of the loop behind `FlatMap`. */
  lemma FlatMapStep<T, U>(s: seq<T>, i: nat, f: T -> seq<U>)
    requires i < |s|
    ensures FlatMap(s[..i + 1], f) == FlatMap(s[..i], f) + f(s[i])
  {
    assert s[..i + 1] == s[..i] + [s[i]];
    FlatMapAppend(s[..i], [s[i]], f);
  }

  lemma {:induction false} FilterAppend<T(!new)>(a: seq<T>, b: seq<T>, keep: T -> bool)
    ensures Filter(a + b, keep) == Filter(a, keep) + Filter(b, keep)
  {
    if a == [] {
      assert a + b == b;
    } else {
      assert (a + b)[1..] == a[1..] + b;
      FilterAppend(a[1..], b, keep);
    }
  }

  lemma FilterStep<T(!new)>(s: seq<T>, i: nat, keep: T -> bool)
    requires i < |s|
    ensures Filter(s[..i + 1], keep) == Filter(s[..i], keep) + (if keep(s[i]) then [s[i]] else [])
  {
    assert s[..i + 1] == s[..i] + [s[i]];
    FilterAppend(s[..i], [s[i]], keep);
  }

  lemma MapCons<T, U>(x: T, rest: seq<T>, f: T -> U)
    ensures Map([x] + rest, f) == [f(x)] + Map(rest, f)
  {}

  lemma MapMember<T(!new), U>(s: seq<T>, f: T -> U, y: U)
    ensures y in Map(s, f) <==> exists x :: x in s && y == f(x)
  {
    if x :| x in s && y == f(x) {
      var i :| 0 <= i < |s| && s[i] == x;
      assert Map(s, f)[i] == y;
    }
  }

  lemma {:induction false} FilterAll<T(!new)>(s: seq<T>, keep: T -> bool)
    requires forall x :: x in s ==> keep(x)
    ensures Filter(s, keep) == s
  {
    if s != [] {
      assert s == [s[0]] + s[1..];
      FilterAll(s[1..], keep);
    }
  }

  lemma FilterNone<T(!new)>(s: seq<T>, keep: T -> bool)
    requires forall x :: x in s ==> !keep(x)
    ensures Filter(s, keep) == []
  {
    if Filter(s, keep) != [] {
      assert Filter(s, keep)[0] in Filter(s, keep);
    }
  }

  lemma FlatMapNone<T, U>(f: T -> seq<U>)
    ensures FlatMap([], f) == []
  {}

  lemma FilterCons<T(!new)>(x: T, s: seq<T>, keep: T -> bool)
    ensures Filter([x] + s, keep) == (if keep(x) then [x] else []) + Filter(s, keep)
  {
    assert ([x] + s)[1..] == s;
  }

  lemma FlatMapOne<T, U>(x: T, f: T -> seq<U>)
    ensures FlatMap([x], f) == f(x)
  {
    assert FlatMap([x], f) == f(x) + FlatMap([x][1..], f);
  }

  /** When only the part of `s[i]` can pass the filter, only that part is kept. */
  lemma {:induction false} FilterPick<T(!new), U(!new)>(s: seq<T>, f: T -> seq<U>, keep: U -> bool, i: nat)
    requires i < |s|
    requires forall j, y :: 0 <= j < |s| && j != i && y in f(s[j]) ==> !keep(y)
    ensures Filter(FlatMap(s, f), keep) == Filter(f(s[i]), keep)
  {
    hide Filter;
    var head, tail := f(s[0]), s[1..];
    assert FlatMap(s, f) == head + FlatMap(tail, f);
    FilterAppend(head, FlatMap(tail, f), keep);
    if i == 0 {
      forall y | y in FlatMap(tail, f) ensures !keep(y) {
        FlatMapMember(tail, f, y);
        var x :| x in tail && y in f(x);
        var j :| 0 <= j < |tail| && tail[j] == x;
        assert s[j + 1] == x;
      }
      FilterNone(FlatMap(tail, f), keep);
    } else {
      FilterNone(head, keep);
      forall j, y | 0 <= j < |tail| && j != i - 1 && y in f(tail[j]) ensures !keep(y) {
        assert tail[j] == s[j + 1];
      }
      FilterPick(tail, f, keep, i - 1);
    }
  }

  ghost predicate PicksOne<T, U(!new)>(f: T -> seq<U>, keep: U -> bool, g: T -> U, x: T)
  {
    Filter(f(x), keep) == [g(x)]
  }

  /** When each part has exactly one element that passes, those elements are what is kept. */
  lemma {:induction false} FilterEach<T, U(!new)>(s: seq<T>, f: T -> seq<U>, keep: U -> bool, g: T -> U)
    requires forall i :: 0 <= i < |s| ==> PicksOne(f, keep, g, s[i])
    ensures Filter(FlatMap(s, f), keep) == Map(s, g)
  {
    if s == [] {
      assert Filter<U>([], keep) == [];
    } else {
      hide Filter;
      assert FlatMap(s, f) == f(s[0]) + FlatMap(s[1..], f);
      FilterAppend(f(s[0]), FlatMap(s[1..], f), keep);
      FilterEach(s[1..], f, keep, g);
      assert PicksOne(f, keep, g, s[0]);
      assert Map(s, g) == [g(s[0])] + Map(s[1..], g);
    }
  }
}
