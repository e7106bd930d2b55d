/** Optional values and Go's (value, error) returns. */
module Results {

  datatype Option<+T> = None | Some(value: T)

  datatype Result<+T, +E> = Ok(value: T) | Err(error: E)

  // ----- loops that append what each element contributes

  function Collect<A, B>(f: A -> seq<B>, xs: seq<A>): seq<B> {
    if |xs| == 0 then [] else Collect(f, xs[..|xs| - 1]) + f(xs[|xs| - 1])
  }

  lemma CollectNext<A, B>(f: A -> seq<B>, xs: seq<A>, x: A)
    ensures Collect(f, xs + [x]) == Collect(f, xs) + f(x)
  {
    assert (xs + [x])[..|xs|] == xs;
  }

  lemma {:induction false} CollectSplit<A, B>(f: A -> seq<B>, a: seq<A>, b: seq<A>)
    ensures Collect(f, a + b) == Collect(f, a) + Collect(f, b)
    decreases |b|
  {
    if |b| == 0 {
      assert a + b == a;
    } else {
      CollectSplit(f, a, b[..|b| - 1]);
      assert (a + b)[..|a + b| - 1] == a + b[..|b| - 1];
    }
  }

  lemma CollectOne<A, B>(f: A -> seq<B>, x: A)
    ensures Collect(f, [x]) == f(x)
  {
    var none: seq<B> := Collect(f, []);
    assert none == [] && [x][..0] == [];
    assert none + f(x) == f(x);
  }

  lemma CollectFrom<A, B>(f: A -> seq<B>, xs: seq<A>, i: nat)
    requires i < |xs|
    ensures Collect(f, xs[i..]) == f(xs[i]) + Collect(f, xs[i + 1..])
  {
    var x, rest := xs[i], xs[i + 1..];
    CollectSplit(f, [x], rest);
    CollectOne(f, x);
    assert xs[i..] == [x] + rest;
  }

  lemma CollectTo<A, B>(f: A -> seq<B>, xs: seq<A>, i: nat)
    requires i < |xs|
    ensures Collect(f, xs[..i + 1]) == Collect(f, xs[..i]) + f(xs[i])
  {
    var x, before := xs[i], xs[..i];
    CollectNext(f, before, x);
    assert xs[..i + 1] == before + [x];
  }

  lemma CollectSome<A, B>(f: A -> seq<B>, xs: seq<A>, i: nat)
    requires i < |xs| && f(xs[i]) != []
    ensures Collect(f, xs) != []
  {
    var y := f(xs[i])[0];
    CollectMember(f, xs, y);
    assert xs[i] in xs;
  }

  lemma {:induction false} CollectNothing<A, B>(f: A -> seq<B>, xs: seq<A>)
    requires forall x | x in xs :: f(x) == []
    ensures Collect(f, xs) == []
  {
    if |xs| != 0 { CollectNothing(f, xs[..|xs| - 1]); }
  }

  lemma {:induction false} CollectSingles<A, B>(f: A -> seq<B>, xs: seq<A>, ys: seq<B>)
    requires |xs| == |ys| && forall i | 0 <= i < |xs| :: f(xs[i]) == [ys[i]]
    ensures Collect(f, xs) == ys
  {
    if |xs| != 0 {
      CollectSingles(f, xs[..|xs| - 1], ys[..|ys| - 1]);
      assert ys == ys[..|ys| - 1] + [ys[|ys| - 1]];
    }
  }

  lemma {:induction false} CollectMember<A, B>(f: A -> seq<B>, xs: seq<A>, y: B)
    ensures y in Collect(f, xs) <==> exists x | x in xs :: y in f(x)
  {
    if |xs| != 0 {
      var before, last := xs[..|xs| - 1], xs[|xs| - 1];
      CollectMember(f, before, y);
      assert xs == before + [last];
    }
  }
}
