/** JavaScript `Set`s as the server uses them: sequences without repeats,
    in insertion order, which is also the order a `for ... of` visits them. */
module OrderedSets {

  predicate Distinct<T(==)>(s: seq<T>) {
    forall i, j | 0 <= i < j < |s| :: s[i] != s[j]
  }

  /** `Set.add` on a set kept in insertion order. */
  function SetAdd<T(==)>(s: seq<T>, x: T): (r: seq<T>)
    ensures x in r && (forall i | 0 <= i < |s| :: s[i] in r)
    ensures forall i | 0 <= i < |r| :: r[i] in s || r[i] == x
    ensures Distinct(s) ==> Distinct(r)
    ensures |s| <= |r| && r[..|s|] == s
  {
    if x in s then s else s + [x]
  }

  /** `Set.delete` on a set kept in insertion order. */
  function SetDelete<T(==)>(s: seq<T>, x: T): (r: seq<T>)
    ensures x !in r
    ensures forall i | 0 <= i < |r| :: r[i] in s
    ensures forall i | 0 <= i < |s| && s[i] != x :: s[i] in r
    ensures Distinct(s) ==> Distinct(r)
    ensures |r| <= |s|
  {
    if s == [] then []
    else if s[0] == x then SetDelete(s[1..], x)
    else [s[0]] + SetDelete(s[1..], x)
  }

  /** `Set.delete` keeps the order of what remains: it drops each occurrence
      of `x` and nothing else, piece by piece. */
  lemma {:induction false} DeleteKeepsOrder<T>(s: seq<T>, t: seq<T>, x: T)
    ensures SetDelete(s + t, x) == SetDelete(s, x) + SetDelete(t, x)
  {
    if s == [] {
      assert s + t == t;
    } else {
      assert (s + t)[1..] == s[1..] + t;
      DeleteKeepsOrder(s[1..], t, x);
    }
  }

  /** On one element, `Set.delete` drops it exactly when it is `x`. */
  lemma DeleteOne<T>(y: T, x: T)
    ensures SetDelete([y], x) == if y == x then [] else [y]
  {
    assert [y][1..] == [];
  }

  /** Adding an element that is already present changes nothing. */
  lemma AddTwiceIsOnce<T>(s: seq<T>, x: T)
    ensures SetAdd(SetAdd(s, x), x) == SetAdd(s, x)
  {
  }

  /** Removing an element that was just added restores the set as it was. */
  lemma {:induction false} DeleteUndoesAdd<T>(s: seq<T>, x: T)
    requires x !in s
    ensures SetDelete(SetAdd(s, x), x) == s
  {
    assert SetAdd(s, x) == s + [x];
    DeleteAppended(s, x);
  }

  lemma {:induction false} DeleteAppended<T>(s: seq<T>, x: T)
    requires x !in s
    ensures SetDelete(s + [x], x) == s
  {
    if s == [] {
      assert SetDelete([x], x) == SetDelete([x][1..], x);
    } else {
      assert (s + [x])[1..] == s[1..] + [x];
      DeleteAppended(s[1..], x);
    }
  }

  /** Removing an element that is not present leaves the set as it is. */
  lemma {:induction false} DeleteAbsentIsNoOp<T>(s: seq<T>, x: T)
    requires x !in s
    ensures SetDelete(s, x) == s
  {
    if s != [] {
      DeleteAbsentIsNoOp(s[1..], x);
    }
  }

  /** `x` added to the insertion-ordered set `s`, for each `x` of `xs` in turn. */
  function AddAll<T(==)>(s: seq<T>, xs: seq<T>): (r: seq<T>)
    ensures Distinct(s) ==> Distinct(r)
    ensures forall i | 0 <= i < |s| :: s[i] in r
    ensures forall i | 0 <= i < |xs| :: xs[i] in r
    ensures forall i | 0 <= i < |r| :: r[i] in s || r[i] in xs
    decreases |xs|
  {
    if xs == [] then s else AddAll(SetAdd(s, xs[0]), xs[1..])
  }

  /** `xs` lists the elements of `s`, each once, in some order. */
  predicate Enumerates<T(==)>(xs: seq<T>, s: set<T>) {
    && Distinct(xs)
    && (forall i | 0 <= i < |xs| :: xs[i] in s)
    && (forall x | x in s :: x in xs)
  }
}
