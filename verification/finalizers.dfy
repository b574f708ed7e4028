/**
 * Finalizer list helpers. `ContainsString` and `RemoveString` are the
 * controller's own slice helpers; `AddFinalizer` is the add-if-absent step
 * both controllers perform (inline in the Instance controller, through
 * controllerutil in the key pair controller).
 */
module Finalizers {

  /** True exactly when `s` occurs in `xs`. */
  function ContainsString(xs: seq<string>, s: string): (b: bool)
    ensures b <==> s in xs
  {
    if xs == [] then false
    else if xs[0] == s then true
    else ContainsString(xs[1..], s)
  }

  /** `xs` with every occurrence of `s` dropped and the other entries kept in order. */
  function RemoveString(xs: seq<string>, s: string): (r: seq<string>)
    ensures multiset(r) == multiset(xs)[s := 0]
    ensures s !in r
  {
    if xs == [] then []
    else
      assert xs == [xs[0]] + xs[1..];
      (if xs[0] == s then [] else [xs[0]]) + RemoveString(xs[1..], s)
  }

  /** Adds `s` at the end of `xs` unless it is already there. */
  function AddFinalizer(xs: seq<string>, s: string): (r: seq<string>)
    ensures s in r
    ensures xs <= r && |r| <= |xs| + 1
    ensures multiset(r)[s] == if s in xs then multiset(xs)[s] else 1
    ensures forall x :: x != s ==> multiset(r)[x] == multiset(xs)[x]
  {
    if ContainsString(xs, s) then xs else xs + [s]
  }

  /** Removing is a homomorphism of concatenation: it acts on each entry independently, in order. */
  lemma {:induction false} RemoveStringDistributes(a: seq<string>, b: seq<string>, s: string)
    ensures RemoveString(a + b, s) == RemoveString(a, s) + RemoveString(b, s)
  {
    if a == [] {
      assert a + b == b;
    } else {
      var head := if a[0] == s then [] else [a[0]];
      var ra, rb := RemoveString(a[1..], s), RemoveString(b, s);
      assert (a + b)[0] == a[0] && (a + b)[1..] == a[1..] + b;
      RemoveStringDistributes(a[1..], b, s);
      calc {
        RemoveString(a + b, s);
        head + RemoveString(a[1..] + b, s);
        head + (ra + rb);
        { SeqAssoc(head, ra, rb); }
        (head + ra) + rb;
        RemoveString(a, s) + rb;
      }
    }
  }

  /** Concatenation is associative (stated once so the solver need not search for it). */
  lemma SeqAssoc(x: seq<string>, y: seq<string>, z: seq<string>)
    ensures x + (y + z) == (x + y) + z
  {
  }

  /** Removing a string that is not there leaves the list as it was. */
  lemma {:induction false} RemoveStringAbsent(xs: seq<string>, s: string)
    requires s !in xs
    ensures RemoveString(xs, s) == xs
  {
    if xs != [] {
      assert xs[0] != s;
      RemoveStringAbsent(xs[1..], s);
      assert xs == [xs[0]] + xs[1..];
    }
  }

  /** Removing twice is removing once. */
  lemma RemoveStringIdempotent(xs: seq<string>, s: string)
    ensures RemoveString(RemoveString(xs, s), s) == RemoveString(xs, s)
  {
    RemoveStringAbsent(RemoveString(xs, s), s);
  }

  /** Removing the finalizer undoes adding it: the list ends up as `xs` with `s` removed. */
  lemma AddThenRemove(xs: seq<string>, s: string)
    ensures RemoveString(AddFinalizer(xs, s), s) == RemoveString(xs, s)
  {
    if s !in xs {
      RemoveStringDistributes(xs, [s], s);
      assert RemoveString([s], s) == [];
    }
  }

  /** Adding the finalizer to a list holding it at most once leaves it there exactly once. */
  lemma AddFinalizerOnce(xs: seq<string>, s: string)
    requires multiset(xs)[s] <= 1
    ensures multiset(AddFinalizer(xs, s))[s] == 1
  {
  }
}
