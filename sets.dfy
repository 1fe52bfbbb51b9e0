/** A JavaScript `Set` as this program uses it: a duplicate-free sequence whose
    order is insertion order (the order `for ... of` visits the members in). */
module Sets {

  /** No element occurs twice. */
  predicate NoDup<T(==,!new)>(s: seq<T>) {
    forall i, j | 0 <= i < j < |s| :: s[i] != s[j]
  }

  /** `set.add(x)`: a member already present keeps its place, a new one goes last. */
  function Add<T(==,!new)>(s: seq<T>, x: T): (r: seq<T>)
    ensures forall y :: y in r <==> y in s || y == x
    ensures |r| == if x in s then |s| else |s| + 1
    ensures r[..|s|] == s
    ensures NoDup(s) ==> NoDup(r)
  {
    if x in s then s else s + [x]
  }

  /** `set.delete(x)`: removes `x` and keeps the others in order; a non-member is a no-op. */
  function Delete<T(==,!new)>(s: seq<T>, x: T): (r: seq<T>)
    ensures forall y :: y in r <==> y in s && y != x
    ensures x !in s ==> r == s
    ensures |r| <= |s|
    ensures NoDup(s) ==> NoDup(r)
    ensures NoDup(s) && x in s ==> |r| == |s| - 1
    decreases |s|
  {
    if s == [] then []
    else if s[0] == x then Delete(s[1..], x)
    else
      var rest := Delete(s[1..], x);
      assert NoDup(s) ==> s[0] !in s[1..] && NoDup(s[1..]);
      [s[0]] + rest
  }

  /** On a duplicate-free set, `delete` takes out exactly the one slot holding `x` and
      leaves the other members in their insertion order. */
  lemma {:induction false} DeleteKeepsOrder<T(!new)>(s: seq<T>, x: T, k: nat)
    requires NoDup(s) && k < |s| && s[k] == x
    ensures Delete(s, x) == s[..k] + s[k + 1..]
    decreases |s|
  {
    if k == 0 {
      assert x !in s[1..];
    } else {
      assert s[0] != x;
      assert NoDup(s[1..]);
      DeleteKeepsOrder(s[1..], x, k - 1);
      assert s[1..][..k - 1] == s[1..k];
      assert s[1..][k..] == s[k + 1..];
      assert s[..k] == [s[0]] + s[1..k];
    }
  }
}
