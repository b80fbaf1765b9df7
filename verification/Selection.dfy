/** What is left of a list when some of its elements are taken out: the others, each once, in their order. */
module Selection {

  /** `at` says where in `src` each element of `out` comes from. */
  ghost predicate Picked<T>(src: seq<T>, out: seq<T>, at: seq<nat>) {
    && |at| == |out|
    && (forall i :: 0 <= i < |at| ==> at[i] < |src| && out[i] == src[at[i]])
    && (forall i, j :: 0 <= i < j < |at| ==> at[i] < at[j])
  }

  ghost predicate Chosen<T>(src: seq<T>, at: seq<nat>, p: T -> bool) {
    forall k :: 0 <= k < |src| ==> (k in at <==> p(src[k]))
  }

  /** `out` is exactly the elements of `src` that meet the condition, in the order of `src`. */
  ghost predicate Selects<T>(src: seq<T>, out: seq<T>, p: T -> bool) {
    exists at: seq<nat> :: Picked(src, out, at) && Chosen(src, at, p)
  }

  lemma SelectsNone<T>(p: T -> bool)
    ensures Selects([], [], p)
  {
    assert Picked<T>([], [], []) && Chosen([], [], p);
  }

  lemma SelectsMore<T>(src: seq<T>, out: seq<T>, p: T -> bool, x: T)
    requires Selects(src, out, p)
    ensures Selects(src + [x], if p(x) then out + [x] else out, p)
  {
    hide Picked, Chosen;
    var at: seq<nat> :| Picked(src, out, at) && Chosen(src, at, p);
    ChosenMore(src, out, at, p, x);
    PickedMore(src, out, at, x);
  }

  lemma PickedMore<T>(src: seq<T>, out: seq<T>, at: seq<nat>, x: T)
    requires Picked(src, out, at)
    ensures Picked(src + [x], out, at) && Picked(src + [x], out + [x], at + [|src|])
  {
  }

  lemma ChosenMore<T>(src: seq<T>, out: seq<T>, at: seq<nat>, p: T -> bool, x: T)
    requires Picked(src, out, at) && Chosen(src, at, p)
    ensures Chosen(src + [x], if p(x) then at + [|src|] else at, p)
  {
    var src', at' := src + [x], if p(x) then at + [|src|] else at;
    forall k | 0 <= k < |src'| ensures k in at' <==> p(src'[k]) {
      if k < |src| { assert src'[k] == src[k]; } else { assert |src| !in at; }
    }
  }

  /** There is only one such list. */
  lemma {:induction false} SelectsOne<T>(src: seq<T>, out: seq<T>, out': seq<T>, p: T -> bool)
    requires Selects(src, out, p) && Selects(src, out', p)
    ensures out == out'
  {
    hide Chosen;
    var at: seq<nat> :| Picked(src, out, at) && Chosen(src, at, p);
    var at': seq<nat> :| Picked(src, out', at') && Chosen(src, at', p);
    SameAt(src, out, at, out', at', p, |at|);
    SameAt(src, out', at', out, at, p, |at'|);
  }

  lemma {:induction false} SameAt<T>(src: seq<T>, out: seq<T>, at: seq<nat>, out': seq<T>, at': seq<nat>, p: T -> bool, n: nat)
    requires Picked(src, out, at) && Chosen(src, at, p) && Picked(src, out', at') && Chosen(src, at', p) && n <= |at|
    ensures n <= |at'| && at[..n] == at'[..n]
    decreases n
  {
    if n > 0 {
      var m: nat := n - 1;
      SameAt(src, out, at, out', at', p, m);
      forall k | 0 <= k < m ensures at[k] == at'[k] { assert at[..m][k] == at'[..m][k]; }
      assert at[m] in at && at[m] in at';
      var j :| 0 <= j < |at'| && at'[j] == at[m];
      assert j >= m;
      assert at'[m] in at' && at'[m] in at;
      var i :| 0 <= i < |at| && at[i] == at'[m];
      assert i >= m;
      assert at[m] <= at[i] == at'[m] <= at'[j];
    }
  }

  /** Nothing else is in it, and nothing is missing. */
  lemma SelectsExactly<T>(src: seq<T>, out: seq<T>, p: T -> bool)
    requires Selects(src, out, p)
    ensures forall i :: 0 <= i < |out| ==> out[i] in src && p(out[i])
    ensures forall k :: 0 <= k < |src| && p(src[k]) ==> src[k] in out
  {
    var at: seq<nat> :| Picked(src, out, at) && Chosen(src, at, p);
    forall i | 0 <= i < |out| ensures out[i] in src && p(out[i]) { assert at[i] in at && out[i] == src[at[i]]; }
    forall k | 0 <= k < |src| && p(src[k]) ensures src[k] in out {
      assert k in at;
      var i :| 0 <= i < |at| && at[i] == k;
      assert out[i] == src[k];
    }
  }
}
