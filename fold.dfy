/** The fold with error collection that every layer of the pipeline uses:
    walk the items in order, keep what succeeded, log and skip what failed,
    and never let one failure stop the walk. */
module Fold {
  import opened Wrappers

  /** The values of the successful outcomes, in their original order. Defined
      from the back, as a loop that appends on success builds it. */
  function Successes<T>(rs: seq<Result<T>>): seq<T>
  {
    if |rs| == 0 then []
    else Successes(rs[..|rs| - 1]) + (if rs[|rs| - 1].Ok? then [rs[|rs| - 1].value] else [])
  }

  /** How many outcomes failed (the number of logged-and-skipped items). */
  function FailureCount<T>(rs: seq<Result<T>>): nat
  {
    if |rs| == 0 then 0
    else FailureCount(rs[..|rs| - 1]) + (if rs[|rs| - 1].Err? then 1 else 0)
  }

  /** Positions of the successful outcomes, ascending. */
  function OkIndices<T>(rs: seq<Result<T>>): seq<nat>
  {
    if |rs| == 0 then []
    else OkIndices(rs[..|rs| - 1]) + (if rs[|rs| - 1].Ok? then [|rs| - 1] else [])
  }

  /** With N items of which K fail, exactly N - K values are kept. */
  lemma {:induction false} SuccessCount<T>(rs: seq<Result<T>>)
    ensures |Successes(rs)| + FailureCount(rs) == |rs|
  {
    if |rs| > 0 {
      SuccessCount(rs[..|rs| - 1]);
    }
  }

  /** Folding two runs one after the other is folding each and concatenating. */
  lemma {:induction false} SuccessesAppend<T>(a: seq<Result<T>>, b: seq<Result<T>>)
    ensures Successes(a + b) == Successes(a) + Successes(b)
    decreases |b|
  {
    if |b| > 0 {
      assert (a + b)[..|a + b| - 1] == a + b[..|b| - 1];
      SuccessesAppend(a, b[..|b| - 1]);
    } else {
      assert a + b == a;
    }
  }

  /** A run in which everything failed keeps nothing. */
  lemma {:induction false} SuccessesAllFailed<T>(rs: seq<Result<T>>)
    requires forall i :: 0 <= i < |rs| ==> rs[i].Err?
    ensures Successes(rs) == []
  {
    if |rs| > 0 {
      SuccessesAllFailed(rs[..|rs| - 1]);
    }
  }

  /** The kept values are exactly the successful outcomes, in order: the k-th
      kept value is the value of the k-th successful outcome, the positions
      strictly increase, and no successful outcome is missed. */
  lemma {:induction false} OkIndicesSpec<T>(rs: seq<Result<T>>)
    ensures |OkIndices(rs)| == |Successes(rs)|
    ensures forall k :: 0 <= k < |OkIndices(rs)| ==>
      OkIndices(rs)[k] < |rs| && rs[OkIndices(rs)[k]] == Ok(Successes(rs)[k])
    ensures forall j, k :: 0 <= j < k < |OkIndices(rs)| ==> OkIndices(rs)[j] < OkIndices(rs)[k]
    ensures forall i :: 0 <= i < |rs| && rs[i].Ok? ==> i in OkIndices(rs)
  {
    if |rs| > 0 {
      var init := rs[..|rs| - 1];
      OkIndicesSpec(init);
      assert forall i :: 0 <= i < |init| ==> rs[i] == init[i];
    }
  }

  /** A value is kept iff some outcome succeeded with it. */
  lemma SuccessesMembership<T>(rs: seq<Result<T>>, v: T)
    ensures v in Successes(rs) <==> exists i :: 0 <= i < |rs| && rs[i] == Ok(v)
  {
    OkIndicesSpec(rs);
    var idx := OkIndices(rs);
    if v in Successes(rs) {
      var k :| 0 <= k < |Successes(rs)| && Successes(rs)[k] == v;
      assert rs[idx[k]] == Ok(v);
    }
    if exists i :: 0 <= i < |rs| && rs[i] == Ok(v) {
      var i :| 0 <= i < |rs| && rs[i] == Ok(v);
      assert i in idx;
      var k :| 0 <= k < |idx| && idx[k] == i;
      assert Successes(rs)[k] == v;
    }
  }

  /** The present values of a sequence of optional values, in order: the fold
      of a loop that appends what an extractor returned unless it was `None`. */
  function Somes<T>(os: seq<Option<T>>): seq<T>
  {
    if |os| == 0 then []
    else Somes(os[..|os| - 1]) + (if os[|os| - 1].Some? then [os[|os| - 1].value] else [])
  }

  lemma {:induction false} SomesAppend<T>(a: seq<Option<T>>, b: seq<Option<T>>)
    ensures Somes(a + b) == Somes(a) + Somes(b)
    decreases |b|
  {
    if |b| > 0 {
      assert (a + b)[..|a + b| - 1] == a + b[..|b| - 1];
      SomesAppend(a, b[..|b| - 1]);
    } else {
      assert a + b == a;
    }
  }

  /** A value is kept iff some entry holds it, and no more values are kept
      than there are entries. */
  lemma {:induction false} SomesMembership<T>(os: seq<Option<T>>, v: T)
    ensures v in Somes(os) <==> exists i :: 0 <= i < |os| && os[i] == Some(v)
    ensures |Somes(os)| <= |os|
  {
    if |os| > 0 {
      var init := os[..|os| - 1];
      SomesMembership(init, v);
      assert forall i :: 0 <= i < |init| ==> os[i] == init[i];
    }
  }
}
