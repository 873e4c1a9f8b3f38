/**
 * Specifications of the two per-call checks: comparing the observed
 * parameters with the expected ones (`verifyParams`) and writing declared
 * outputs into the caller's pointers (`setOutputParams`).  The methods that
 * implement them in `FakeDB` are proved against these functions.
 */
module Checks {
  import opened Wrappers
  import opened Values
  import opened Errors

  function Min(a: nat, b: nat): nat
  {
    if a <= b then a else b
  }

  /** The observed and expected arguments at position `k` are not deeply equal. */
  predicate DiffersAt(want: seq<Param>, got: seq<Param>, k: nat)
    requires |want| == |got| && k < |got|
    reads Cells(want), Cells(got)
  {
    assert got[k].Footprint() <= Cells(got) && want[k].Footprint() <= Cells(want);
    !DeepEqual(got[k], want[k])
  }

  /** Position `k` is the first one where the observed and expected arguments differ. */
  predicate FirstMismatchAt(want: seq<Param>, got: seq<Param>, k: nat)
    requires |want| == |got|
    reads Cells(want), Cells(got)
  {
    && k < |got|
    && (assert got[k].Footprint() <= Cells(got) && want[k].Footprint() <= Cells(want);
        !DeepEqual(got[k], want[k]))
    && forall j {:trigger got[j]} :: 0 <= j < k ==>
         (assert got[j].Footprint() <= Cells(got) && want[j].Footprint() <= Cells(want);
          DeepEqual(got[j], want[j]))
  }

  /** The error for the first differing position at or after `i`, if any. */
  function MismatchFrom(fn: string, want: seq<Param>, got: seq<Param>, i: nat): (r: Option<TestError>)
    requires |want| == |got| && i <= |got|
    // the footprint is Cells(want) + Cells(got), written out so that the
    // frame of this recursive function is usable after unrelated updates
    reads set j | 0 <= j < |want| && want[j].Ptr? :: want[j].target
    reads set j | 0 <= j < |got| && got[j].Ptr? :: got[j].target
    ensures r.Some? ==> exists k :: i <= k < |got| && DiffersAt(want, got, k) &&
                                    r == Some(UnexpectedParameter(got[k], fn, want[k]))
    decreases |got| - i
  {
    if i == |got| then None
    else if (assert got[i].Footprint() <= Cells(got) && want[i].Footprint() <= Cells(want);
             !DeepEqual(got[i], want[i]))
    then Some(UnexpectedParameter(got[i], fn, want[i]))
    else MismatchFrom(fn, want, got, i + 1)
  }

  /**
   * What `verifyParams` returns for a call to `fn` with arguments `got`
   * against the expected arguments `want`.
   */
  function ParamsVerdict(fn: string, want: seq<Param>, got: seq<Param>): (r: Option<TestError>)
    reads Cells(want), Cells(got)
    ensures r == None <==>
              |want| == 0 || (|want| == |got| && forall j :: 0 <= j < |got| ==> !DiffersAt(want, got, j))
  {
    if |want| == 0 then None
    else if |want| > |got| then Some(NotEnoughParameters)
    else if |want| < |got| then Some(TooManyParameters)
    else
      MismatchFromCharacterized(fn, want, got, 0);
      MismatchFrom(fn, want, got, 0)
  }

  lemma {:induction false} MismatchFromCharacterized(fn: string, want: seq<Param>, got: seq<Param>, i: nat)
    requires |want| == |got| && i <= |got|
    requires forall j {:trigger got[j]} :: 0 <= j < i ==> DeepEqual(got[j], want[j])
    ensures MismatchFrom(fn, want, got, i) == None <==>
              forall j {:trigger got[j]} :: 0 <= j < |got| ==> DeepEqual(got[j], want[j])
    ensures forall k: nat :: i <= k && FirstMismatchAt(want, got, k) ==>
              MismatchFrom(fn, want, got, i) == Some(UnexpectedParameter(got[k], fn, want[k]))
    decreases |got| - i
  {
    if i < |got| && DeepEqual(got[i], want[i]) {
      MismatchFromCharacterized(fn, want, got, i + 1);
    }
  }

  /**
   * `verifyParams`: an empty expected list accepts anything; otherwise the
   * counts must agree, and when they do the verdict is the error for the
   * first differing position, and no error exactly when all positions agree.
   */
  lemma ParamsVerdictCharacterized(fn: string, want: seq<Param>, got: seq<Param>)
    ensures |want| == 0 ==> ParamsVerdict(fn, want, got) == None
    ensures |want| > |got| ==> ParamsVerdict(fn, want, got) == Some(NotEnoughParameters)
    ensures 0 < |want| < |got| ==> ParamsVerdict(fn, want, got) == Some(TooManyParameters)
    ensures 0 < |want| == |got| ==>
              (ParamsVerdict(fn, want, got) == None <==>
                 forall j {:trigger got[j]} :: 0 <= j < |got| ==> DeepEqual(got[j], want[j]))
    ensures 0 < |want| == |got| ==>
              forall k: nat :: FirstMismatchAt(want, got, k) ==>
                ParamsVerdict(fn, want, got) == Some(UnexpectedParameter(got[k], fn, want[k]))
  {
    if 0 < |want| == |got| {
      MismatchFromCharacterized(fn, want, got, 0);
    }
  }

  /** The first position before `limit`, from `i` on, that is not a pointer; `limit` if none. */
  function FirstNonPointer(ps: seq<Param>, i: nat, limit: nat): (r: nat)
    requires i <= limit <= |ps|
    ensures i <= r <= limit
    ensures forall j :: i <= j < r ==> ps[j].Ptr?
    ensures r < limit ==> !ps[r].Ptr?
    decreases limit - i
  {
    if i == limit then limit
    else if !ps[i].Ptr? then i
    else FirstNonPointer(ps, i + 1, limit)
  }

  /**
   * How many leading positions `setOutputParams` writes: it visits the
   * positions that have both an argument and a declared output, and stops at
   * the first argument that is not a pointer.
   */
  function WrittenPrefix(outs: seq<Value>, ps: seq<Param>): (n: nat)
    ensures n <= |ps| && n <= |outs|
    ensures outs == [] ==> n == 0
    ensures forall j :: 0 <= j < n ==> ps[j].Ptr?
    ensures n == Min(|ps|, |outs|) || (n < |ps| && !ps[n].Ptr?)
  {
    FirstNonPointer(ps, 0, Min(|ps|, |outs|))
  }

  /** What `setOutputParams` returns for declared outputs `outs` and arguments `ps`. */
  function OutputVerdict(outs: seq<Value>, ps: seq<Param>): (r: Option<TestError>)
    ensures r == None <==> forall j :: 0 <= j < |ps| && j < |outs| ==> ps[j].Ptr?
    ensures forall k :: 0 <= k < |ps| && k < |outs| && !ps[k].Ptr? &&
                        (forall j :: 0 <= j < k ==> ps[j].Ptr?) ==>
              r == Some(OutParamNotPointer(KindOf(ps[k].v)))
    ensures r.Some? ==> WrittenPrefix(outs, ps) < Min(|ps|, |outs|)
    ensures r == None ==> WrittenPrefix(outs, ps) == Min(|ps|, |outs|)
  {
    var m := Min(|ps|, |outs|);
    var p := FirstNonPointer(ps, 0, m);
    if p < m then Some(OutParamNotPointer(KindOf(ps[p].v))) else None
  }

  /**
   * The value cell `c` holds once the first `n` outputs in `outs` have been
   * written through the pointers among the first `n` arguments, starting
   * from `prior`: a later write to the same cell wins.
   */
  function ProjectedValue(ps: seq<Param>, outs: seq<Value>, n: nat, c: Cell, prior: Value): (r: Value)
    requires n <= |ps| && n <= |outs|
    ensures r == prior || exists i :: 0 <= i < n && ps[i].Ptr? && ps[i].target == c && r == outs[i]
  {
    if n == 0 then prior
    else if ps[n - 1].Ptr? && ps[n - 1].target == c then outs[n - 1]
    else ProjectedValue(ps, outs, n - 1, c, prior)
  }

  /** A cell that no written position points to keeps its value. */
  lemma {:induction false} ProjectedUntouched(ps: seq<Param>, outs: seq<Value>, n: nat, c: Cell, prior: Value)
    requires n <= |ps| && n <= |outs|
    requires forall j :: 0 <= j < n && ps[j].Ptr? ==> ps[j].target != c
    ensures ProjectedValue(ps, outs, n, c, prior) == prior
  {
    if n > 0 {
      ProjectedUntouched(ps, outs, n - 1, c, prior);
    }
  }

  /** A cell written at position `i` and not again afterwards holds `outs[i]`. */
  lemma {:induction false} ProjectedLastWrite(ps: seq<Param>, outs: seq<Value>, n: nat, i: nat, c: Cell, prior: Value)
    requires i < n <= |ps| && n <= |outs|
    requires ps[i].Ptr? && ps[i].target == c
    requires forall j :: i < j < n && ps[j].Ptr? ==> ps[j].target != c
    ensures ProjectedValue(ps, outs, n, c, prior) == outs[i]
  {
    if n - 1 != i {
      ProjectedLastWrite(ps, outs, n - 1, i, c, prior);
    }
  }

  /**
   * With distinct destinations, every written pointer's cell holds the
   * output declared for its position, and every other cell is untouched.
   */
  lemma {:induction false} ProjectedDistinct(ps: seq<Param>, outs: seq<Value>, n: nat, c: Cell, prior: Value)
    requires n <= |ps| && n <= |outs|
    requires forall i, j :: 0 <= i < j < n && ps[i].Ptr? && ps[j].Ptr? ==> ps[i].target != ps[j].target
    ensures forall i :: 0 <= i < n && ps[i].Ptr? && ps[i].target == c ==>
              ProjectedValue(ps, outs, n, c, prior) == outs[i]
    ensures (forall j :: 0 <= j < n && ps[j].Ptr? ==> ps[j].target != c) ==>
              ProjectedValue(ps, outs, n, c, prior) == prior
  {
    forall i | 0 <= i < n && ps[i].Ptr? && ps[i].target == c
      ensures ProjectedValue(ps, outs, n, c, prior) == outs[i]
    {
      ProjectedLastWrite(ps, outs, n, i, c, prior);
    }
    if forall j :: 0 <= j < n && ps[j].Ptr? ==> ps[j].target != c {
      ProjectedUntouched(ps, outs, n, c, prior);
    }
  }
}
