/**
 * The fake database handle: it holds the expectation queue, the cursor, the
 * error log and the current error, and updates them in place as the code
 * under test calls its operations.  Every method is proved against the
 * value-level specification in `Queue` and `Checks`.
 */
module FakeDB {
  import opened Wrappers
  import opened Values
  import opened Errors
  import opened Checks
  import opened Queue

  /** The intercepted operations that return the handle for chaining. */
  datatype Operation =
    | Select | First | Find | Related | Update | CreateTable | Where
    | Save | Create | Model | Table | Joins | Scan | Delete

  /** The name under which an operation reports itself. */
  function OpName(op: Operation): string
  {
    match op
    case Select => "Select"
    case First => "First"
    case Find => "Find"
    case Related => "Related"
    case Update => "Update"
    case CreateTable => "CreateTable"
    case Where => "Where"
    case Save => "Save"
    case Create => "Create"
    case Model => "Model"
    case Table => "Table"
    case Joins => "Joins"
    case Scan => "Scan"
    case Delete => "Delete"
  }

  /** Operations that take any number of arguments; the others take exactly one. */
  predicate Variadic(op: Operation)
  {
    op.Select? || op.First? || op.Find? || op.Related? || op.Update? || op.CreateTable? || op.Where?
  }

  class DB {
    var Error: Option<UserError>
    var expectations: seq<Expectation>
    var index: nat
    var testErrors: seq<TestError>

    ghost predicate Valid()
      reads this
    {
      Bounded(Snapshot())
    }

    ghost function Snapshot(): DBState
      reads this
    {
      DBState(Error, expectations, index, testErrors)
    }

    /** The outputs declared by the expectation under the cursor; none past the end. */
    ghost function PendingOutput(): seq<Value>
      reads this
    {
      if index < |expectations| then expectations[index].Output else []
    }

    /** The cells of the parameters expected by the expectation under the cursor. */
    ghost function PendingCells(): set<Cell>
      reads this
    {
      if index < |expectations| then Cells(expectations[index].Params) else {}
    }

    /** How a call to `fn` with `params` fares against the expectation under the cursor. */
    ghost function Checked(fn: string, params: seq<Param>): Call
      reads this, Cells(params), PendingCells()
    {
      if index < |expectations| then
        var e := expectations[index];
        Call(fn, ParamsVerdict(fn, e.Params, params), OutputVerdict(e.Output, params))
      else
        Call(fn, None, None)
    }

    /** A fresh handle: no expectations, cursor at 0, no errors. */
    constructor ()
      ensures Valid()
      ensures Snapshot() == DBState(None, [], 0, [])
    {
      Error := None;
      expectations := [];
      index := 0;
      testErrors := [];
    }

    method ExpectationsMet() returns (r: Option<TestError>)
      ensures r == Verdict(Snapshot())
    {
      if |testErrors| > 0 {
        r := Some(testErrors[0]);
      } else if index < |expectations| {
        r := Some(NotAllExpectationsMet);
      } else {
        r := None;
      }
    }

    /** Appends an expectation for `fn` and returns its position, the handle for the builders. */
    method ExpectCall(fn: string) returns (e: nat)
      requires Valid()
      modifies this
      ensures Valid()
      ensures e == |old(expectations)| && e < |expectations|
      ensures expectations == old(expectations) + [Expectation(fn, [], [], None)]
      ensures Error == old(Error) && index == old(index) && testErrors == old(testErrors)
    {
      expectations := expectations + [Expectation(fn, [], [], None)];
      e := |expectations| - 1;
    }

    /** Appends `params`, in order, to the expected parameters of expectation `e`. */
    method WithParams(e: nat, params: seq<Param>) returns (self: nat)
      requires Valid() && e < |expectations|
      modifies this
      ensures Valid() && self == e
      ensures expectations ==
                old(expectations)[e := old(expectations[e]).(Params := old(expectations[e].Params) + params)]
      ensures Error == old(Error) && index == old(index) && testErrors == old(testErrors)
    {
      var ex := expectations[e];
      for i := 0 to |params|
        invariant ex == old(expectations[e]).(Params := old(expectations[e].Params) + params[..i])
      {
        assert params[..i + 1] == params[..i] + [params[i]];
        ex := ex.(Params := ex.Params + [params[i]]);
      }
      expectations := expectations[e := ex];
      assert params[..|params|] == params;
      self := e;
    }

    /** Appends copies of `output`, in order, to the declared outputs of expectation `e`. */
    method WithOutput(e: nat, output: seq<Value>) returns (self: nat)
      requires Valid() && e < |expectations|
      modifies this
      ensures Valid() && self == e
      ensures expectations ==
                old(expectations)[e := old(expectations[e]).(Output := old(expectations[e].Output) + output)]
      ensures Error == old(Error) && index == old(index) && testErrors == old(testErrors)
    {
      var ex := expectations[e];
      for i := 0 to |output|
        invariant ex == old(expectations[e]).(Output := old(expectations[e].Output) + output[..i])
      {
        assert output[..i + 1] == output[..i] + [output[i]];
        var copy := output[i];
        ex := ex.(Output := ex.Output + [copy]);
      }
      expectations := expectations[e := ex];
      assert output[..|output|] == output;
      self := e;
    }

    /** Sets the error that expectation `e` surfaces once it is consumed. */
    method WithError(e: nat, err: Option<UserError>) returns (self: nat)
      requires Valid() && e < |expectations|
      modifies this
      ensures Valid() && self == e
      ensures expectations == old(expectations)[e := old(expectations[e]).(Error := err)]
      ensures Error == old(Error) && index == old(index) && testErrors == old(testErrors)
    {
      expectations := expectations[e := expectations[e].(Error := err)];
      self := e;
    }

    /** Checks the observed parameters against those of the expectation under the cursor. */
    method VerifyParams(fn: string, params: seq<Param>) returns (err: Option<TestError>)
      requires index < |expectations|
      ensures err == ParamsVerdict(fn, expectations[index].Params, params)
    {
      var want := expectations[index].Params;
      if |want| == 0 {
        return None;
      } else if |want| > |params| {
        return Some(NotEnoughParameters);
      } else if |want| < |params| {
        return Some(TooManyParameters);
      }
      for i := 0 to |params|
        invariant MismatchFrom(fn, want, params, 0) == MismatchFrom(fn, want, params, i)
      {
        assert params[i].Footprint() <= Cells(params) && want[i].Footprint() <= Cells(want);
        if !DeepEqual(params[i], want[i]) {
          return Some(UnexpectedParameter(params[i], fn, want[i]));
        }
      }
      return None;
    }

    /**
     * Writes the declared outputs of the expectation under the cursor
     * through the pointers among `params`, stopping at the first argument
     * that is not a pointer.
     */
    method SetOutputParams(params: seq<Param>) returns (err: Option<TestError>)
      requires index < |expectations|
      modifies Cells(params)
      ensures err == OutputVerdict(expectations[index].Output, params)
      ensures forall c :: c in Cells(params) ==>
                c.value == ProjectedValue(params, expectations[index].Output,
                                          WrittenPrefix(expectations[index].Output, params), c, old(c.value))
    {
      var outs := expectations[index].Output;
      if |outs| == 0 {
        return None;
      }
      var i := 0;
      while i < |params|
        invariant i <= |params| && i <= |outs|
        invariant forall j :: 0 <= j < i ==> params[j].Ptr?
        invariant forall c :: c in Cells(params) ==> c.value == ProjectedValue(params, outs, i, c, old(c.value))
      {
        if i >= |outs| {
          break;
        }
        if !params[i].Ptr? {
          return Some(OutParamNotPointer(KindOf(params[i].v)));
        }
        assert params[i].target in Cells(params);
        params[i].target.value := outs[i];
        i := i + 1;
      }
      return None;
    }

    /** Copies the error declared by the expectation under the cursor into `Error`. */
    method SetError()
      requires index < |expectations|
      modifies this
      ensures Error == old(expectations[index].Error)
      ensures expectations == old(expectations) && index == old(index) && testErrors == old(testErrors)
    {
      Error := expectations[index].Error;
    }

    /**
     * The step every intercepted operation performs: check the call to
     * `fn` with `params` against the expectation under the cursor, log
     * every mismatch, write the declared outputs, surface the declared
     * error and advance the cursor.
     */
    method Query(fn: string, params: seq<Param>)
      requires Valid()
      modifies this, Cells(params)
      ensures Valid()
      ensures Snapshot() == Recorded(old(Snapshot()), old(Checked(fn, params)))
      ensures forall c :: c in Cells(params) ==>
                c.value == ProjectedValue(params, old(PendingOutput()),
                                          WrittenPrefix(old(PendingOutput()), params), c, old(c.value))
    {
      if index >= |expectations| {
        testErrors := testErrors + [UnexpectedCall(fn)];
        return;
      }
      ghost var e := expectations[index];
      ghost var call := Checked(fn, params);
      ghost var pv := ParamsVerdict(fn, e.Params, params);
      assert call.paramsVerdict == pv;
      var expected := expectations[index].Function;
      if fn != expected {
        testErrors := testErrors + [WrongFunction(fn, expected)];
      }
      ghost var named := testErrors;
      var err := VerifyParams(fn, params);
      assert err == pv;
      if err.Some? {
        testErrors := testErrors + [err.value];
      }
      assert testErrors == named + Logged(call.paramsVerdict);
      ghost var checkedParams := testErrors;
      err := SetOutputParams(params);
      if err.Some? {
        testErrors := testErrors + [err.value];
      }
      assert testErrors == checkedParams + Logged(call.outputVerdict);
      SetError();
      index := index + 1;
      assert testErrors == old(testErrors) + CallErrors(e, call);
    }

    /** An intercepted operation: reports itself and returns the handle for chaining. */
    method Invoke(op: Operation, params: seq<Param>) returns (db: DB)
      requires Valid()
      requires Variadic(op) || |params| == 1
      modifies this, Cells(params)
      ensures db == this && Valid()
      ensures Snapshot() == Recorded(old(Snapshot()), old(Checked(OpName(op), params)))
      ensures forall c :: c in Cells(params) ==>
                c.value == ProjectedValue(params, old(PendingOutput()),
                                          WrittenPrefix(old(PendingOutput()), params), c, old(c.value))
    {
      Query(OpName(op), params);
      db := this;
    }

    /** `HasTable` reports itself like the other operations and always answers true. */
    method HasTable(value: Param) returns (b: bool)
      requires Valid()
      modifies this, value.Footprint()
      ensures b && Valid()
      ensures Snapshot() == Recorded(old(Snapshot()), old(Checked("HasTable", [value])))
      ensures value.Ptr? ==>
                value.target.value == ProjectedValue([value], old(PendingOutput()),
                                                     WrittenPrefix(old(PendingOutput()), [value]),
                                                     value.target, old(value.target.value))
    {
      assert [value][0] == value;
      assert Cells([value]) == value.Footprint();
      Query("HasTable", [value]);
      b := true;
    }
  }
}
