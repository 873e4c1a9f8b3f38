/**
 * Client code that drives a handle through its methods' contracts alone:
 * the end-to-end behaviours a test author relies on.
 */
module Scenarios {
  import opened Wrappers
  import opened Values
  import opened Errors
  import opened Queue
  import opened FakeDB
  import Checks

  /** `ExpectCall("Create").WithParams(user)`, then `Create(user)`: all expectations are met. */
  method CreateWithMatchingParams(user: Value) returns (r: Option<TestError>)
    ensures r == None
  {
    var db := new DB();
    var e := db.ExpectCall("Create");
    assert e == 0 && db.expectations == [Expectation("Create", [], [], None)];
    e := db.WithParams(e, [Plain(user)]);
    assert [] + [Plain(user)] == [Plain(user)];
    assert db.expectations == [Expectation("Create", [Plain(user)], [], None)];
    assert DeepEqual(Plain(user), Plain(user));
    Checks.ParamsVerdictCharacterized("Create", [Plain(user)], [Plain(user)]);
    assert db.Checked("Create", [Plain(user)]) == Call("Create", None, None);
    var _ := db.Invoke(Create, [Plain(user)]);
    r := db.ExpectationsMet();
  }

  /** `ExpectCall("First").WithOutput(alice)`, then `First(&dest)`: `dest` holds `alice`. */
  method FirstFillsDestination(dest: Cell, alice: Value) returns (r: Option<TestError>)
    modifies dest
    ensures dest.value == alice && r == None
  {
    var db := new DB();
    var e := db.ExpectCall("First");
    e := db.WithOutput(e, [alice]);
    var _ := db.Invoke(First, [Ptr(dest)]);
    assert dest in Cells([Ptr(dest)]);
    r := db.ExpectationsMet();
  }

  /** An output declared for a non-pointer argument is logged as a kind error, and nothing is written. */
  method OutputToNonPointer(v: Value, out: Value) returns (r: Option<TestError>)
    ensures r == Some(OutParamNotPointer(KindOf(v)))
  {
    var db := new DB();
    var e := db.ExpectCall("Find");
    e := db.WithOutput(e, [out]);
    var _ := db.Invoke(Find, [Plain(v)]);
    r := db.ExpectationsMet();
  }

  /** `ExpectCall("Save").WithError(err)`, then `Save(x)`: the handle's error is `err`. */
  method SaveSurfacesDeclaredError(x: Value, err: UserError) returns (current: Option<UserError>, r: Option<TestError>)
    ensures current == Some(err) && r == None
  {
    var db := new DB();
    var e := db.ExpectCall("Save");
    e := db.WithError(e, Some(err));
    var _ := db.Invoke(Save, [Plain(x)]);
    current := db.Error;
    r := db.ExpectationsMet();
  }

  /** A different operation than the one expected: the name error comes first, the cursor still advances. */
  method WrongOperationIsSoft(x: Value) returns (r: Option<TestError>, cursor: nat)
    ensures r == Some(WrongFunction("Delete", "Update")) && cursor == 1
  {
    var db := new DB();
    var e := db.ExpectCall("Update");
    e := db.WithParams(e, [Plain(x), Plain(x)]);
    var _ := db.Invoke(Delete, [Plain(x)]);
    r := db.ExpectationsMet();
    cursor := db.index;
  }

  /** Nothing declared, then `Where(1)`: the verdict is the unexpected call. */
  method UndeclaredCall() returns (r: Option<TestError>)
    ensures r == Some(UnexpectedCall("Where"))
  {
    var db := new DB();
    var _ := db.Invoke(Where, [Plain(Int(1))]);
    r := db.ExpectationsMet();
  }

  /** Two declared, one made: the verdict is "not all expectations met". */
  method TooFewCallsMade(t: Value) returns (r: Option<TestError>)
    ensures r == Some(NotAllExpectationsMet)
  {
    var db := new DB();
    var e := db.ExpectCall("Table");
    e := db.ExpectCall("Scan");
    var _ := db.Invoke(Table, [Plain(t)]);
    r := db.ExpectationsMet();
  }
}
