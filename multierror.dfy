/** MultiError: a list of errors reported as one error, its text format and
    Append, which starts a new list or extends an existing one in place. */
module MultiErrors {

  /** A plain error (one built by errors.New): all it has is its message. */
  datatype SimpleError = SimpleError(message: string)

  /** The first argument of Append: nil, a plain error, or a *MultiError. */
  datatype ErrorArg = Nil | Plain(error: SimpleError) | Multi(multi: MultiError)

  function Digit(d: nat): (c: char)
    requires d < 10
    ensures '0' <= c <= '9' && (c as int) - ('0' as int) == d
  {
    "0123456789"[d]
  }

  /** The `%d` rendering of a non-negative count. */
  function Decimal(n: nat): (r: string)
    ensures |r| >= 1
    ensures |r| > 1 ==> r[0] != '0'
    decreases n
  {
    if n < 10 then [Digit(n)] else Decimal(n / 10) + [Digit(n % 10)]
  }

  predicate IsDigits(s: string) {
    forall i :: 0 <= i < |s| ==> '0' <= s[i] <= '9'
  }

  /** Decimal writes decimal digits only. */
  lemma {:induction false} DecimalDigits(n: nat)
    ensures IsDigits(Decimal(n))
    decreases n
  {
    if n >= 10 {
      DecimalDigits(n / 10);
    }
  }

  /** Reads a string of decimal digits back as a number. */
  function DigitsValue(s: string): nat
    requires IsDigits(s)
  {
    if s == [] then 0
    else DigitsValue(s[..|s| - 1]) * 10 + ((s[|s| - 1] as int) - ('0' as int))
  }

  /** Decimal writes exactly the number it is given. */
  lemma {:induction false} DecimalValue(n: nat)
    ensures IsDigits(Decimal(n)) && DigitsValue(Decimal(n)) == n
    decreases n
  {
    DecimalDigits(n);
    if n >= 10 {
      var r := Decimal(n);
      assert r[..|r| - 1] == Decimal(n / 10);
      DecimalValue(n / 10);
    }
  }

  /** The items part of the message: `"\t* " + message` per error, in order. */
  function Items(errs: seq<SimpleError>): string {
    if errs == [] then ""
    else Items(errs[..|errs| - 1]) + "\t* " + errs[|errs| - 1].message
  }

  /** The items of two lists are the items of the first, then those of the second. */
  lemma {:induction false} ItemsAppend(a: seq<SimpleError>, b: seq<SimpleError>)
    ensures Items(a + b) == Items(a) + Items(b)
    decreases |b|
  {
    if b == [] {
      assert a + b == a;
    } else {
      var b' := b[..|b| - 1];
      assert (a + b)[..|a + b| - 1] == a + b';
      ItemsAppend(a, b');
    }
  }

  /** One error contributes its message behind "\t* " and nothing else. */
  lemma ItemsOne(e: SimpleError)
    ensures Items([e]) == "\t* " + e.message
  {
    assert [e][..0] == [];
  }

  const Header: string := " errors occured:\n"

  /** What Error() returns for a list of errors. */
  function Message(errs: seq<SimpleError>): string {
    if |errs| == 0 then "" else Decimal(|errs|) + Header + Items(errs) + "\n"
  }

  /** The message is empty exactly when the list is. */
  lemma MessageEmpty(errs: seq<SimpleError>)
    ensures Message(errs) == "" <==> errs == []
  {
    if errs != [] {
      assert |Message(errs)| >= 1;
    }
  }

  lemma Regroup(a: string, b: string, c: string, d: string, e: string, f: string)
    ensures a + b + (c + d + e) + f == a + b + c + d + e + f
  {
  }

  /** A non-empty message starts with the count in decimal, then the header,
      then every item in list order, and ends in one newline. */
  lemma MessageOfNonEmpty(errs: seq<SimpleError>, e: SimpleError)
    ensures Message(errs + [e]) ==
              Decimal(|errs| + 1) + Header + Items(errs) + "\t* " + e.message + "\n"
  {
    var all := errs + [e];
    assert all[..|all| - 1] == errs;
    Regroup(Decimal(|all|), Header, Items(errs), "\t* ", e.message, "\n");
  }

  class MultiError {
    var errors: seq<SimpleError>

    constructor (errs: seq<SimpleError>)
      ensures errors == errs
    {
      errors := errs;
    }

    /** (*MultiError).Error: the count line, one item per error, a newline. */
    method Error() returns (s: string)
      ensures s == Message(errors)
    {
      var l := |errors|;
      if l == 0 {
        return "";
      }
      var sb := Decimal(l) + Header;
      for i := 0 to |errors|
        invariant sb == Decimal(l) + Header + Items(errors[..i])
      {
        assert errors[..i + 1][..i] == errors[..i];
        sb := sb + "\t* " + errors[i].message;
      }
      assert errors[..|errors|] == errors;
      sb := sb + "\n";
      s := sb;
    }
  }

  /** The list an Append argument starts from. */
  function Prior(err: ErrorArg): seq<SimpleError>
    reads if err.Multi? then {err.multi} else {}
  {
    match err
    case Nil => []
    case Plain(e) => [e]
    case Multi(m) => m.errors
  }

  /** Append(err, errs...): a *MultiError is extended in place and returned
      itself; otherwise a new MultiError holds err (when not nil) and errs. */
  method Append(err: ErrorArg, errs: seq<SimpleError>) returns (m: MultiError)
    modifies if err.Multi? then {err.multi} else {}
    ensures err.Multi? ==> m == err.multi
    ensures !err.Multi? ==> fresh(m)
    ensures m.errors == old(Prior(err)) + errs
    ensures |m.errors| == |old(Prior(err))| + |errs|
  {
    match err {
      case Multi(me) =>
        m := me;
      case Plain(e) =>
        m := new MultiError([e]);
      case Nil =>
        m := new MultiError([]);
    }
    m.errors := m.errors + errs;
  }

  lemma TwoErrorsHeader()
    ensures Decimal(2) + Header == "2 errors occured:\n"
  {
    assert Decimal(2) == "2";
  }

  lemma TwoErrorsItems()
    ensures Items([SimpleError("error 1"), SimpleError("error 2")]) == "\t* error 1\t* error 2"
  {
    var e1, e2 := SimpleError("error 1"), SimpleError("error 2");
    assert [e1, e2][..1] == [e1];
    ItemsOne(e1);
    assert Items([e1, e2]) == "\t* error 1" + "\t* " + "error 2";
  }

  /** The message of the two errors the scenario below collects. */
  lemma TwoErrorsMessage()
    ensures Message([SimpleError("error 1"), SimpleError("error 2")]) ==
              "2 errors occured:\n\t* error 1\t* error 2\n"
  {
    TwoErrorsHeader();
    TwoErrorsItems();
    assert Message([SimpleError("error 1"), SimpleError("error 2")]) ==
           "2 errors occured:\n" + "\t* error 1\t* error 2" + "\n";
  }

  /** Appending "error 1" to nil and then "error 2" to the result. */
  method AppendTwice() returns (s: string)
    ensures s == "2 errors occured:\n\t* error 1\t* error 2\n"
  {
    var first := Append(Nil, [SimpleError("error 1")]);
    var second := Append(Multi(first), [SimpleError("error 2")]);
    assert second.errors == [SimpleError("error 1"), SimpleError("error 2")];
    s := second.Error();
    TwoErrorsMessage();
  }
}
