/** Values every module shares: results, the application error and case access (core/errors.py, cases/public.py). */
module Common {

  datatype Option<+T> = None | Some(value: T)

  datatype Result<+T> = Ok(value: T) | Err(error: AppError)

  /** The outcome of a check that returns nothing or raises. */
  datatype Check = Pass | Fail(error: AppError)

  datatype AppError = AppError(status: nat, code: string)

  function Forbidden(): AppError { AppError(403, "FORBIDDEN") }
  function NotFound(): AppError { AppError(404, "NOT_FOUND") }
  function Conflict(code: string): AppError { AppError(409, code) }
  function StateConflict(): AppError { Conflict("STATE_CONFLICT") }
  function Unauthenticated(): AppError { AppError(401, "UNAUTHENTICATED") }

  /** What a case grants the acting user, and whether the case is closed. */
  datatype Access = Access(learner: bool, counselor: bool, closed: bool) {
    /** Every change first reads the case under lock (cases/queries.py, read_access). */
    function Locked(): Check {
      if !learner && !counselor then Fail(NotFound()) else if closed then Fail(Conflict("CASE_CLOSED")) else Pass
    }
    function RequireLearner(): Check {
      if !learner && !counselor then Fail(NotFound()) else if !learner then Fail(Forbidden()) else Pass
    }
    function RequireCounselor(): Check {
      if !learner && !counselor then Fail(NotFound()) else if !counselor then Fail(Forbidden()) else Pass
    }
  }

  predicate IsSpace(c: char) {
    c in {' ', '\t', '\n', '\r', '\U{000B}', '\U{000C}', '\U{001C}', '\U{001D}', '\U{001E}', '\U{001F}', '\U{0085}',
        '\U{00A0}', '\U{3000}'}
  }

  /** True when stripping white space leaves nothing. */
  predicate Blank(text: string) {
    forall i :: 0 <= i < |text| ==> IsSpace(text[i])
  }

  /** The text without white space at either end. */
  function Trimmed(text: string): (r: string)
    ensures r == "" <==> Blank(text)
    ensures r != "" ==> !IsSpace(r[0]) && !IsSpace(r[|r| - 1])
  {
    if text == "" then ""
    else if IsSpace(text[0]) then
      assert Blank(text[1..]) ==> forall i :: 1 <= i < |text| ==> text[i] == text[1..][i - 1];
      Trimmed(text[1..])
    else if IsSpace(text[|text| - 1]) then
      assert text[..|text| - 1][0] == text[0];
      Trimmed(text[..|text| - 1])
    else text
  }

  predicate Distinct<T(==)>(xs: seq<T>) {
    forall i, j :: 0 <= i < j < |xs| ==> xs[i] != xs[j]
  }

  function Elements<T>(xs: seq<T>): set<T> {
    set x | x in xs
  }

  /** Keeps the first occurrence of each element, in order. */
  function Dedupe<T(==,!new)>(xs: seq<T>): (ys: seq<T>)
    ensures Distinct(ys)
    ensures forall x :: x in ys <==> x in xs
  {
    if xs == [] then []
    else
      var init := Dedupe(xs[..|xs| - 1]);
      var last := xs[|xs| - 1];
      assert xs == xs[..|xs| - 1] + [last];
      if last in init then init else init + [last]
  }
}
