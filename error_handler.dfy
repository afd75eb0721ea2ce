/**
 * The error translator of the API server: every error that a controller hands
 * to `next(error)` ends here and becomes one HTTP status code and one JSON
 * body `{ status: "error", message, errors? }`. The branches are tried in
 * order and the first that matches answers.
 */
module ErrorHandler {
  import opened Wrappers

  /** One segment of a validation issue's path: an object key or an array index. */
  datatype PathSegment = Key(name: string) | Index(position: nat)

  /** One validation issue: where in the request it is and what is wrong there. */
  datatype Issue = Issue(path: seq<PathSegment>, message: string)

  /**
   * What reaches the translator. `ZodError` and `AppError` are recognised by
   * their class; any other error object is known only by its `name`.
   */
  datatype Error =
    | ZodError(issues: seq<Issue>)
    | AppError(statusCode: int, message: string)
    | Thrown(name: string, message: string)

  const PrismaKnownRequestName := "PrismaClientKnownRequestError"
  const JsonWebTokenName := "JsonWebTokenError"

  const ValidationFailed := "Validation failed"
  const DatabaseErrorOccurred := "Database error occurred"
  const InvalidToken := "Invalid token"
  const InternalServerError := "Internal server error"

  /** One entry of the `errors` list of a validation response. */
  datatype FieldError = FieldError(path: string, message: string)

  datatype ErrorBody = ErrorBody(status: string, message: string, errors: Option<seq<FieldError>>)

  datatype ErrorResponse = ErrorResponse(statusCode: int, body: ErrorBody)

  /** The five branches of the translator, in the order they are tried. */
  datatype Branch = Validation | Application | Database | Jwt | Internal

  // ---------------------------------------------------------------------------
  // Decimal text of an array index, as `String(n)` writes it.

  function Digit(d: nat): char
    requires d < 10
  {
    "0123456789"[d]
  }

  predicate IsDigit(c: char) {
    '0' <= c <= '9'
  }

  function DecimalText(n: nat): (r: string)
    ensures |r| > 0
    ensures forall i :: 0 <= i < |r| ==> IsDigit(r[i])
  {
    if n < 10 then [Digit(n)] else DecimalText(n / 10) + [Digit(n % 10)]
  }

  /** Reads a string of digits back as a number: the partner of DecimalText. */
  function DecimalValue(s: string): nat
    requires forall i :: 0 <= i < |s| ==> IsDigit(s[i])
  {
    if s == [] then 0 else DecimalValue(s[..|s| - 1]) * 10 + DigitValue(s[|s| - 1])
  }

  function DigitValue(c: char): nat
    requires IsDigit(c)
  {
    c as int - '0' as int
  }

  lemma {:induction false} DecimalRoundTrip(n: nat)
    ensures DecimalValue(DecimalText(n)) == n
  {
    if n >= 10 {
      var t := DecimalText(n);
      assert t[..|t| - 1] == DecimalText(n / 10);
      DecimalRoundTrip(n / 10);
    }
  }

  // ---------------------------------------------------------------------------
  // `e.path.join(".")`

  function SegmentText(s: PathSegment): string {
    match s
    case Key(name) => name
    case Index(position) => DecimalText(position)
  }

  function SegmentTexts(path: seq<PathSegment>): (r: seq<string>)
    ensures |r| == |path|
    ensures forall i :: 0 <= i < |path| ==> r[i] == SegmentText(path[i])
  {
    if path == [] then [] else [SegmentText(path[0])] + SegmentTexts(path[1..])
  }

  /** The path's segments separated by ".", as `Array.prototype.join(".")` does. */
  function JoinPath(path: seq<PathSegment>): string {
    if path == [] then ""
    else if |path| == 1 then SegmentText(path[0])
    else SegmentText(path[0]) + "." + JoinPath(path[1..])
  }

  /** Cuts a string at every ".": the partner of JoinPath. */
  function SplitDots(s: string): (r: seq<string>)
    ensures |r| > 0
  {
    if s == [] then [""]
    else
      var rest := SplitDots(s[1..]);
      if s[0] == '.' then [""] + rest else [[s[0]] + rest[0]] + rest[1..]
  }

  lemma {:induction false} SplitDotFree(a: string, tail: string)
    requires '.' !in a
    ensures SplitDots(a + tail) == [a + SplitDots(tail)[0]] + SplitDots(tail)[1..]
  {
    if a != [] {
      var s, t := a + tail, SplitDots(tail);
      assert s[0] == a[0] != '.';
      assert s[1..] == a[1..] + tail;
      SplitDotFree(a[1..], tail);
      var rest := SplitDots(s[1..]);
      assert rest == [a[1..] + t[0]] + t[1..];
      assert SplitDots(s) == [[a[0]] + rest[0]] + rest[1..];
      assert rest[0] == a[1..] + t[0] && rest[1..] == t[1..];
      assert [a[0]] + (a[1..] + t[0]) == a + t[0];
    } else {
      var t := SplitDots(tail);
      assert a + tail == tail && a + t[0] == t[0];
      assert [t[0]] + t[1..] == t;
    }
  }

  /** Joining then cutting gives back the segments, when no segment holds a "." itself. */
  lemma {:induction false} SplitJoinPath(path: seq<PathSegment>)
    requires |path| > 0
    requires forall i :: 0 <= i < |path| ==> '.' !in SegmentText(path[i])
    ensures SplitDots(JoinPath(path)) == SegmentTexts(path)
  {
    var head := SegmentText(path[0]);
    if |path| == 1 {
      SplitDotFree(head, "");
      assert head + "" == head;
    } else {
      var tail := JoinPath(path[1..]);
      SplitJoinPath(path[1..]);
      SplitDotFree(head, "." + tail);
      assert ("." + tail)[0] == '.' && ("." + tail)[1..] == tail;
      assert SplitDots("." + tail) == [""] + SplitDots(tail);
      assert head + "." + tail == head + ("." + tail);
      assert head + "" == head;
      assert SegmentTexts(path) == [head] + SegmentTexts(path[1..]);
    }
  }

  // ---------------------------------------------------------------------------
  // The translator

  /** `err.errors.map(e => ({ path: e.path.join("."), message: e.message }))` */
  function FieldErrors(issues: seq<Issue>): (r: seq<FieldError>)
    ensures |r| == |issues|
    ensures forall i :: 0 <= i < |issues| ==>
      r[i].path == JoinPath(issues[i].path) && r[i].message == issues[i].message
  {
    if issues == [] then [] else [FieldError(JoinPath(issues[0].path), issues[0].message)] + FieldErrors(issues[1..])
  }

  /** Which branch answers: the first whose test the error passes. */
  function Classify(e: Error): (b: Branch)
    ensures b == Validation <==> e.ZodError?
    ensures b == Application <==> e.AppError?
    ensures b == Database <==> e.Thrown? && e.name == PrismaKnownRequestName
    ensures b == Jwt <==> e.Thrown? && e.name == JsonWebTokenName
    ensures b == Internal <==> e.Thrown? && e.name != PrismaKnownRequestName && e.name != JsonWebTokenName
  {
    if e.ZodError? then Validation
    else if e.AppError? then Application
    else if e.name == PrismaKnownRequestName then Database
    else if e.name == JsonWebTokenName then Jwt
    else Internal
  }

  function Handle(e: Error): (r: ErrorResponse)
    ensures r.body.status == "error"
    ensures r.body.errors.Some? <==> Classify(e) == Validation
    ensures Classify(e) == Validation ==>
      r.statusCode == 400 && r.body.message == ValidationFailed && r.body.errors == Some(FieldErrors(e.issues))
    ensures Classify(e) == Application ==> r.statusCode == e.statusCode && r.body.message == e.message
    ensures Classify(e) == Database ==> r.statusCode == 400 && r.body.message == DatabaseErrorOccurred
    ensures Classify(e) == Jwt ==> r.statusCode == 401 && r.body.message == InvalidToken
    ensures Classify(e) == Internal ==> r.statusCode == 500 && r.body.message == InternalServerError
  {
    match Classify(e)
    case Validation => ErrorResponse(400, ErrorBody("error", ValidationFailed, Some(FieldErrors(e.issues))))
    case Application => ErrorResponse(e.statusCode, ErrorBody("error", e.message, None))
    case Database => ErrorResponse(400, ErrorBody("error", DatabaseErrorOccurred, None))
    case Jwt => ErrorResponse(401, ErrorBody("error", InvalidToken, None))
    case Internal => ErrorResponse(500, ErrorBody("error", InternalServerError, None))
  }

  /**
   * Only an AppError chooses its own message; any other error object's message
   * never reaches the response body, whatever it says.
   */
  lemma ThrownMessageNeverLeaks(name: string, m1: string, m2: string)
    ensures Handle(Thrown(name, m1)) == Handle(Thrown(name, m2))
    ensures Handle(Thrown(name, m1)).body.message in {DatabaseErrorOccurred, InvalidToken, InternalServerError}
  {
  }

  /**
   * The first two branches test the error's class, not its name: a plain error
   * that merely carries the name "ZodError" or "AppError" is an internal error.
   */
  lemma NameIsNotClass(message: string)
    ensures Handle(Thrown("ZodError", message)).statusCode == 500
    ensures Handle(Thrown("AppError", message)).statusCode == 500
  {
  }

  /** The validation list has one entry per issue, and its paths can be cut back into their segments. */
  lemma {:induction false} ValidationPathsRecoverable(issues: seq<Issue>, i: nat)
    requires i < |issues| && |issues[i].path| > 0
    requires forall j :: 0 <= j < |issues[i].path| ==> '.' !in SegmentText(issues[i].path[j])
    ensures Handle(ZodError(issues)).body.errors.Some?
    ensures |Handle(ZodError(issues)).body.errors.value| == |issues|
    ensures SplitDots(Handle(ZodError(issues)).body.errors.value[i].path) == SegmentTexts(issues[i].path)
  {
    SplitJoinPath(issues[i].path);
  }
}
