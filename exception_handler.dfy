/** The error responder of app/core/exception_handler.py: the table of known
    application errors, the application exception with its defaults, the
    validation-message builder and the three handlers, each reduced to the
    (status, code, message) triple it hands to the response schema. */
module ExceptionHandler {
  import opened Wrappers
  import Decimal
  import Strings

  const HTTP_400_BAD_REQUEST: int := 400
  const HTTP_500_INTERNAL_SERVER_ERROR: int := 500

  /** A message: a literal string, or one of the resource texts by name. */
  datatype Text = Literal(s: string) | Resource(name: Strings.Resource)

  // ---------------------------------------------------------------------------
  // ExceptionType: the table of known application errors

  datatype ExceptionType = MsUnavailable | MsInvalidApiPath | DataResponseMalformed {

    /** The (http_code, code, message) triple given in the member's declaration. */
    function HttpCode(): (status: int) { HTTP_500_INTERNAL_SERVER_ERROR }

    function Code(): (code: string)
    {
      match this
      case MsUnavailable => "990"
      case MsInvalidApiPath => "991"
      case DataResponseMalformed => "992"
    }

    function Message(): (text: Text)
    {
      match this
      case MsUnavailable => Resource(Strings.MsUnavailable)
      case MsInvalidApiPath => Resource(Strings.MsInvalidApiPath)
      case DataResponseMalformed => Resource(Strings.DataResponseMalformed)
    }
  }

  /** The members in the order the class body declares them. */
  function Declared(): (members: seq<ExceptionType>)
  {
    [MsUnavailable, MsInvalidApiPath, DataResponseMalformed]
  }

  /** The enum value of a member: its position in declaration order, counted from 1. */
  function Value(k: ExceptionType): (v: nat)
    ensures 1 <= v <= |Declared()| && Declared()[v - 1] == k
  {
    match k
    case MsUnavailable => 1
    case MsInvalidApiPath => 2
    case DataResponseMalformed => 3
  }

  /** Enum class creation: `__new__` runs once per declared member, in order,
      and gives it the value `len(__members__) + 1`, where `__members__` holds
      the members created so far. A name declared twice is refused by the enum
      machinery before any value is assigned. */
  method NumberMembers(declared: seq<ExceptionType>) returns (values: map<ExceptionType, nat>)
    requires forall i, j :: 0 <= i < j < |declared| ==> declared[i] != declared[j]
    ensures values.Keys == set k | k in declared
    ensures forall i :: 0 <= i < |declared| ==> values[declared[i]] == i + 1
    ensures declared == Declared() ==> forall k :: k in values && values[k] == Value(k)
  {
    var members: seq<ExceptionType> := [];
    values := map[];
    for i := 0 to |declared|
      invariant members == declared[..i]
      invariant values.Keys == set k | k in members
      invariant forall j :: 0 <= j < i ==> values[declared[j]] == j + 1
    {
      var value := |members| + 1;
      members := members + [declared[i]];
      values := values[declared[i] := value];
    }
    assert members == declared;
    if declared == Declared() {
      forall k ensures k in values && values[k] == Value(k) {
        var v := Value(k);
        assert declared[v - 1] == k;
      }
    }
  }

  /** Every member of the table is a 500 error, and no two share a code. */
  lemma TableCodes(k: ExceptionType, l: ExceptionType)
    ensures k.HttpCode() == HTTP_500_INTERNAL_SERVER_ERROR
    ensures |k.Code()| == 3 && k.Code()[..2] == "99"
    ensures k.Code() == l.Code() <==> k == l
  {
  }

  // ---------------------------------------------------------------------------
  // CustomException

  /** The application exception, after its `__init__` has run. */
  datatype CustomException = CustomException(httpCode: int, code: string, message: Option<Text>)

  /** Python truthiness of an optional integer: `None` and `0` are falsy. */
  predicate IntIsTruthy(x: Option<int>) { x.Some? && x.value != 0 }

  /** Python truthiness of an optional string: `None` and `""` are falsy. */
  predicate StrIsTruthy(x: Option<string>) { x.Some? && x.value != "" }

  /** `CustomException(http_code, code, message)`: a falsy status becomes 500,
      a falsy code becomes the decimal string of the resolved status, and the
      message is kept as given, `None` included. */
  function NewCustomException(httpCode: Option<int> := None, code: Option<string> := None,
                              message: Option<Text> := None): (e: CustomException)
    ensures IntIsTruthy(httpCode) ==> e.httpCode == httpCode.value
    ensures !IntIsTruthy(httpCode) ==> e.httpCode == HTTP_500_INTERNAL_SERVER_ERROR
    ensures StrIsTruthy(code) ==> e.code == code.value
    ensures !StrIsTruthy(code) ==> e.code == Decimal.IntToString(e.httpCode)
    ensures !StrIsTruthy(code) ==> Decimal.ParseInt(e.code) == Some(e.httpCode)
    ensures e.httpCode != 0 && e.code != ""
    ensures e.message == message
  {
    var status := if IntIsTruthy(httpCode) then httpCode.value else HTTP_500_INTERNAL_SERVER_ERROR;
    var resolved := if StrIsTruthy(code) then code.value else Decimal.IntToString(status);
    Decimal.ParseIntToString(status);
    CustomException(status, resolved, message)
  }

  // ---------------------------------------------------------------------------
  // Handlers

  /** The arguments a handler gives the response: HTTP status, error code, message. */
  datatype Reply = Reply(status: int, code: string, message: Option<Text>)

  /** `http_exception_handler`: the exception's own status, code and message, unchanged. */
  function HttpExceptionHandler(exc: CustomException): (r: Reply)
    ensures r.status == exc.httpCode && r.code == exc.code && r.message == exc.message
  {
    Reply(exc.httpCode, exc.code, exc.message)
  }

  /** `fastapi_error_handler`: every other failure is a 500 with code "500" and
      the fixed DATA_RESPONSE_MALFORMED text, whatever was raised. */
  function FastapiErrorHandler(): (r: Reply)
    ensures r.status == HTTP_500_INTERNAL_SERVER_ERROR
    ensures r.code == Decimal.IntToString(r.status)
    ensures r.message == Some(DataResponseMalformed.Message())
  {
    Reply(HTTP_500_INTERNAL_SERVER_ERROR, "500", Some(Resource(Strings.DataResponseMalformed)))
  }

  /** An exception raised from a table entry's own triple reaches the client as
      exactly that triple. */
  lemma TableEntryReply(k: ExceptionType)
    ensures HttpExceptionHandler(NewCustomException(Some(k.HttpCode()), Some(k.Code()), Some(k.Message())))
            == Reply(k.HttpCode(), k.Code(), Some(k.Message()))
  {
  }

  /** `CustomException()` with no arguments is rendered as status 500, code "500", no message. */
  lemma DefaultExceptionReply()
    ensures HttpExceptionHandler(NewCustomException()) == Reply(500, "500", None)
  {
    assert Decimal.IntToString(500) == "500";
  }

  /** The fallback handler uses the text of DATA_RESPONSE_MALFORMED but not its code. */
  lemma FallbackIsNotTableEntry()
    ensures FastapiErrorHandler().message == Some(DataResponseMalformed.Message())
    ensures FastapiErrorHandler().code != DataResponseMalformed.Code()
  {
  }

  // ---------------------------------------------------------------------------
  // Validation messages

  /** One part of a validation issue's location: a field name or a list index. */
  datatype LocItem = Field(name: string) | Index(i: int)

  /** One entry of the validation error's `errors()` list. */
  datatype ValidationIssue = ValidationIssue(loc: seq<LocItem>, msg: string)

  /** Raised while building the message: `loc[1]` on a location shorter than 2. */
  datatype PyError = IndexError

  /** `str()` of a location item. */
  function LocString(l: LocItem): (s: string)
  {
    match l
    case Field(name) => name
    case Index(i) => Decimal.IntToString(i)
  }

  predicate LocsIndexable(issues: seq<ValidationIssue>)
  {
    forall i :: 0 <= i < |issues| ==> |issues[i].loc| >= 2
  }

  /** The rendering of one issue, without the separator: `/'<loc[1]>'/: <msg>`. */
  function Segment(issue: ValidationIssue): (s: string)
    requires |issue.loc| >= 2
  {
    "/'" + LocString(issue.loc[1]) + "'/" + ": " + issue.msg
  }

  function Segments(issues: seq<ValidationIssue>): (r: seq<string>)
    requires LocsIndexable(issues)
    ensures |r| == |issues|
    ensures forall i :: 0 <= i < |issues| ==> r[i] == Segment(issues[i])
  {
    if issues == [] then []
    else Segments(issues[..|issues| - 1]) + [Segment(issues[|issues| - 1])]
  }

  /** The parts joined with `sep` between neighbours; nothing before the first or after the last. */
  function JoinWith(parts: seq<string>, sep: string): (s: string)
  {
    if |parts| == 0 then ""
    else if |parts| == 1 then parts[0]
    else JoinWith(parts[..|parts| - 1], sep) + sep + parts[|parts| - 1]
  }

  /** Each part followed by `sep`: what the loop has accumulated. */
  function Terminated(parts: seq<string>, sep: string): (s: string)
  {
    if parts == [] then "" else Terminated(parts[..|parts| - 1], sep) + parts[|parts| - 1] + sep
  }

  lemma {:induction false} TerminatedIsJoinPlusSep(parts: seq<string>, sep: string)
    requires parts != []
    ensures Terminated(parts, sep) == JoinWith(parts, sep) + sep
    decreases |parts|
  {
    var init, last := parts[..|parts| - 1], parts[|parts| - 1];
    if |parts| > 1 {
      TerminatedIsJoinPlusSep(init, sep);
      calc {
        Terminated(parts, sep);
        Terminated(init, sep) + last + sep;
        JoinWith(init, sep) + sep + last + sep;
        JoinWith(parts, sep) + sep;
      }
    }
  }

  /** One more loop round appends the next issue's segment and the separator. */
  lemma SegmentsStep(issues: seq<ValidationIssue>, i: nat)
    requires i < |issues| && LocsIndexable(issues[..i]) && |issues[i].loc| >= 2
    ensures LocsIndexable(issues[..i + 1])
    ensures Terminated(Segments(issues[..i + 1]), ", ")
            == Terminated(Segments(issues[..i]), ", ") + Segment(issues[i]) + ", "
  {
    assert issues[..i + 1][..i] == issues[..i];
    var done := Segments(issues[..i]);
    assert Segments(issues[..i + 1]) == done + [Segment(issues[i])];
    assert (done + [Segment(issues[i])])[..i] == done;
  }

  /** Dropping the last two characters of the accumulated text leaves the join. */
  lemma DropSeparator(parts: seq<string>, sep: string)
    requires |sep| == 2
    ensures var t := Terminated(parts, sep);
            (if |t| >= 2 then t[..|t| - 2] else "") == JoinWith(parts, sep)
  {
    if parts != [] {
      TerminatedIsJoinPlusSep(parts, sep);
      var j := JoinWith(parts, sep);
      assert (j + sep)[..|j + sep| - 2] == j;
    }
  }

  /** `get_message_validation`: one `/'<loc[1]>'/: <msg>, ` per issue, then the
      last two characters dropped. The result is the segments joined with ", "
      (so `""` for no issues), or IndexError when some location is too short. */
  method GetMessageValidation(issues: seq<ValidationIssue>) returns (r: Result<string, PyError>)
    ensures LocsIndexable(issues) ==> r == Success(JoinWith(Segments(issues), ", "))
    ensures !LocsIndexable(issues) ==> r == Failure(IndexError)
  {
    var message := "";
    for i := 0 to |issues|
      invariant LocsIndexable(issues[..i])
      invariant message == Terminated(Segments(issues[..i]), ", ")
    {
      if |issues[i].loc| < 2 {
        return Failure(IndexError);
      }
      var segment := "/'" + LocString(issues[i].loc[1]) + "'/" + ": " + issues[i].msg;
      SegmentsStep(issues, i);
      message := message + segment + ", ";
    }
    assert issues[..|issues|] == issues;
    DropSeparator(Segments(issues), ", ");
    // message[:-2]: Python's slice is empty when fewer than two characters remain
    message := if |message| >= 2 then message[..|message| - 2] else "";
    return Success(message);
  }

  /** `validation_exception_handler`: status 400, code "400", and the built
      message; an IndexError while building it propagates. */
  method ValidationExceptionHandler(issues: seq<ValidationIssue>) returns (r: Result<Reply, PyError>)
    ensures LocsIndexable(issues) ==>
              r == Success(Reply(HTTP_400_BAD_REQUEST, "400", Some(Literal(JoinWith(Segments(issues), ", ")))))
    ensures !LocsIndexable(issues) ==> r == Failure(IndexError)
  {
    var message := GetMessageValidation(issues);
    match message
    case Success(m) => r := Success(Reply(HTTP_400_BAD_REQUEST, "400", Some(Literal(m))));
    case Failure(e) => r := Failure(e);
  }

  /** The joined message has no trailing separator: it ends with the last issue's text. */
  lemma {:induction false} JoinEndsWithLast(parts: seq<string>, sep: string)
    requires parts != []
    ensures |JoinWith(parts, sep)| >= |parts[|parts| - 1]|
    ensures JoinWith(parts, sep)[|JoinWith(parts, sep)| - |parts[|parts| - 1]|..] == parts[|parts| - 1]
  {
  }

  /** One issue at `["body", "name"]` saying "field required" gives `/'name'/: field required`. */
  lemma SingleIssueMessage()
    ensures JoinWith(Segments([ValidationIssue([Field("body"), Field("name")], "field required")]), ", ")
            == "/'name'/: field required"
  {
  }
}
