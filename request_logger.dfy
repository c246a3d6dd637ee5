/**
 * GrpcRequestLogger (topo/switch.py:140-168): a gRPC client interceptor
 * that appends one text record per outbound unary-unary or unary-stream
 * call to a log file, then forwards the call unchanged.
 *
 * The clock is a parameter (`ts`, the already formatted UTC timestamp) and
 * the file is the text it holds. The partner of `LogRecord` is
 * `ParseRecord`, which recovers the timestamp, the method name and the
 * logged body from a record; `OmittedLength` recovers the byte count from
 * an omission notice.
 */
module RequestLogger {
  import opened Wrappers

  /** MSG_LOG_MAX_LEN (switch.py:11). */
  const MsgLogMaxLen: nat := 1024

  /** The line that opens and closes a record's body. */
  const Rule: string := "---\n"

  const NoticePrefix: string := "Message too long ("
  const NoticeSuffix: string := " bytes)! Skipping log...\n"

  function DigitChar(d: nat): char
    requires d < 10
  {
    ('0' as int + d) as char
  }

  function DigitValue(c: char): nat
  {
    if '0' <= c <= '9' then (c - '0') as nat else 0
  }

  predicate IsDigits(s: string)
  {
    forall i :: 0 <= i < |s| ==> '0' <= s[i] <= '9'
  }

  /** Python's `%d` of a natural number: its decimal digits, no leading zero. */
  function DecimalString(n: nat): (s: string)
    ensures |s| >= 1 && IsDigits(s)
    ensures s[0] == '0' ==> n == 0
    decreases n
  {
    if n < 10 then [DigitChar(n)] else DecimalString(n / 10) + [DigitChar(n % 10)]
  }

  /** The value of a string of decimal digits. */
  function ParseDecimal(s: string): nat
  {
    if s == [] then 0 else ParseDecimal(s[..|s| - 1]) * 10 + DigitValue(s[|s| - 1])
  }

  lemma {:induction false} ParseDecimalString(n: nat)
    ensures ParseDecimal(DecimalString(n)) == n
    decreases n
  {
    var s := DecimalString(n);
    if n >= 10 {
      ParseDecimalString(n / 10);
      assert s[..|s| - 1] == DecimalString(n / 10);
    }
  }

  /** The notice written in place of a body of `n` characters. */
  function OmissionNotice(n: nat): string
  {
    NoticePrefix + DecimalString(n) + NoticeSuffix
  }

  /** What a record shows of a rendered body: the body itself while shorter than the cap, else the notice. */
  function LoggedBody(body: string): string
  {
    if |body| < MsgLogMaxLen then body else OmissionNotice(|body|)
  }

  /** The text log_message appends (switch.py:151-160). */
  function LogRecord(ts: string, methodName: string, body: string): string
  {
    "\n[" + ts + "] " + methodName + "\n" + Rule + LoggedBody(body) + Rule
  }

  /** The first position of `c` in `s`, or |s| when it does not occur. */
  function IndexOf(s: string, c: char): (i: nat)
    ensures i <= |s|
    ensures i < |s| ==> s[i] == c
    ensures forall j :: 0 <= j < i ==> s[j] != c
  {
    if s == [] then 0 else if s[0] == c then 0 else 1 + IndexOf(s[1..], c)
  }

  datatype ParsedRecord = ParsedRecord(timestamp: string, methodName: string, content: string)

  /** Read one record back: a blank line, `[ts] method`, `---`, the content, `---`. */
  function ParseRecord(r: string): Option<ParsedRecord>
  {
    if |r| < 2 || r[..2] != "\n[" then None
    else
      var rest := r[2..];
      var i := IndexOf(rest, ']');
      if i + 1 >= |rest| || rest[i + 1] != ' ' then None
      else match ParseMethodLine(rest[i + 2..])
        case None => None
        case Some(mc) => Some(ParsedRecord(rest[..i], mc.0, mc.1))
  }

  /** The method name up to the end of the header line, and the framed content after it. */
  function ParseMethodLine(s: string): Option<(string, string)>
  {
    var j := IndexOf(s, '\n');
    if j >= |s| then None
    else match ParseFramed(s[j + 1..])
      case None => None
      case Some(c) => Some((s[..j], c))
  }

  /** The content between an opening and a closing `---` line. */
  function ParseFramed(s: string): Option<string>
  {
    if |s| < 2 * |Rule| || s[..|Rule|] != Rule || s[|s| - |Rule|..] != Rule then None
    else Some(s[|Rule|..|s| - |Rule|])
  }

  /** The byte count an omission notice reports, or None when `content` is not one. */
  function OmittedLength(content: string): Option<nat>
  {
    if |content| >= |NoticePrefix| + |NoticeSuffix|
       && content[..|NoticePrefix|] == NoticePrefix
       && content[|content| - |NoticeSuffix|..] == NoticeSuffix
    then Some(ParseDecimal(content[|NoticePrefix|..|content| - |NoticeSuffix|]))
    else None
  }

  /** The position of the first `c` in `a + [c] + b` when `a` has none. */
  lemma IndexOfAfter(a: string, c: char, b: string)
    requires c !in a
    ensures IndexOf(a + [c] + b, c) == |a|
  {
    assert (a + [c] + b)[|a|] == c;
  }

  lemma ParseFramedRule(l: string)
    ensures ParseFramed(Rule + l + Rule) == Some(l)
  {
    var s := Rule + l + Rule;
    assert s[..|Rule|] == Rule;
    assert s[|s| - |Rule|..] == Rule;
    assert s[|Rule|..|s| - |Rule|] == l;
  }

  lemma ParseMethodLineOf(methodName: string, l: string)
    requires '\n' !in methodName
    ensures ParseMethodLine(methodName + "\n" + Rule + l + Rule) == Some((methodName, l))
  {
    var framed := Rule + l + Rule;
    var s := methodName + "\n" + Rule + l + Rule;
    assert s == methodName + ['\n'] + framed;
    IndexOfAfter(methodName, '\n', framed);
    assert s[..|methodName|] == methodName;
    assert s[|methodName| + 1..] == framed;
    ParseFramedRule(l);
  }

  /** An omission notice reports the length it was made for. */
  lemma OmittedLengthNotice(n: nat)
    ensures OmittedLength(OmissionNotice(n)) == Some(n)
  {
    var d := DecimalString(n);
    var c := OmissionNotice(n);
    assert c[..|NoticePrefix|] == NoticePrefix;
    assert c[|c| - |NoticeSuffix|..] == NoticeSuffix;
    assert c[|NoticePrefix|..|c| - |NoticeSuffix|] == d;
    ParseDecimalString(n);
  }

  /**
   * A record written for (ts, method, body) reads back as ts and method,
   * then the body itself when it is shorter than 1024 characters, else a
   * notice reporting its length.
   */
  lemma LogRecordReadsBack(ts: string, methodName: string, body: string)
    requires ']' !in ts && '\n' !in methodName
    ensures ParseRecord(LogRecord(ts, methodName, body)) == Some(ParsedRecord(ts, methodName, LoggedBody(body)))
    ensures |body| < MsgLogMaxLen ==> LoggedBody(body) == body
    ensures |body| >= MsgLogMaxLen ==> OmittedLength(LoggedBody(body)) == Some(|body|)
  {
    var l := LoggedBody(body);
    var after := methodName + "\n" + Rule + l + Rule;
    assert LogRecord(ts, methodName, body) == "\n[" + ts + "] " + after;
    ParseMethodLineOf(methodName, l);
    ParseHeaderOf(ts, after);
    if |body| >= MsgLogMaxLen {
      OmittedLengthNotice(|body|);
    }
  }

  /** The header line reads back as the timestamp, with the rest parsed as method line and content. */
  lemma ParseHeaderOf(ts: string, after: string)
    requires ']' !in ts
    ensures ParseRecord("\n[" + ts + "] " + after) ==
      if ParseMethodLine(after).Some?
      then Some(ParsedRecord(ts, ParseMethodLine(after).value.0, ParseMethodLine(after).value.1))
      else None
  {
    var rest := ts + "] " + after;
    var r := "\n[" + rest;
    assert "\n[" + ts + "] " + after == r;
    assert r[..2] == "\n[" && r[2..] == rest;
    assert rest == ts + [']'] + (" " + after);
    IndexOfAfter(ts, ']', " " + after);
    assert rest[..|ts|] == ts;
    assert rest[|ts| + 2..] == after;
  }

  /** `%d` of 1024 is the text "1024". */
  lemma DecimalString1024()
    ensures DecimalString(1024) == "1024"
  {
    assert DecimalString(1) == "1";
    assert DecimalString(10) == "10";
    assert DecimalString(102) == "102";
  }

  /** The cap is strict: 1023 characters are logged in full, 1024 are not. */
  lemma LogThreshold(short: string, long: string)
    requires |short| == 1023 && |long| == 1024
    ensures LoggedBody(short) == short
    ensures LoggedBody(long) == NoticePrefix + "1024" + NoticeSuffix
  {
    DecimalString1024();
  }

  /** grpc.ClientCallDetails, of which only the method name is read. */
  datatype CallDetails = CallDetails(methodName: string)

  class GrpcRequestLogger {
    /** The path of the log file. */
    const logFile: string
    /** The text the log file holds. */
    var contents: string

    /** Opening the file with mode 'w' truncates it. */
    constructor (logFile: string)
      ensures this.logFile == logFile && contents == ""
    {
      this.logFile := logFile;
      contents := "";
    }

    /** log_message: append one record; the file is never truncated again. */
    method LogMessage(ts: string, methodName: string, body: string)
      modifies this
      ensures contents == old(contents) + LogRecord(ts, methodName, body)
    {
      contents := contents + LogRecord(ts, methodName, body);
    }

    /**
     * intercept_unary_unary: log the rendered request (`render` stands for
     * str() of a protobuf message), then forward it unchanged.
     */
    method InterceptUnaryUnary<Req, Resp>(continuation: (CallDetails, Req) -> Resp, details: CallDetails,
                                          request: Req, render: Req -> string, ts: string)
      returns (response: Resp)
      modifies this
      ensures contents == old(contents) + LogRecord(ts, details.methodName, render(request))
      ensures response == continuation(details, request)
    {
      LogMessage(ts, details.methodName, render(request));
      response := continuation(details, request);
    }

    /** intercept_unary_stream: the same, for a call whose response is a stream. */
    method InterceptUnaryStream<Req, Resp>(continuation: (CallDetails, Req) -> seq<Resp>, details: CallDetails,
                                           request: Req, render: Req -> string, ts: string)
      returns (responses: seq<Resp>)
      modifies this
      ensures contents == old(contents) + LogRecord(ts, details.methodName, render(request))
      ensures responses == continuation(details, request)
    {
      LogMessage(ts, details.methodName, render(request));
      responses := continuation(details, request);
    }
  }
}
