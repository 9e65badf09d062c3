/**
 * The `aboutmyemail` submit command (cmd/aboutmyemail/main.go): From/To taken from the message
 * when not given, the submission record, the check of the submission's answer, the polling loop,
 * the callback handler, the rule for printing the result URL, and `printResponse`.
 *
 * The message parser, the network, the clock, the browser and the process exit are inputs or
 * outcomes here; the callback server's goroutine and mutex are left out.
 */
module Submit {
  import opened Wrappers
  import opened Strings
  import opened Responses

  // ---------------------------------------------------------------------------------------------
  // Header names (net/textproto)
  // ---------------------------------------------------------------------------------------------

  /** A byte allowed in a header field name: a token character of section 3.2.6 of RFC 7230. */
  predicate IsTokenChar(c: char)
  {
    IsAlnum(c) || c in "!#$%&'*+-.^_`|~"
  }

  /**
   * CanonicalMIMEHeaderKey: the first letter and every letter after a '-' upper-cased, all
   * others lower-cased; a name holding a byte that is not a token character is left unchanged.
   */
  function CanonicalKey(s: string): (r: string)
    ensures |r| == |s|
    ensures (forall i :: 0 <= i < |s| ==> IsTokenChar(s[i])) ==>
              forall i :: 0 <= i < |s| ==> r[i] == CanonicalChar(s, i)
    ensures (exists i :: 0 <= i < |s| && !IsTokenChar(s[i])) ==> r == s
  {
    if forall i :: 0 <= i < |s| ==> IsTokenChar(s[i]) then
      seq(|s|, i requires 0 <= i < |s| => CanonicalChar(s, i))
    else s
  }

  /** The character at `i` of a canonical name: upper case first and after a '-', lower case elsewhere. */
  function CanonicalChar(s: string, i: nat): char
    requires i < |s|
  {
    if i == 0 || s[i - 1] == '-' then UpperChar(s[i]) else LowerChar(s[i])
  }

  /** Two characters that lower-case alike also upper-case alike, and agree on '-' and on being token characters. */
  lemma CaseFoldChar(x: char, y: char)
    requires LowerChar(x) == LowerChar(y)
    ensures UpperChar(x) == UpperChar(y)
    ensures x == '-' <==> y == '-'
    ensures IsTokenChar(x) <==> IsTokenChar(y)
  {
  }

  /** Case mapping keeps token characters, keeps '-', and applying it twice is applying it once. */
  lemma CaseMapChar(c: char)
    ensures IsTokenChar(c) ==> IsTokenChar(UpperChar(c)) && IsTokenChar(LowerChar(c))
    ensures UpperChar(c) == '-' <==> c == '-'
    ensures LowerChar(c) == '-' <==> c == '-'
    ensures UpperChar(UpperChar(c)) == UpperChar(c) && LowerChar(LowerChar(c)) == LowerChar(c)
  {
  }

  /**
   * Header names are case-insensitive: a valid name and any name that differs from it only in
   * ASCII case canonicalise to the same key.
   */
  lemma CanonicalKeyIgnoresCase(a: string, b: string)
    requires |a| == |b|
    requires forall i :: 0 <= i < |a| ==> IsTokenChar(a[i])
    requires forall i :: 0 <= i < |a| ==> LowerChar(a[i]) == LowerChar(b[i])
    ensures CanonicalKey(a) == CanonicalKey(b)
  {
    forall i | 0 <= i < |b| ensures IsTokenChar(b[i]) {
      CaseFoldChar(a[i], b[i]);
    }
    forall i | 0 <= i < |a| ensures CanonicalKey(a)[i] == CanonicalKey(b)[i] {
      CaseFoldChar(a[i], b[i]);
      if i > 0 {
        CaseFoldChar(a[i - 1], b[i - 1]);
      }
    }
  }

  /** A canonical key is its own canonical form. */
  lemma CanonicalKeyIdempotent(s: string)
    ensures CanonicalKey(CanonicalKey(s)) == CanonicalKey(s)
  {
    if forall i :: 0 <= i < |s| ==> IsTokenChar(s[i]) {
      var r := CanonicalKey(s);
      forall i | 0 <= i < |s| ensures IsTokenChar(r[i]) {
        CaseMapChar(s[i]);
      }
      forall i | 0 <= i < |s| ensures CanonicalKey(r)[i] == r[i] {
        CaseMapChar(s[i]);
        if i > 0 {
          CaseMapChar(s[i - 1]);
        }
      }
    }
  }

  /** "ReturnPath" and "Return-Path" are different header names: the first canonicalises to "Returnpath". */
  lemma ReturnPathKeys()
    ensures CanonicalKey("ReturnPath") == "Returnpath"
    ensures CanonicalKey("Return-Path") == "Return-Path"
    ensures CanonicalKey("ReturnPath") != "Return-Path"
  {
    KeyReturnPath();
    KeyReturnDashPath();
  }

  /** The 'P' of "ReturnPath" does not follow a '-', so it is lower-cased. */
  lemma KeyReturnPath()
    ensures CanonicalKey("ReturnPath") == "Returnpath"
  {
    var s := "ReturnPath";
    assert forall i :: 0 <= i < |s| ==> IsAlnum(s[i]);
    var a := CanonicalKey(s);
    assert a[6] == LowerChar('P') == 'p';
  }

  /** "Return-Path" is already canonical. */
  lemma KeyReturnDashPath()
    ensures CanonicalKey("Return-Path") == "Return-Path"
  {
    var s := "Return-Path";
    assert forall i :: 0 <= i < |s| && i != 6 ==> IsAlnum(s[i]);
    assert IsTokenChar(s[6]);
  }

  /** "From" is already canonical. */
  lemma KeyFrom()
    ensures CanonicalKey("From") == "From"
  {
    var s := "From";
    assert forall i :: 0 <= i < |s| ==> IsAlnum(s[i]);
    assert CanonicalKey(s)[1] == LowerChar('r');
  }

  // ---------------------------------------------------------------------------------------------
  // The message (net/mail)
  // ---------------------------------------------------------------------------------------------

  /** A header's value as Header.AddressList sees it: addresses, or a value it cannot parse. */
  datatype HeaderValue = Unparsable | Addresses(addrs: seq<string>)

  /** A parsed message: its headers under their canonical names. */
  datatype Message = Message(header: map<string, HeaderValue>)

  /** Header.AddressList: the addresses of the named header; missing or unparsable is an error. */
  function AddressList(msg: Message, name: string): Result<seq<string>, string>
  {
    var key := CanonicalKey(name);
    if key !in msg.header then Err("mail: header not in message")
    else if msg.header[key].Unparsable? then Err("mail: invalid address list")
    else Ok(msg.header[key].addrs)
  }

  /** Looking a header up by a valid name or by the same name in another ASCII case gives the same answer. */
  lemma LookupIgnoresCase(msg: Message, a: string, b: string)
    requires |a| == |b|
    requires forall i :: 0 <= i < |a| ==> IsTokenChar(a[i])
    requires forall i :: 0 <= i < |a| ==> LowerChar(a[i]) == LowerChar(b[i])
    ensures AddressList(msg, a) == AddressList(msg, b)
  {
    CanonicalKeyIgnoresCase(a, b);
  }

  /** The first address of the named header, when it has one. */
  function FirstAddress(msg: Message, name: string): (r: Option<string>)
    ensures r.Some? <==> AddressList(msg, name).Ok? && |AddressList(msg, name).value| > 0
    ensures r.Some? ==> r.value == AddressList(msg, name).value[0]
  {
    match AddressList(msg, name)
    case Ok(a) => if |a| > 0 then Some(a[0]) else None
    case Err(_) => None
  }

  /**
   * The From default as the code reads it: the first address of the header named "ReturnPath"
   * (canonically "Returnpath"), else the first From address.
   */
  function DefaultFromAsWritten(from: string, msg: Option<Message>): (r: string)
    ensures from != "" || msg.None? ==> r == from
    ensures from == "" && msg.Some? && FirstAddress(msg.value, "ReturnPath").Some? ==>
              r == FirstAddress(msg.value, "ReturnPath").value
    ensures from == "" && msg.Some? && FirstAddress(msg.value, "ReturnPath").None? ==>
              r == (if FirstAddress(msg.value, "From").Some? then FirstAddress(msg.value, "From").value else "")
  {
    if from != "" || msg.None? then from
    else if FirstAddress(msg.value, "ReturnPath").Some? then FirstAddress(msg.value, "ReturnPath").value
    else if FirstAddress(msg.value, "From").Some? then FirstAddress(msg.value, "From").value
    else from
  }

  /** The From default as intended: the first Return-Path address, else the first From address. */
  function DefaultFrom(from: string, msg: Option<Message>): (r: string)
    ensures from != "" || msg.None? ==> r == from
    ensures from == "" && msg.Some? && FirstAddress(msg.value, "Return-Path").Some? ==>
              r == FirstAddress(msg.value, "Return-Path").value
    ensures from == "" && msg.Some? && FirstAddress(msg.value, "Return-Path").None? ==>
              r == (if FirstAddress(msg.value, "From").Some? then FirstAddress(msg.value, "From").value else "")
  {
    if from != "" || msg.None? then from
    else if FirstAddress(msg.value, "Return-Path").Some? then FirstAddress(msg.value, "Return-Path").value
    else if FirstAddress(msg.value, "From").Some? then FirstAddress(msg.value, "From").value
    else from
  }

  /** The To default: the first To address. */
  function DefaultTo(to: string, msg: Option<Message>): (r: string)
    ensures to != "" || msg.None? ==> r == to
    ensures to == "" && msg.Some? ==>
              r == (if FirstAddress(msg.value, "To").Some? then FirstAddress(msg.value, "To").value else "")
  {
    if to != "" || msg.None? then to
    else if FirstAddress(msg.value, "To").Some? then FirstAddress(msg.value, "To").value
    else to
  }

  /** As written, the Return-Path header is never read: changing it does not change From. */
  lemma AsWrittenIgnoresReturnPath(from: string, h: map<string, HeaderValue>, v: HeaderValue)
    ensures DefaultFromAsWritten(from, Some(Message(h["Return-Path" := v]))) == DefaultFromAsWritten(from, Some(Message(h)))
  {
    assert |CanonicalKey("ReturnPath")| != |"Return-Path"|;
    assert |CanonicalKey("From")| != |"Return-Path"|;
    OtherHeaderIrrelevant(h, "Return-Path", v, "ReturnPath");
    OtherHeaderIrrelevant(h, "Return-Path", v, "From");
  }

  /** Setting one header does not change what is read under a name that canonicalises differently. */
  lemma OtherHeaderIrrelevant(h: map<string, HeaderValue>, k: string, v: HeaderValue, name: string)
    requires CanonicalKey(name) != k
    ensures FirstAddress(Message(h[k := v]), name) == FirstAddress(Message(h), name)
  {
    assert AddressList(Message(h[k := v]), name) == AddressList(Message(h), name);
  }

  /** A message with a Return-Path and a From: the code as written takes From, the intended rule Return-Path. */
  lemma ReturnPathCounterexample()
    ensures var msg := Some(Message(map["Return-Path" := Addresses(["bounce@example.com"]),
                                        "From" := Addresses(["author@example.com"])]));
            && DefaultFromAsWritten("", msg) == "author@example.com"
            && DefaultFrom("", msg) == "bounce@example.com"
  {
    var h := map["Return-Path" := Addresses(["bounce@example.com"]), "From" := Addresses(["author@example.com"])];
    KeyReturnPath();
    KeyReturnDashPath();
    KeyFrom();
    assert "Returnpath" !in h;
    assert AddressList(Message(h), "ReturnPath").Err?;
    assert AddressList(Message(h), "From") == Ok(["author@example.com"]);
    assert AddressList(Message(h), "Return-Path") == Ok(["bounce@example.com"]);
  }

  /** The command line's options and the addresses it sends. */
  class Cli {
    var from: string
    var to: string
    const ascii: bool
    const quiet: bool
    const staged: bool
    const open: bool
    const callbacks: string

    constructor (from: string, to: string, ascii: bool, quiet: bool, staged: bool, open: bool, callbacks: string)
      ensures this.from == from && this.to == to && this.ascii == ascii && this.quiet == quiet
      ensures this.staged == staged && this.open == open && this.callbacks == callbacks
    {
      this.from := from;
      this.to := to;
      this.ascii := ascii;
      this.quiet := quiet;
      this.staged := staged;
      this.open := open;
      this.callbacks := callbacks;
    }

    /** The submission record for these options. */
    function Request(ip: string, email: string): (r: SubmitBody)
      reads this
      ensures r.from == from && r.to == to
      ensures r.progressUrl.Some? <==> !Polls(callbacks)
    {
      BuildRequest(from, to, ip, email, ascii, staged, callbacks)
    }

    /**
     * Fill From and To from the message (None: it did not parse) when they were not given; a
     * given address is kept and an unparsable message leaves both as they were.
     */
    method FillAddresses(msg: Option<Message>)
      modifies this
      ensures from == DefaultFromAsWritten(old(from), msg) && to == DefaultTo(old(to), msg)
    {
      if from == "" || to == "" {
        if msg.Some? {
          var m := msg.value;
          if from == "" {
            var returnPath := AddressList(m, "ReturnPath");
            if returnPath.Ok? && |returnPath.value| > 0 {
              from := returnPath.value[0];
            } else {
              var fromList := AddressList(m, "From");
              if fromList.Ok? && |fromList.value| > 0 {
                from := fromList.value[0];
              }
            }
          }
          if to == "" {
            var toList := AddressList(m, "To");
            if toList.Ok? && |toList.value| > 0 {
              to := toList.value[0];
            }
          }
        }
      }
    }
  }

  // ---------------------------------------------------------------------------------------------
  // The submission
  // ---------------------------------------------------------------------------------------------

  /** EmailJSONRequestBody. */
  datatype SubmitBody = SubmitBody(
    from: string, ip: string, payload: string, smtputf8: Option<bool>, to: string,
    options: Option<string>, progressUrl: Option<string>, finishedUrl: Option<string>)

  /** The address the callback server is told to post to. */
  function CallbackUrl(callbacks: string): (url: string)
    ensures HasPrefix(url, "http://") && HasSuffix(url, "/callback")
    ensures |url| == |callbacks| + 16 && url[7..|url| - 9] == callbacks
  {
    var url := "http://" + callbacks + "/callback";
    assert url[..7] == "http://";
    assert url[|url| - 9..] == "/callback";
    assert url[7..|url| - 9] == callbacks;
    url
  }

  /**
   * The request record: SMTPUTF8 unless --ascii, the "stage" option when staged, and the
   * callback URL as both progress and finished URL exactly when a callback address is given.
   */
  function BuildRequest(from: string, to: string, ip: string, email: string, ascii: bool, staged: bool,
                        callbacks: string): (r: SubmitBody)
    ensures r.from == from && r.to == to && r.ip == ip && r.payload == email
    ensures r.smtputf8 == Some(!ascii)
    ensures r.options == Some(if staged then "stage" else "")
    ensures r.progressUrl.Some? <==> callbacks != ""
    ensures r.finishedUrl == r.progressUrl
    ensures r.progressUrl.Some? ==> r.progressUrl.value == CallbackUrl(callbacks)
  {
    var body := SubmitBody(from, ip, email, Some(!ascii), to, Some(if staged then "stage" else ""), None, None);
    if callbacks != "" then body.(progressUrl := Some(CallbackUrl(callbacks)), finishedUrl := Some(CallbackUrl(callbacks)))
    else body
  }

  /** Results are polled for exactly when no callback URL was sent. */
  predicate Polls(callbacks: string)
  {
    callbacks == ""
  }

  lemma PollsIffNoCallbackUrl(from: string, to: string, ip: string, email: string, ascii: bool, staged: bool, callbacks: string)
    ensures Polls(callbacks) <==> BuildRequest(from, to, ip, email, ascii, staged, callbacks).progressUrl.None?
    ensures Polls(callbacks) <==> BuildRequest(from, to, ip, email, ascii, staged, callbacks).finishedUrl.None?
  {
  }

  // ---------------------------------------------------------------------------------------------
  // printResponse
  // ---------------------------------------------------------------------------------------------

  /**
   * An argument of printResponse as an `any`: the nil interface, or a typed pointer (possibly
   * nil) to an error record, here its message.
   */
  datatype Arg = NilInterface | Pointer(target: Option<string>)

  /** What printResponse prints: one argument JSON-encoded (a nil pointer encodes as null), or the raw body. */
  datatype Printed = Encoded(arg: Arg) | Raw(body: string)

  /** printResponse: the first argument that is not the nil interface is encoded; with none, the raw body. */
  method PrintResponse(raw: string, args: seq<Arg>) returns (out: Printed)
    ensures out == PrintedFor(raw, args)
  {
    var k := 0;
    while k < |args|
      invariant 0 <= k <= |args|
      invariant PrintedFor(raw, args) == PrintedFor(raw, args[k..])
    {
      assert args[k..][1..] == args[k + 1..];
      if !args[k].NilInterface? {
        return Encoded(args[k]);
      }
      k := k + 1;
    }
    assert args[k..] == [];
    return Raw(raw);
  }

  /**
   * What printResponse prints: the first argument that is not the nil interface, JSON-encoded;
   * the raw body when every argument is the nil interface.
   */
  function PrintedFor(raw: string, args: seq<Arg>): (out: Printed)
    ensures out.Raw? <==> forall i :: 0 <= i < |args| ==> args[i].NilInterface?
    ensures out.Raw? ==> out.body == raw
    ensures out.Encoded? ==> exists k :: 0 <= k < |args| && out.arg == args[k] && !args[k].NilInterface?
                                         && forall i :: 0 <= i < k ==> args[i].NilInterface?
  {
    if args == [] then Raw(raw)
    else if !args[0].NilInterface? then Encoded(args[0])
    else
      var rest := PrintedFor(raw, args[1..]);
      assert rest.Encoded? ==> exists k :: 0 <= k < |args| && rest.arg == args[k] && !args[k].NilInterface?
                                           && forall i :: 0 <= i < k ==> args[i].NilInterface? by {
        if rest.Encoded? {
          var k :| 0 <= k < |args[1..]| && rest.arg == args[1..][k] && !args[1..][k].NilInterface?
                   && forall i :: 0 <= i < k ==> args[1..][i].NilInterface?;
          assert forall i :: 0 <= i < k + 1 ==> args[i].NilInterface? by {
            forall i | 0 <= i < k + 1 ensures args[i].NilInterface? {
              if i > 0 { assert args[i] == args[1..][i - 1]; }
            }
          }
        }
      }
      rest
  }

  /** The call sites as written: each pointer is passed as `any`, which is never the nil interface. */
  function PassedAsWritten(p: Option<string>): (a: Arg)
    ensures !a.NilInterface? && a.target == p
  {
    Pointer(p)
  }

  /** As intended: a nil pointer counts as absent. */
  function ArgOf(p: Option<string>): (a: Arg)
    ensures a.NilInterface? <==> p.None?
    ensures a.Pointer? ==> a.target == p
  {
    if p.None? then NilInterface else Pointer(p)
  }

  /** What the rejection path prints with the arguments as written: always the first one, even a nil pointer. */
  function RejectionPrintAsWritten(raw: string, first: Option<string>, second: Option<string>): (r: Printed)
    ensures r == Encoded(Pointer(first))
  {
    PrintedFor(raw, [PassedAsWritten(first), PassedAsWritten(second)])
  }

  /** What the rejection path prints as intended: the first error present, else the raw body. */
  function RejectionPrint(raw: string, first: Option<string>, second: Option<string>): Printed
  {
    PrintedFor(raw, [ArgOf(first), ArgOf(second)])
  }

  /**
   * As written, a JSON 400 answer (no 500 record) prints "null" for the absent 500 record; its own
   * message and the raw body are never printed.
   */
  lemma RejectionAsWrittenPrintsNull(raw: string, msg400: string)
    ensures RejectionPrintAsWritten(raw, None, Some(msg400)) == Encoded(Pointer(None))
    ensures RejectionPrintAsWritten(raw, None, None) == Encoded(Pointer(None))
  {
  }

  /** As intended, the 500 record is printed if present, else the 400 record, else the raw body. */
  lemma RejectionPrintsFirstPresent(raw: string, first: Option<string>, second: Option<string>)
    ensures first.Some? ==> RejectionPrint(raw, first, second) == Encoded(Pointer(first))
    ensures first.None? && second.Some? ==> RejectionPrint(raw, first, second) == Encoded(Pointer(second))
    ensures first.None? && second.None? ==> RejectionPrint(raw, first, second) == Raw(raw)
  {
    assert [ArgOf(first), ArgOf(second)][1..] == [ArgOf(second)];
    assert [ArgOf(second)][1..] == [];
    if first.None? {
      assert PrintedFor(raw, [ArgOf(first), ArgOf(second)]) == PrintedFor(raw, [ArgOf(second)]);
    }
  }

  function MessageOf400(e: Option<N400Error>): Option<string>
  {
    if e.Some? then Some(e.value.message) else None
  }

  function MessageOf500(e: Option<N500Error>): Option<string>
  {
    if e.Some? then Some(e.value.message) else None
  }

  // ---------------------------------------------------------------------------------------------
  // The submission's answer
  // ---------------------------------------------------------------------------------------------

  /** How the submission ends, or the id to wait for. */
  datatype SubmitOutcome =
    | SubmitFailed(err: string)
    | SubmitRejected(status: string, printed: Printed)
    | SubmitNilResult
    | Accepted(id: string)

  /** The answer to the submission: not 200 is a rejection with the error printed; a 200 needs a result. */
  function SubmitAnswer(rsp: Result<EmailResponse, string>): (o: SubmitOutcome)
    ensures o.Accepted? <==> rsp.Ok? && StatusCode(rsp.value.http) == 200 && rsp.value.json200.Some?
    ensures o.Accepted? ==> o.id == rsp.value.json200.value.id
    ensures o.SubmitRejected? <==> rsp.Ok? && StatusCode(rsp.value.http) != 200
    ensures o.SubmitRejected? ==> o.status == Status(rsp.value.http)
    ensures o.SubmitRejected? ==> o.printed == RejectionPrintAsWritten(rsp.value.body, MessageOf500(rsp.value.json500), MessageOf400(rsp.value.json400))
    ensures o.SubmitFailed? <==> rsp.Err?
  {
    match rsp
    case Err(e) => SubmitFailed(e)
    case Ok(r) =>
      if StatusCode(r.http) != 200 then
        SubmitRejected(Status(r.http), RejectionPrintAsWritten(r.body, MessageOf500(r.json500), MessageOf400(r.json400)))
      else if r.json200.None? then SubmitNilResult
      else Accepted(r.json200.value.id)
  }

  /**
   * A JSON 400 rejection of the submission reports the status line and then, as written, prints
   * the absent 500 record as null instead of the server's 400 message.
   */
  lemma Submit400PrintsNull(rsp: HttpResponse)
    requires ParseEmailResponse(rsp).Ok? && JsonWith(rsp, 400)
    ensures SubmitAnswer(ParseEmailResponse(rsp)) == SubmitRejected(rsp.status, Encoded(Pointer(None)))
    ensures ParseEmailResponse(rsp).value.json400 == Some(N400Error(StringField(rsp.json.value, "message")))
  {
  }

  // ---------------------------------------------------------------------------------------------
  // Polling
  // ---------------------------------------------------------------------------------------------

  /** The result URL is printed unless both --quiet and --open are given. */
  predicate PrintsUrl(quiet: bool, open: bool)
  {
    !quiet || !open
  }

  /** One poll of the status endpoint. */
  datatype PollStep =
    | PollFailed(err: string)
    | Throttled
    | PollRejected(status: string, printed: Printed)
    | PollNilResult
    | Finished(url: string)
    | Pending

  /** Throttling and pending results poll again; every other step ends the command. */
  predicate Terminal(s: PollStep)
  {
    !s.Throttled? && !s.Pending?
  }

  /**
   * One step: a transport error is fatal; 429 retries; any other non-200 is a rejection with the
   * error printed; a 200 without a result is fatal; a non-empty URL finishes; otherwise wait.
   */
  function PollStepOf(rsp: Result<EmailStatusResponse, string>): (s: PollStep)
    ensures s.Throttled? <==> rsp.Ok? && StatusCode(rsp.value.http) == 429
    ensures s.PollRejected? <==> rsp.Ok? && StatusCode(rsp.value.http) != 429 && StatusCode(rsp.value.http) != 200
    ensures s.Finished? <==> rsp.Ok? && StatusCode(rsp.value.http) == 200 && rsp.value.json200.Some?
                             && rsp.value.json200.value.url.Some? && rsp.value.json200.value.url.value != ""
    ensures s.Finished? ==> s.url == rsp.value.json200.value.url.value
    ensures s.Pending? <==> rsp.Ok? && StatusCode(rsp.value.http) == 200 && rsp.value.json200.Some?
                            && (rsp.value.json200.value.url.None? || rsp.value.json200.value.url.value == "")
    ensures s.PollNilResult? <==> rsp.Ok? && StatusCode(rsp.value.http) == 200 && rsp.value.json200.None?
    ensures s.PollFailed? <==> rsp.Err?
    ensures s.PollRejected? ==> s.status == Status(rsp.value.http)
    ensures s.PollRejected? ==> s.printed == RejectionPrintAsWritten(rsp.value.body, MessageOf500(rsp.value.json500), MessageOf400(rsp.value.json404))
  {
    match rsp
    case Err(e) => PollFailed(e)
    case Ok(r) =>
      if StatusCode(r.http) == 429 then Throttled
      else if StatusCode(r.http) != 200 then
        PollRejected(Status(r.http), RejectionPrintAsWritten(r.body, MessageOf500(r.json500), MessageOf400(r.json404)))
      else if r.json200.None? then PollNilResult
      else if r.json200.value.url.Some? && r.json200.value.url.value != "" then Finished(r.json200.value.url.value)
      else Pending
  }

  /** How polling ends: at a terminal step (and whether its URL is printed), or still waiting. */
  datatype PollEnd = Ended(step: PollStep, urlPrinted: bool) | StillPolling

  /**
   * pollForResults over the answers the server gives, one per request for the same id: it stops
   * at the first terminal step. With the answers exhausted, it is still polling.
   */
  method PollForResults(replies: seq<Result<EmailStatusResponse, string>>, quiet: bool, open: bool)
    returns (end: PollEnd, used: nat)
    ensures used <= |replies|
    ensures forall j :: 0 <= j < used ==> !Terminal(PollStepOf(replies[j]))
    ensures used < |replies| ==> Terminal(PollStepOf(replies[used]))
    ensures used < |replies| ==> end == Ended(PollStepOf(replies[used]), PollStepOf(replies[used]).Finished? && PrintsUrl(quiet, open))
    ensures used == |replies| ==> end == StillPolling
  {
    used := 0;
    while used < |replies|
      invariant used <= |replies|
      invariant forall j :: 0 <= j < used ==> !Terminal(PollStepOf(replies[j]))
    {
      var step := PollStepOf(replies[used]);
      if step.Throttled? || step.Pending? {
        used := used + 1;
        continue;
      }
      var printed := false;
      if step.Finished? {
        if !quiet || !open {
          printed := true;
        }
      }
      return Ended(step, printed), used;
    }
    return StillPolling, used;
  }

  /**
   * A JSON 404 answer while polling reports the status line and then, as written, prints the
   * absent 500 record as null instead of the server's 404 message.
   */
  lemma Poll404PrintsNull(rsp: HttpResponse)
    requires ParseEmailStatusResponse(rsp).Ok? && JsonWith(rsp, 404)
    ensures PollStepOf(ParseEmailStatusResponse(rsp)) == PollRejected(rsp.status, Encoded(Pointer(None)))
    ensures ParseEmailStatusResponse(rsp).value.json404 == Some(N400Error(StringField(rsp.json.value, "message")))
  {
  }

  /** A throttled answer never ends polling; the next answer decides. */
  lemma ThrottledRetries(r: EmailStatusResponse)
    requires StatusCode(r.http) == 429
    ensures !Terminal(PollStepOf(Ok(r)))
  {
  }

  /** An empty URL in a 200 answer keeps polling; only a non-empty one finishes. */
  lemma EmptyUrlKeepsPolling(r: EmailStatusResponse)
    requires StatusCode(r.http) == 200 && r.json200.Some? && r.json200.value.url == Some("")
    ensures PollStepOf(Ok(r)) == Pending
  {
  }

  // ---------------------------------------------------------------------------------------------
  // The callback handler
  // ---------------------------------------------------------------------------------------------

  /** The handler's answer to one callback request. */
  datatype CallbackReply =
    | BadRequest(message: string)
    | Accepted200(decoded: bool, url: Option<string>, urlPrinted: bool)

  /**
   * One callback: only a POST whose Content-Type is exactly "application/json" is accepted; its
   * body is decoded, and a non-empty URL in it is the final result.
   */
  function CallbackReplyFor(httpMethod: string, contentType: string, body: Result<JsonObject, string>,
                            quiet: bool, open: bool): (r: CallbackReply)
    ensures r.Accepted200? <==> httpMethod == "POST" && contentType == "application/json"
    ensures httpMethod != "POST" ==> r == BadRequest("Expected POST")
    ensures httpMethod == "POST" && contentType != "application/json" ==> r == BadRequest("Expected application/json")
    ensures r.Accepted200? ==> (r.decoded <==> body.Ok?)
    ensures r.Accepted200? && r.url.Some? ==> body.Ok? && r.url == ToStatusResult(body.value).url && r.url.value != ""
    ensures r.Accepted200? ==> (r.urlPrinted <==> r.url.Some? && PrintsUrl(quiet, open))
  {
    if httpMethod != "POST" then BadRequest("Expected POST")
    else if contentType != "application/json" then BadRequest("Expected application/json")
    else
      match body
      case Err(_) => Accepted200(false, None, false)
      case Ok(o) =>
        var url := ToStatusResult(o).url;
        if url.Some? && url.value != "" then Accepted200(true, url, PrintsUrl(quiet, open))
        else Accepted200(true, None, false)
  }

  /** A JSON type with parameters is not accepted: the comparison is exact. */
  lemma ContentTypeIsExact(body: Result<JsonObject, string>, quiet: bool, open: bool)
    ensures CallbackReplyFor("POST", "application/json; charset=utf-8", body, quiet, open) == BadRequest("Expected application/json")
  {
  }

  /** The callback server: the sequence counter and whether it has been shut down. */
  class CallbackServer {
    var counter: int
    var shut: bool

    constructor ()
      ensures counter == 1 && !shut
    {
      counter := 1;
      shut := false;
    }

    /**
     * Handle one request: every request, rejected or not, takes the next sequence number; the
     * server shuts down once a final URL arrives.
     */
    method Handle(httpMethod: string, contentType: string, body: Result<JsonObject, string>, quiet: bool, open: bool)
      returns (reply: CallbackReply, cnt: int)
      modifies this
      ensures cnt == old(counter) && counter == old(counter) + 1
      ensures reply == CallbackReplyFor(httpMethod, contentType, body, quiet, open)
      ensures shut == (old(shut) || (reply.Accepted200? && reply.url.Some?))
    {
      cnt := counter;
      counter := counter + 1;
      reply := CallbackReplyFor(httpMethod, contentType, body, quiet, open);
      if reply.Accepted200? && reply.url.Some? {
        shut := true;
      }
    }
  }
}
