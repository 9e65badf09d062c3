/**
 * Client construction and request editing (api_client.gen.go and api.go): options applied in
 * order to a `Client`, the trailing-slash normalisation of the server, the default transport,
 * request editors run client-level first, the option list `New` builds from the environment,
 * and the resolution of the relative operation paths against the server.
 *
 * Options and editors are Go closures; here each is one of the kinds the package creates, plus
 * `Failing`/`Refuse` for a caller-supplied closure that returns an error.
 */
module Client {
  import opened Wrappers
  import opened Strings

  const ApiEndpoint: string := "https://api.aboutmy.email/api/v1"
  const Authorization: string := "Authorization"

  /** The transport that performs requests: the default `http.Client` or one supplied by the caller. */
  datatype Doer = DefaultHttpClient | CustomDoer(id: nat)

  /** Request headers: canonical name to values. */
  type Request = map<string, seq<string>>

  /** A request editor: sets a header (Header.Set) or fails with an error. */
  datatype Editor = SetHeader(name: string, value: string) | Refuse(err: string)

  /** A client option; WithHTTPClient's doer may be nil (None). */
  datatype ClientOption =
    | DoNothing
    | BaseURL(url: string)
    | HttpClient(doer: Option<Doer>)
    | RequestEditor(editor: Editor)
    | Failing(err: string)

  /** The fields of a Client. */
  datatype Config = Config(server: string, doer: Option<Doer>, editors: seq<Editor>)

  // ---------------------------------------------------------------------------------------------
  // Options
  // ---------------------------------------------------------------------------------------------

  /** What one option does to the client. */
  function ApplyOption(c: Config, o: ClientOption): Result<Config, string>
  {
    match o
    case DoNothing => Ok(c)
    case BaseURL(u) => Ok(c.(server := u))
    case HttpClient(d) => Ok(c.(doer := d))
    case RequestEditor(e) => Ok(c.(editors := c.editors + [e]))
    case Failing(e) => Err(e)
  }

  /** The options applied in order; the first error ends the construction. */
  function Configure(c: Config, opts: seq<ClientOption>): Result<Config, string>
    decreases |opts|
  {
    if opts == [] then Ok(c)
    else
      match ApplyOption(c, opts[0])
      case Err(e) => Err(e)
      case Ok(c') => Configure(c', opts[1..])
  }

  /** The defaults NewClient installs after the options: a trailing '/' and the default transport. */
  function Finish(c: Config): (r: Config)
    ensures HasSuffix(r.server, "/")
    ensures r.server == c.server || r.server == c.server + "/"
    ensures HasSuffix(c.server, "/") ==> r.server == c.server
    ensures r.doer.Some? && (c.doer.Some? ==> r.doer == c.doer)
    ensures r.editors == c.editors
  {
    var server := if HasSuffix(c.server, "/") then c.server else c.server + "/";
    assert HasSuffix(server, "/") by {
      if !HasSuffix(c.server, "/") {
        assert server[|server| - 1..] == "/";
      }
    }
    Config(server, if c.doer.None? then Some(DefaultHttpClient) else c.doer, c.editors)
  }

  /** NewClient's result. */
  function NewClientSpec(server: string, opts: seq<ClientOption>): Result<Config, string>
  {
    match Configure(Config(server, None, []), opts)
    case Err(e) => Err(e)
    case Ok(c) => Ok(Finish(c))
  }

  /** Applying `a` and then `b` is applying `a + b`. */
  lemma {:induction false} ConfigureAppend(c: Config, a: seq<ClientOption>, b: seq<ClientOption>)
    ensures Configure(c, a + b) == match Configure(c, a)
                                   case Err(e) => Err(e)
                                   case Ok(c') => Configure(c', b)
    decreases |a|
  {
    if a != [] {
      assert (a + b)[0] == a[0];
      assert (a + b)[1..] == a[1..] + b;
      if ApplyOption(c, a[0]).Ok? {
        ConfigureAppend(ApplyOption(c, a[0]).value, a[1..], b);
      }
    } else {
      assert a + b == b;
    }
  }

  /** The first option that fails aborts construction with its error, whatever follows it. */
  lemma FirstErrorAborts(server: string, opts: seq<ClientOption>, i: nat)
    requires i < |opts| && opts[i].Failing?
    requires forall j :: 0 <= j < i ==> !opts[j].Failing?
    ensures NewClientSpec(server, opts) == Err(opts[i].err)
  {
    var c0 := Config(server, None, []);
    NoFailingConfigures(c0, opts[..i]);
    assert opts == opts[..i] + ([opts[i]] + opts[i + 1..]);
    ConfigureAppend(c0, opts[..i], [opts[i]] + opts[i + 1..]);
  }

  /** Options none of which fails always configure. */
  lemma {:induction false} NoFailingConfigures(c: Config, opts: seq<ClientOption>)
    requires forall j :: 0 <= j < |opts| ==> !opts[j].Failing?
    ensures Configure(c, opts).Ok?
    decreases |opts|
  {
    if opts != [] {
      NoFailingConfigures(ApplyOption(c, opts[0]).value, opts[1..]);
    }
  }

  /** Without an option that sets a transport, the transport is the one already there. */
  lemma {:induction false} ConfigureKeepsDoer(c: Config, opts: seq<ClientOption>)
    requires forall j :: 0 <= j < |opts| ==> !opts[j].HttpClient?
    ensures Configure(c, opts).Ok? ==> Configure(c, opts).value.doer == c.doer
    decreases |opts|
  {
    if opts != [] && ApplyOption(c, opts[0]).Ok? {
      ConfigureKeepsDoer(ApplyOption(c, opts[0]).value, opts[1..]);
    }
  }

  /** Without an option that sets the server, the server is the one already there. */
  lemma {:induction false} ConfigureKeepsServer(c: Config, opts: seq<ClientOption>)
    requires forall j :: 0 <= j < |opts| ==> !opts[j].BaseURL?
    ensures Configure(c, opts).Ok? ==> Configure(c, opts).value.server == c.server
    decreases |opts|
  {
    if opts != [] && ApplyOption(c, opts[0]).Ok? {
      ConfigureKeepsServer(ApplyOption(c, opts[0]).value, opts[1..]);
    }
  }

  /**
   * The default transport is installed when no option supplies one; otherwise the last doer set
   * is kept, unless it is nil, which again leaves the default.
   */
  lemma DefaultDoerOnlyWhenNoneSet(server: string, opts: seq<ClientOption>, pre: seq<ClientOption>, d: Option<Doer>, post: seq<ClientOption>)
    ensures (forall j :: 0 <= j < |opts| ==> !opts[j].HttpClient?) && NewClientSpec(server, opts).Ok? ==>
              NewClientSpec(server, opts).value.doer == Some(DefaultHttpClient)
    ensures (forall j :: 0 <= j < |post| ==> !post[j].HttpClient?) ==>
              var r := NewClientSpec(server, pre + [HttpClient(d)] + post);
              r.Ok? ==> r.value.doer == (if d.Some? then d else Some(DefaultHttpClient))
  {
    var c0 := Config(server, None, []);
    if forall j :: 0 <= j < |opts| ==> !opts[j].HttpClient? {
      ConfigureKeepsDoer(c0, opts);
    }
    if forall j :: 0 <= j < |post| ==> !post[j].HttpClient? {
      ConfigureAppend(c0, pre + [HttpClient(d)], post);
      ConfigureAppend(c0, pre, [HttpClient(d)]);
      if Configure(c0, pre).Ok? {
        ConfigureKeepsDoer(Configure(c0, pre).value.(doer := d), post);
      }
    }
  }

  /**
   * After a successful construction the server ends in '/'; it is the last server an option set
   * (or the one given), with a '/' appended only when it did not already end in one.
   */
  lemma ServerNormalised(server: string, pre: seq<ClientOption>, u: string, post: seq<ClientOption>)
    ensures NewClientSpec(server, pre).Ok? ==> HasSuffix(NewClientSpec(server, pre).value.server, "/")
    ensures (forall j :: 0 <= j < |post| ==> !post[j].BaseURL?) ==>
              var r := NewClientSpec(server, pre + [BaseURL(u)] + post);
              r.Ok? ==> (if HasSuffix(u, "/") then r.value.server == u else r.value.server == u + "/")
  {
    var c0 := Config(server, None, []);
    if forall j :: 0 <= j < |post| ==> !post[j].BaseURL? {
      ConfigureAppend(c0, pre + [BaseURL(u)], post);
      ConfigureAppend(c0, pre, [BaseURL(u)]);
      if Configure(c0, pre).Ok? {
        ConfigureKeepsServer(Configure(c0, pre).value.(server := u), post);
      }
    }
  }

  // ---------------------------------------------------------------------------------------------
  // Editors
  // ---------------------------------------------------------------------------------------------

  /** The editors run in order on the request; the first error ends the run. */
  function RunEditors(req: Request, eds: seq<Editor>): Result<Request, string>
    decreases |eds|
  {
    if eds == [] then Ok(req)
    else
      match eds[0]
      case Refuse(e) => Err(e)
      case SetHeader(n, v) => RunEditors(req[n := [v]], eds[1..])
  }

  /** Running `a` and then `b` is running `a + b`. */
  lemma {:induction false} RunEditorsAppend(req: Request, a: seq<Editor>, b: seq<Editor>)
    ensures RunEditors(req, a + b) == match RunEditors(req, a)
                                      case Err(e) => Err(e)
                                      case Ok(r) => RunEditors(r, b)
    decreases |a|
  {
    if a != [] {
      assert (a + b)[0] == a[0];
      assert (a + b)[1..] == a[1..] + b;
      if a[0].SetHeader? {
        RunEditorsAppend(req[a[0].name := [a[0].value]], a[1..], b);
      }
    } else {
      assert a + b == b;
    }
  }

  /** The first editor that fails decides the result; the editors after it never run. */
  lemma EditorErrorStops(req: Request, a: seq<Editor>, e: string, b1: seq<Editor>, b2: seq<Editor>)
    requires RunEditors(req, a).Ok?
    ensures RunEditors(req, a + [Refuse(e)] + b1) == Err(e)
    ensures RunEditors(req, a + [Refuse(e)] + b1) == RunEditors(req, a + [Refuse(e)] + b2)
  {
    RunEditorsAppend(req, a + [Refuse(e)], b1);
    RunEditorsAppend(req, a + [Refuse(e)], b2);
    RunEditorsAppend(req, a, [Refuse(e)]);
  }

  /** Of two editors setting the same header, the later one's value is what the request keeps. */
  lemma LaterSetWins(req: Request, n: string, v1: string, v2: string)
    ensures RunEditors(req, [SetHeader(n, v1), SetHeader(n, v2)]) == Ok(req[n := [v2]])
  {
    assert [SetHeader(n, v1), SetHeader(n, v2)][1..] == [SetHeader(n, v2)];
    assert [SetHeader(n, v2)][1..] == [];
    var r1 := req[n := [v1]];
    assert r1[n := [v2]] == req[n := [v2]];
    assert RunEditors(r1, [SetHeader(n, v2)]) == RunEditors(r1[n := [v2]], []);
  }

  // ---------------------------------------------------------------------------------------------
  // The client object
  // ---------------------------------------------------------------------------------------------

  class Client {
    var server: string
    var doer: Option<Doer>
    var editors: seq<Editor>

    function State(): Config
      reads this
    {
      Config(server, doer, editors)
    }

    constructor (server: string)
      ensures State() == Config(server, None, [])
    {
      this.server := server;
      this.doer := None;
      this.editors := [];
    }

    /** Runs one option on this client; a failing option leaves it as it was. */
    method Apply(o: ClientOption) returns (err: Option<string>)
      modifies this
      ensures ApplyOption(old(State()), o).Ok? ==> err.None? && State() == ApplyOption(old(State()), o).value
      ensures ApplyOption(old(State()), o).Err? ==> err == Some(ApplyOption(old(State()), o).error) && State() == old(State())
    {
      err := None;
      match o {
        case DoNothing =>
        case BaseURL(u) => server := u;
        case HttpClient(d) => doer := d;
        case RequestEditor(e) => editors := editors + [e];
        case Failing(e) => err := Some(e);
      }
    }

    /** NewClient: the options in order, then the trailing '/' and the default transport. */
    static method NewClient(server: string, opts: seq<ClientOption>) returns (c: Client?, err: Option<string>)
      ensures NewClientSpec(server, opts).Ok? ==> err.None? && c != null && fresh(c) && c.State() == NewClientSpec(server, opts).value
      ensures NewClientSpec(server, opts).Err? ==> c == null && err == Some(NewClientSpec(server, opts).error)
    {
      var client := new Client(server);
      var i := 0;
      while i < |opts|
        invariant 0 <= i <= |opts|
        invariant Configure(Config(server, None, []), opts) == Configure(client.State(), opts[i..])
      {
        assert opts[i..][1..] == opts[i + 1..];
        var e := client.Apply(opts[i]);
        if e.Some? {
          return null, e;
        }
        i := i + 1;
      }
      assert opts[i..] == [];
      if !HasSuffix(client.server, "/") {
        client.server := client.server + "/";
      }
      if client.doer.None? {
        client.doer := Some(DefaultHttpClient);
      }
      return client, None;
    }

    /** applyEditors: the client's editors, then the call's own, stopping at the first error. */
    method ApplyEditors(req: Request, additional: seq<Editor>) returns (r: Result<Request, string>)
      ensures r == RunEditors(req, editors + additional)
    {
      RunEditorsAppend(req, editors, additional);
      var cur := req;
      var i := 0;
      while i < |editors|
        invariant 0 <= i <= |editors|
        invariant RunEditors(req, editors) == RunEditors(cur, editors[i..])
      {
        assert editors[i..][1..] == editors[i + 1..];
        match editors[i] {
          case Refuse(e) => return Err(e);
          case SetHeader(n, v) => cur := cur[n := [v]];
        }
        i := i + 1;
      }
      assert editors[i..] == [];
      i := 0;
      while i < |additional|
        invariant 0 <= i <= |additional|
        invariant RunEditors(req, editors + additional) == RunEditors(cur, additional[i..])
      {
        assert additional[i..][1..] == additional[i + 1..];
        match additional[i] {
          case Refuse(e) => return Err(e);
          case SetHeader(n, v) => cur := cur[n := [v]];
        }
        i := i + 1;
      }
      assert additional[i..] == [];
      return Ok(cur);
    }
  }

  // ---------------------------------------------------------------------------------------------
  // api.go
  // ---------------------------------------------------------------------------------------------

  /** WithApiKey: an editor setting "Authorization: Bearer <key>", or nothing for an empty key. */
  function WithApiKey(key: string): (o: ClientOption)
    ensures key == "" <==> o == DoNothing
  {
    if key == "" then DoNothing else RequestEditor(SetHeader(Authorization, "Bearer " + key))
  }

  /** WithServer: sets the server, or nothing for an empty endpoint. */
  function WithServer(endpoint: string): (o: ClientOption)
    ensures endpoint == "" <==> o == DoNothing
  {
    if endpoint == "" then DoNothing else BaseURL(endpoint)
  }

  /** The option list New passes on: the environment's API key, then its server, then the caller's. */
  function EnvOptions(envServer: string, envKey: string, opts: seq<ClientOption>): (r: seq<ClientOption>)
    ensures |r| == |opts| + (if envServer == "" then 0 else 1) + (if envKey == "" then 0 else 1)
    ensures r[|r| - |opts|..] == opts
    ensures r[..|r| - |opts|] == (if envKey != "" then [WithApiKey(envKey)] else [])
                                + (if envServer != "" then [WithServer(envServer)] else [])
  {
    var withServer := if envServer != "" then [WithServer(envServer)] + opts else opts;
    if envKey != "" then [WithApiKey(envKey)] + withServer else withServer
  }

  /** New: NewClient on the public endpoint with the environment's options first. */
  function New(envServer: string, envKey: string, opts: seq<ClientOption>): Result<Config, string>
  {
    NewClientSpec(ApiEndpoint, EnvOptions(envServer, envKey, opts))
  }

  /** Empty keys and endpoints leave the client as it is. */
  lemma EmptyOptionsAreNoOps(c: Config)
    ensures ApplyOption(c, WithApiKey("")) == Ok(c)
    ensures ApplyOption(c, WithServer("")) == Ok(c)
  {
  }

  /** A non-empty key adds one editor, which sets Authorization to exactly "Bearer " + key. */
  lemma ApiKeyEditor(c: Config, key: string, req: Request)
    requires key != ""
    ensures ApplyOption(c, WithApiKey(key)) == Ok(c.(editors := c.editors + [SetHeader("Authorization", "Bearer " + key)]))
    ensures RunEditors(req, [SetHeader("Authorization", "Bearer " + key)]) == Ok(req["Authorization" := ["Bearer " + key]])
  {
    assert [SetHeader("Authorization", "Bearer " + key)][1..] == [];
  }

  /** With nothing from the environment and no options, the client talks to the public endpoint. */
  lemma DefaultEndpoint()
    ensures New("", "", []) == Ok(Config("https://api.aboutmy.email/api/v1/", Some(DefaultHttpClient), []))
  {
    assert EnvOptions("", "", []) == [];
    assert !HasSuffix(ApiEndpoint, "/") by {
      assert ApiEndpoint[|ApiEndpoint| - 1..] == "1";
    }
    assert ApiEndpoint + "/" == "https://api.aboutmy.email/api/v1/";
  }

  /** A server given by the caller overrides the environment's. */
  lemma CallerServerWins(envServer: string, envKey: string, u: string)
    requires u != ""
    ensures New(envServer, envKey, [WithServer(u)]).Ok?
    ensures var s := New(envServer, envKey, [WithServer(u)]).value.server;
            if HasSuffix(u, "/") then s == u else s == u + "/"
  {
    var opts := EnvOptions(envServer, envKey, [WithServer(u)]);
    var pre := opts[..|opts| - 1];
    assert opts == pre + [BaseURL(u)] + [];
    ServerNormalised(ApiEndpoint, pre, u, []);
    NoFailingConfigures(Config(ApiEndpoint, None, []), opts);
  }

  /**
   * A key given by the caller overrides the environment's, whatever else the caller and the
   * environment pass: both editors are installed, the environment's first, so the caller's value
   * is the one the request carries.
   */
  lemma CallerKeyWins(envServer: string, envKey: string, pre: seq<ClientOption>, key: string,
                      post: seq<ClientOption>, req: Request)
    requires key != ""
    requires forall j :: 0 <= j < |pre| ==> !pre[j].RequestEditor? && !pre[j].Failing?
    requires forall j :: 0 <= j < |post| ==> !post[j].RequestEditor? && !post[j].Failing?
    ensures New(envServer, envKey, pre + [WithApiKey(key)] + post).Ok?
    ensures var eds := New(envServer, envKey, pre + [WithApiKey(key)] + post).value.editors;
            RunEditors(req, eds) == Ok(req["Authorization" := ["Bearer " + key]])
  {
    var opts := pre + [WithApiKey(key)] + post;
    var env := EnvOptions(envServer, envKey, []);
    EnvPrefix(envServer, envKey, opts);
    CallerEditors(pre, key, post);
    EnvEditors(envServer, envKey);
    NoFailingAppend(env, opts);
    ConfigureEditors(Config(ApiEndpoint, None, []), env + opts);
    OptionEditorsAppend(env, opts);
    var eds := New(envServer, envKey, opts).value.editors;
    assert eds == [] + OptionEditors(env + opts);
    if envKey != "" {
      var e1 := SetHeader(Authorization, "Bearer " + envKey);
      var e2 := SetHeader(Authorization, "Bearer " + key);
      assert eds == [e1] + [e2];
      assert [e1] + [e2] == [e1, e2];
      LaterSetWins(req, Authorization, "Bearer " + envKey, "Bearer " + key);
      assert RunEditors(req, eds) == Ok(req[Authorization := ["Bearer " + key]]);
    } else {
      var e2 := SetHeader(Authorization, "Bearer " + key);
      assert OptionEditors(env + opts) == [e2];
      assert [e2][1..] == [];
      assert RunEditors(req, [e2]) == RunEditors(req[Authorization := ["Bearer " + key]], []);
    }
  }

  /** The environment's options come first, before the caller's, and none of them fails. */
  lemma EnvPrefix(envServer: string, envKey: string, opts: seq<ClientOption>)
    ensures EnvOptions(envServer, envKey, opts) == EnvOptions(envServer, envKey, []) + opts
    ensures forall j :: 0 <= j < |EnvOptions(envServer, envKey, [])| ==> !EnvOptions(envServer, envKey, [])[j].Failing?
  {
    var full := EnvOptions(envServer, envKey, opts);
    assert full == full[..|full| - |opts|] + full[|full| - |opts|..];
  }

  /** The environment installs at most the editor of its own key. */
  lemma EnvEditors(envServer: string, envKey: string)
    ensures OptionEditors(EnvOptions(envServer, envKey, [])) ==
              (if envKey != "" then [SetHeader(Authorization, "Bearer " + envKey)] else [])
  {
    var rest := if envServer != "" then [WithServer(envServer)] else [];
    NoEditors(rest);
    if envKey != "" {
      var e1 := RequestEditor(SetHeader(Authorization, "Bearer " + envKey));
      assert EnvOptions(envServer, envKey, []) == [e1] + rest;
      assert ([e1] + rest)[1..] == rest;
    } else {
      assert EnvOptions(envServer, envKey, []) == rest;
    }
  }

  /** Caller options around WithApiKey that install no editor leave only the key's editor. */
  lemma CallerEditors(pre: seq<ClientOption>, key: string, post: seq<ClientOption>)
    requires key != ""
    requires forall j :: 0 <= j < |pre| ==> !pre[j].RequestEditor? && !pre[j].Failing?
    requires forall j :: 0 <= j < |post| ==> !post[j].RequestEditor? && !post[j].Failing?
    ensures OptionEditors(pre + [WithApiKey(key)] + post) == [SetHeader(Authorization, "Bearer " + key)]
    ensures forall j :: 0 <= j < |pre + [WithApiKey(key)] + post| ==> !(pre + [WithApiKey(key)] + post)[j].Failing?
  {
    OptionEditorsAppend(pre + [WithApiKey(key)], post);
    OptionEditorsAppend(pre, [WithApiKey(key)]);
    NoEditors(pre);
    NoEditors(post);
    assert [WithApiKey(key)][1..] == [];
    NoFailingAppend(pre, [WithApiKey(key)]);
    NoFailingAppend(pre + [WithApiKey(key)], post);
  }

  lemma NoFailingAppend(a: seq<ClientOption>, b: seq<ClientOption>)
    requires forall j :: 0 <= j < |a| ==> !a[j].Failing?
    requires forall j :: 0 <= j < |b| ==> !b[j].Failing?
    ensures forall j :: 0 <= j < |a + b| ==> !(a + b)[j].Failing?
  {
    forall j | 0 <= j < |a + b| ensures !(a + b)[j].Failing? {
      if j >= |a| {
        assert (a + b)[j] == b[j - |a|];
      }
    }
  }

  /** The request editors the options install, in order. */
  function OptionEditors(opts: seq<ClientOption>): seq<Editor>
    decreases |opts|
  {
    if opts == [] then []
    else (if opts[0].RequestEditor? then [opts[0].editor] else []) + OptionEditors(opts[1..])
  }

  lemma {:induction false} OptionEditorsAppend(a: seq<ClientOption>, b: seq<ClientOption>)
    ensures OptionEditors(a + b) == OptionEditors(a) + OptionEditors(b)
    decreases |a|
  {
    if a == [] {
      assert a + b == b;
    } else {
      var head := if a[0].RequestEditor? then [a[0].editor] else [];
      assert (a + b)[0] == a[0];
      assert (a + b)[1..] == a[1..] + b;
      assert OptionEditors(a + b) == head + OptionEditors(a[1..] + b);
      OptionEditorsAppend(a[1..], b);
      assert head + (OptionEditors(a[1..]) + OptionEditors(b)) == (head + OptionEditors(a[1..])) + OptionEditors(b);
    }
  }

  lemma {:induction false} NoEditors(opts: seq<ClientOption>)
    requires forall j :: 0 <= j < |opts| ==> !opts[j].RequestEditor?
    ensures OptionEditors(opts) == []
    decreases |opts|
  {
    if opts != [] {
      NoEditors(opts[1..]);
    }
  }

  /**
   * Options none of which fails configure, and the client's editors are then the ones it had
   * followed by the request editors of the options, in the options' order.
   */
  lemma {:induction false} ConfigureEditors(c: Config, opts: seq<ClientOption>)
    requires forall j :: 0 <= j < |opts| ==> !opts[j].Failing?
    ensures Configure(c, opts).Ok?
    ensures Configure(c, opts).value.editors == c.editors + OptionEditors(opts)
    decreases |opts|
  {
    if opts != [] {
      var head := if opts[0].RequestEditor? then [opts[0].editor] else [];
      var c' := ApplyOption(c, opts[0]).value;
      assert Configure(c, opts) == Configure(c', opts[1..]);
      assert OptionEditors(opts) == head + OptionEditors(opts[1..]);
      assert c'.editors == c.editors + head;
      ConfigureEditors(c', opts[1..]);
      assert c.editors + head + OptionEditors(opts[1..]) == c.editors + (head + OptionEditors(opts[1..]));
    } else {
      assert c.editors + [] == c.editors;
    }
  }

  // ---------------------------------------------------------------------------------------------
  // Operation paths
  // ---------------------------------------------------------------------------------------------

  /** The base's text up to and including its last '/', or "" when it has none. */
  function DirPrefix(base: string): (r: string)
    ensures |r| <= |base| && r == base[..|r|]
    ensures r == "" || r[|r| - 1] == '/'
    ensures forall i :: |r| <= i < |base| ==> base[i] != '/'
  {
    if base == "" then ""
    else if base[|base| - 1] == '/' then base
    else DirPrefix(base[..|base| - 1])
  }

  /**
   * serverURL.Parse("./" + path): the reference "./path" merged with the server's path (section
   * 5.2.3 of RFC 3986), which keeps the base up to its last '/', and its leading "./" removed as
   * a dot segment (section 5.2.4).
   */
  function OperationURL(server: string, path: string): string
  {
    DirPrefix(server) + path
  }

  /** Against a server ending in '/', which NewClient guarantees, an operation is the server plus its path. */
  lemma OperationUnderServer(server: string, opts: seq<ClientOption>, path: string)
    requires NewClientSpec(server, opts).Ok?
    ensures OperationURL(NewClientSpec(server, opts).value.server, path) == NewClientSpec(server, opts).value.server + path
  {
  }

  /** Without the trailing '/', the base's last path segment would be replaced. */
  lemma OperationWithoutSlash()
    ensures OperationURL("https://api.aboutmy.email/api/v1", "emails") == "https://api.aboutmy.email/api/emails"
  {
    var s := "https://api.aboutmy.email/api/v1";
    var s1 := "https://api.aboutmy.email/api/v";
    var s2 := "https://api.aboutmy.email/api/";
    assert s[|s| - 1] == '1' && s[..|s| - 1] == s1;
    assert s1[|s1| - 1] == 'v' && s1[..|s1| - 1] == s2;
    assert s2[|s2| - 1] == '/';
    assert DirPrefix(s) == s2;
  }
}
