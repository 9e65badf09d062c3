# aboutmyemail core, modelled in Dafny

This project models the Go client and command-line tools of aboutmy.email, the service that
analyses a submitted e-mail message and reports on it. Four groups of code are covered.

- The generated API client (`api_client.gen.go`) and its wrapper (`api.go`):
  - how a `Client` is built from options;
  - the trailing `/` added to the server URL;
  - the default transport;
  - request editors, and the `Authorization: Bearer` editor;
  - how the environment's server and key are placed before the caller's options;
  - how operation paths resolve against the server;
  - how every `Parse...Response` function fills its typed slots.
- The `amemanage` branding tool (`cmd/amemanage`), repeated almost verbatim in `cmd/setbranding/main.go`:
  - `lint`: the template manifest, the split of `<stem>.<lang>.md` names, the counters, the language check, and `checkJson`'s key whitelist;
  - `stage`: the lint gate with `--force`, the files that become upload parts, and the report printed after the upload;
  - `init`: `hostRe` matched with RE2 leftmost-first semantics, and the base URL and brand derived from it;
  - `dns`: `hostEq` and the verdict on the CNAME answers.
- The `aboutmyemail` submit command (`cmd/aboutmyemail/main.go`):
  - From/To filled from the message;
  - the submission record;
  - the answer to the submission;
  - the polling loop;
  - the callback handler and its counter;
  - `printResponse`.

Go library behaviour is modelled as the code relies on it:
- `filepath.Base` and `filepath.Ext` on `/`-separated paths (module `Paths`);
- ASCII `strings.EqualFold`, `ToLower`, `TrimSuffix` and `HasSuffix` (module `Strings`);
- `textproto.CanonicalMIMEHeaderKey`;
- a typed nil pointer stored in an `any` compares unequal to nil, and `encoding/json` encodes it as `null`.

Operations that change state in place are methods on classes:
- `Client.Client`, the options applied by `NewClient`;
- `Submit.Cli`, From/To filled in;
- `Submit.CallbackServer`, the request counter and shutdown.

Loops are methods proved against specification functions:
- `Lint.Lint`, `Lint.CheckJson` and `Lint.BuildManifest`;
- `Stage.CollectParts`;
- `Client.Client.ApplyEditors`;
- `Submit.PrintResponse` and `Submit.PollForResults`.

## Model

| member | source | states |
|---|---|---|
| Paths.Base | cmd/amemanage/lint.go:43 | The base name is never empty. It is "/", "." or a slash-free element. |
| Paths.BaseOfElement | cmd/amemanage/lint.go:43 | A non-empty path without '/' is its own base name. |
| Paths.BaseOfSlashes | cmd/amemanage/lint.go:43 | The base name is "/" exactly for a non-empty path made only of slashes. |
| Paths.BaseIsLastElement | cmd/amemanage/lint.go:43 | Otherwise the base name is the last element: it ends the path without its trailing slashes, and it starts at the path's beginning or just after a '/'. |
| Paths.Ext | cmd/amemanage/lint.go:44 | The extension is empty, or it starts with '.', is a suffix of the path and has no further '.' or '/'. |
| Paths.NoExtension | cmd/amemanage/lint.go:44 | The extension is empty only when every '.' in the path is followed by a later '/'. |
| Lint.BuildManifest | cmd/amemanage/lint.go:27-36 | The manifest's keys are exactly the template names with ".tpl" trimmed, and every counter starts at 1. |
| Lint.TemplateExpected | cmd/amemanage/lint.go:33 | A template "x.tpl" makes "x" expected. A template without the suffix is expected under its own name. |
| Lint.SplitMdSound | cmd/amemanage/lint.go:40 | A match of the split pattern is "<stem>.<lang>.md", with a stem of [a-zA-Z0-9]+ and a tag of [a-zA-Z0-9_-]+. |
| Lint.SplitMdComplete | cmd/amemanage/lint.go:40 | Every name "<stem>.<lang>.md" whose parts have the allowed characters matches the split pattern, with exactly those groups. |
| Lint.PlainMarkdownDoesNotSplit | cmd/amemanage/lint.go:59-62 | "foo.md" does not match the split pattern. |
| Lint.CheckJson | cmd/amemanage/lint.go:96-118 | The result is true exactly when the file cannot be opened or decoded, or holds a key outside HomeLink, LogoHTML and MobileLogoHTML. |
| Lint.WhitelistedObjectPasses | cmd/amemanage/lint.go:110-116 | An object using only whitelisted keys passes checkJson, including the empty object. |
| Lint.ForeignKeyFails | cmd/setbranding/main.go:343-349 | One key outside the whitelist is enough to fail checkJson. |
| Lint.VisitFile | cmd/amemanage/lint.go:43-76 | One loop iteration. It fails exactly when the file fails on its own, raises only the counter of the entry the file hits (by one), and records the file's tag. |
| Lint.Lint | cmd/amemanage/lint.go:25-94 | The verdict is the declarative one: some file is unexpected, or its JSON fails, or a recorded language is neither x-piglatin nor supported. Each counter ends at 1 plus the number of files that hit it. |
| Lint.ScanFiles | cmd/amemanage/lint.go:42-77 | The loop over the files fails exactly when some file fails on its own. Each counter ends at its start plus the files that hit it, and the languages recorded are the tags of expected split markdown names. |
| Lint.CheckLanguages | cmd/amemanage/lint.go:83-92 | The language loop fails exactly when some recorded language is neither x-piglatin nor supported. |
| Lint.OtherExtensionFails | cmd/setbranding/main.go:306-308 | A file with an extension other than .json and .md is unexpected and fails the lint. |
| Lint.UnexpectedJsonKeepsCounters | cmd/amemanage/lint.go:46-52 | A JSON file whose base name is not in the manifest fails and changes no counter. |
| Lint.ExpectedJsonCounted | cmd/amemanage/lint.go:53-56 | An expected JSON file raises its own counter by exactly one, and fails exactly when checkJson fails. |
| Lint.SplitNameLookedUpByStem | cmd/amemanage/lint.go:58-63 | "<stem>.<lang>.md" is looked up in the manifest as "<stem>.md". |
| Lint.UnsplitNameLookedUpAsItself | cmd/amemanage/lint.go:58-63 | A markdown name that does not split is looked up under its own base name. |
| Lint.LanguagesOnlyFromExpected | cmd/amemanage/lint.go:63-71 | Each recorded language comes from a listed markdown file that the manifest expects. |
| Lint.UnsupportedLanguageFails | cmd/amemanage/lint.go:83-92 | A recorded language that is neither x-piglatin nor supported makes the lint fail. |
| Lint.PiglatinAlwaysAccepted | cmd/setbranding/main.go:315-319 | x-piglatin is accepted whatever the supported set is. |
| Lint.LintIgnoresOrderAndRepeats | cmd/amemanage/lint.go:42-93 | Two file lists with the same members record the same languages and get the same verdict. |
| Init.SearchFromSound | cmd/amemanage/init.go:18 | The search from p returns a real match of the pattern, and no match starts between p and it. No result means no match starts at or after p. |
| Init.MatchFromSound | cmd/amemanage/init.go:18 | What is found at a position is a match of the pattern there, with or without a scheme. |
| Init.MatchFromComplete | cmd/amemanage/init.go:18 | If the pattern matches at a position in any way, the matcher finds a match there. |
| Init.LabelsAtComplete | cmd/amemanage/init.go:18 | Labels that match from a position are the ones found by taking each label as long as possible. |
| Init.HostMatchIsLeftmost | cmd/amemanage/init.go:21 | FindStringSubmatch returns the groups of a match at the leftmost position where hostRe matches. nil means hostRe matches nowhere. |
| Init.NoMatchGivesDefaults | cmd/setbranding/main.go:204-208 | A hostname hostRe cannot match gives "https://e.g.example.net" and "Your Brand". |
| Init.MatchGivesBranding | cmd/amemanage/init.go:26-29 | A match gives "https://" + second + "." + third, and the lower-cased second label as brand. The URL holds only label characters and dots after the scheme. |
| Init.WwwExample | cmd/setbranding/main.go:209-211 | "www.example.com" gives "https://example.com" and brand "example". |
| Init.OutputName | cmd/amemanage/init.go:45 | A rendered file is named after its template, with one trailing ".tpl" removed. |
| Dns.CheckCname | cmd/amemanage/dns.go:25-45 | Success needs the exact self-test answer and an answer hostEq to the white-label target. "No CNAME" means the answer is hostEq to the hostname and not to the target. A wrong target is neither. |
| Dns.VerdictCases | cmd/amemanage/dns.go:37-44 | After a good self-test, the answer alone picks success, no CNAME or wrong target, in that priority. |
| Dns.SelfTestIsExact | cmd/amemanage/dns.go:29-31 | The self-test compares bytes. An upper-case or dot-less answer fails, although hostEq would accept it. |
| Dns.SelfTestFirst | cmd/amemanage/dns.go:25-32 | A failed self-test decides the outcome whatever the hostname lookup answers. |
| Dns.WhitelabelAnyCase | cmd/amemanage/dns.go:37-40 | The white-label target is recognised in any case, with or without its trailing dot. |
| Dns.HostEqCaseInsensitive | cmd/amemanage/dns.go:48-50 | Lower-casing either argument does not change hostEq. |
| Dns.HostEqEquivalence | cmd/amemanage/dns.go:48-50 | hostEq is reflexive, symmetric and transitive. |
| Dns.HostEqOneDot | cmd/amemanage/dns.go:49 | One trailing dot is ignored on either side. |
| Dns.HostEqAtMostOneDot | cmd/amemanage/dns.go:49 | Only one dot is trimmed, so a name and the same name plus ".." differ. |
| Client.Finish | api_client.gen.go:61-68 | The server ends in '/', with '/' appended only when missing. A transport is always present, and a supplied one is kept. The editors are unchanged. |
| Client.Client.constructor | api_client.gen.go:52-54 | A new client holds the given server, no transport and no editors. |
| Client.Client.Apply | api_client.gen.go:56-60 | One option updates the client as the option prescribes. A failing option reports its error and leaves the client unchanged. |
| Client.Client.NewClient | api_client.gen.go:50-70 | Construction applies the options in order and then the defaults; on error it returns no client. |
| Client.FirstErrorAborts | api_client.gen.go:56-60 | The first failing option's error is the result, whatever follows it. |
| Client.ConfigureAppend | api_client.gen.go:56-60 | Applying options a then b is applying a, then b to the client a left; an error in a ends it. |
| Client.ConfigureKeepsDoer | api_client.gen.go:56-60 | Options that set no transport leave the transport as it was. |
| Client.ConfigureKeepsServer | api_client.gen.go:56-60 | Options that set no base URL leave the server as it was. |
| Client.ConfigureEditors | api_client.gen.go:83-88 | Options none of which fails configure, and the client's editors are then its own followed by the options' request editors, in order. |
| Client.RunEditorsAppend | api_client.gen.go:297-309 | Running editors a then b is running a, then b on a's result; an error in a ends it. |
| Client.NoFailingConfigures | api_client.gen.go:56-60 | Options none of which fails always configure. |
| Client.DefaultDoerOnlyWhenNoneSet | api_client.gen.go:65-68 | The default transport is installed when no option sets one. Otherwise the last doer set is kept, unless it is nil, which again gives the default. |
| Client.ServerNormalised | api_client.gen.go:61-64 | The built server always ends in '/'. It is the last base URL set, with '/' appended only if missing. |
| Client.Client.ApplyEditors | api_client.gen.go:297-309 | The client's editors run, then the call's own. The result is that of running them in order, stopping at the first error. |
| Client.EditorErrorStops | api_client.gen.go:297-309 | A failing editor's error is the result, and later editors make no difference. |
| Client.LaterSetWins | api.go:37-41 | Of two editors setting one header, the later value is what the request carries. |
| Client.WithApiKey | api.go:33-42 | The key is empty exactly when the option does nothing. |
| Client.WithServer | api.go:45-50 | The endpoint is empty exactly when the option does nothing. |
| Client.EmptyOptionsAreNoOps | api.go:28-36 | An empty key or endpoint leaves the client unchanged. |
| Client.ApiKeyEditor | api.go:37-41 | A non-empty key adds one editor, which sets Authorization to exactly "Bearer " + key. |
| Client.EnvOptions | api.go:18-24 | The list is WithApiKey(key) if the environment has a key, then WithServer(server) if it has a server, then the caller's options unchanged. |
| Client.DefaultEndpoint | api.go:9-25 | With no environment and no options, the client uses "https://api.aboutmy.email/api/v1/" and the default transport. |
| Client.CallerServerWins | api.go:19-25 | A server passed by the caller overrides the environment's. |
| Client.CallerKeyWins | api.go:22-25 | For any environment, a key passed by the caller, among caller options that install no other editor, is the Authorization value the request carries. |
| Client.DirPrefix | api_client.gen.go:192 | The prefix up to and including the base's last '/' is a prefix of the base, and no '/' follows it. |
| Client.OperationUnderServer | api_client.gen.go:187-192 | Against a constructed client, an operation URL is the server followed by the operation path. |
| Client.OperationWithoutSlash | api_client.gen.go:61-64 | Without the trailing slash, ".../api/v1" plus "emails" would give ".../api/emails". |
| Responses.ParseEmailResponse | api_client.gen.go:495-531 | A read error is returned. The body and response are kept. Each slot is filled exactly when the content type mentions json and the status is its own, and it holds the decoded object. It is an error exactly when such a decode fails. |
| Responses.ParseEmailStatusResponse | api_client.gen.go:535-571 | As ParseEmailResponse, for the 200, 404 and 500 slots. |
| Responses.ParseContentPostResponse | api_client.gen.go:575-611 | As ParseEmailResponse, for 200, 400 and 500; the 400 slot holds an N500Error. |
| Responses.ParseStylePublishResponse | api_client.gen.go:615-644 | Only the 400 and 500 slots exist; a 200 decodes nothing. |
| Responses.StatusCode | api_client.gen.go:371-376 | The HTTP status code, or 0 without a response. |
| Responses.Status | api_client.gen.go:363-368 | The status line, or "" without a response. |
| Responses.AtMostOneSlot | api_client.gen.go:507-529 | At most one slot is filled, since the switch takes its first matching case. |
| Responses.NonJsonFillsNothing | api_client.gen.go:507-529 | A response whose content type does not mention json fills no slot and cannot fail. |
| Responses.SlotDifferences | api_client.gen.go:546-569 | A JSON 400 fills nothing for the status call, and a JSON 200 fills nothing for style publishing. |
| Responses.StatusCodeOfParsed | api_client.gen.go:502-505 | A parsed response reports the status code of the response it came from. |
| Stage.CollectParts | cmd/amemanage/stage.go:31-54 | The parts are the selected ones, in file order. |
| Stage.SelectedSound | cmd/amemanage/stage.go:32-46 | Every part comes from a listed .md or .json file that could be opened. It is sent as field "filename" under the file's base name. |
| Stage.SelectedComplete | cmd/setbranding/main.go:118-133 | Every listed .md or .json file that can be opened becomes a part. |
| Stage.UnopenableSkipped | cmd/amemanage/stage.go:37-41 | A file that cannot be opened is skipped, and the files after it are still processed. |
| Stage.StageRun | cmd/amemanage/stage.go:22-54 | The command aborts exactly when lint fails without --force. Otherwise it warns exactly when lint failed, and uploads the selected parts. |
| Stage.ContentReport | cmd/amemanage/stage.go:72-83 | 200 reports success. Otherwise a 400 error is a warning with its message, else a 500 error is an error with its message, else the raw body is printed. |
| Stage.ReportOfResponse | cmd/setbranding/main.go:159-170 | The report in terms of the HTTP response: success for any 200, the message for a JSON 400 or JSON 500, and otherwise the body. |
| Submit.CanonicalKey | cmd/aboutmyemail/main.go:54 | A valid header name has its first letter and each letter after a '-' upper-cased, and the others lower-cased. A name with a non-token byte is left unchanged. |
| Submit.CanonicalKeyIgnoresCase | cmd/aboutmyemail/main.go:54 | A valid name and any name differing from it only in ASCII case give the same key. |
| Submit.CanonicalKeyIdempotent | cmd/aboutmyemail/main.go:54 | A canonical key is its own canonical form. |
| Submit.ReturnPathKeys | cmd/aboutmyemail/main.go:54 | "ReturnPath" canonicalises to "Returnpath", which is not "Return-Path". |
| Submit.FirstAddress | cmd/aboutmyemail/main.go:55-56 | There is an address exactly when the header parses to a non-empty list; it is the first one. |
| Submit.DefaultFromAsWritten | cmd/aboutmyemail/main.go:53-63 | A given From is kept. Otherwise it is the first address of the header named "ReturnPath" (canonically "Returnpath"), or else the first From address. |
| Submit.LookupIgnoresCase | cmd/aboutmyemail/main.go:54-58 | Looking a header up by a valid name, or by that name in another ASCII case, gives the same answer. |
| Submit.DefaultFrom | cmd/aboutmyemail/main.go:54 | As intended, not as written: a given From is kept; otherwise it is the first Return-Path address, or else the first From address. |
| Submit.DefaultTo | cmd/aboutmyemail/main.go:64-69 | A given To is kept. Otherwise it is the first To address, when there is one. |
| Submit.AsWrittenIgnoresReturnPath | cmd/aboutmyemail/main.go:54 | As written, changing the Return-Path header never changes the From chosen. |
| Submit.ReturnPathCounterexample | cmd/aboutmyemail/main.go:54-61 | With Return-Path bounce@ and From author@, the code as written picks author@ and the intended rule picks bounce@. |
| Submit.Cli.constructor | cmd/aboutmyemail/main.go:22-35 | The command line's options are stored as given. |
| Submit.Cli.FillAddresses | cmd/aboutmyemail/main.go:50-71 | From and To are replaced by their defaults from the message, and only when empty. From is looked up as written, under "ReturnPath" and then "From". |
| Submit.Cli.Request | cmd/aboutmyemail/main.go:117-130 | The record carries the filled From and To, and has callback URLs exactly when callbacks are used. |
| Submit.CallbackUrl | cmd/aboutmyemail/main.go:127 | "http://" + the address + "/callback": the address sits between that prefix and suffix. |
| Submit.BuildRequest | cmd/aboutmyemail/main.go:111-130 | SMTPUTF8 is the negation of --ascii. The options are "stage" or "". Both progress and finished URLs are set to the callback URL exactly when callbacks are given. |
| Submit.PollsIffNoCallbackUrl | cmd/aboutmyemail/main.go:154-156 | The command polls exactly when no callback URL was sent. |
| Submit.PrintResponse | cmd/aboutmyemail/main.go:279-291 | The loop prints what PrintedFor specifies. |
| Submit.PrintedFor | cmd/aboutmyemail/main.go:279-291 | The first argument that is not the nil interface is encoded. The raw body is printed exactly when every argument is the nil interface. |
| Submit.PassedAsWritten | cmd/aboutmyemail/main.go:139 | As written, a record pointer passed as `any` is never the nil interface, even when the pointer is nil. |
| Submit.ArgOf | cmd/aboutmyemail/main.go:139 | As intended, not as written: a missing record would be passed as the nil interface, and a present one as a pointer to it. |
| Submit.RejectionPrintAsWritten | cmd/aboutmyemail/main.go:139 | As written, a rejection always encodes its first record pointer, present or nil. |
| Submit.RejectionAsWrittenPrintsNull | cmd/aboutmyemail/main.go:139 | As written, a rejection without a 500 record prints "null", even when a 400 message is present. |
| Submit.RejectionPrintsFirstPresent | cmd/aboutmyemail/main.go:139 | As intended, the 500 record is printed if present, else the 400 record, else the raw body. |
| Submit.SubmitAnswer | cmd/aboutmyemail/main.go:132-147 | A transport error is fatal. The submission is accepted exactly on a 200 with a result, which gives the id. It is rejected exactly on a non-200, reporting the status line and printing by the as-written rule. |
| Submit.Submit400PrintsNull | cmd/aboutmyemail/main.go:137-141 | A JSON 400 rejection reports the status line and prints null, although the server's 400 message was decoded. |
| Submit.PollStepOf | cmd/aboutmyemail/main.go:229-265 | A transport error is fatal. 429 retries. Any other non-200 is a rejection, printed by the as-written rule. A 200 without a result is fatal. A 200 with a non-empty URL finishes with that URL; any other 200 keeps waiting. |
| Submit.Poll404PrintsNull | cmd/aboutmyemail/main.go:239-242 | A JSON 404 while polling reports the status line and prints null, although the server's 404 message was decoded. |
| Submit.PollForResults | cmd/aboutmyemail/main.go:228-266 | Polling stops at the first terminal answer, after only throttled or pending ones. The URL is printed when it finished and the flags allow it. |
| Submit.ThrottledRetries | cmd/aboutmyemail/main.go:233-238 | A 429 never ends polling. |
| Submit.EmptyUrlKeepsPolling | cmd/aboutmyemail/main.go:252 | A 200 result with an empty URL keeps polling. |
| Submit.CallbackReplyFor | cmd/aboutmyemail/main.go:176-217 | A request that is not POST, or not exactly application/json, gets 400 with its message. Otherwise 200: a URL is taken only from a decoded, non-empty url field, and printed per the quiet/open rule. |
| Submit.ContentTypeIsExact | cmd/aboutmyemail/main.go:181-186 | "application/json; charset=utf-8" is refused. |
| Submit.CallbackServer.constructor | cmd/aboutmyemail/main.go:165 | The counter starts at 1 and the server is running. |
| Submit.CallbackServer.Handle | cmd/aboutmyemail/main.go:168-217 | Each request takes the current counter and raises it by one. The reply is the handler's reply, and the server shuts down once a URL arrives. |

## Left out

- Reading files, the multipart body bytes, HTTP transport, DNS resolution, `net.Dial`, `os.Hostname`, the browser, sleeps, timeouts and `os.Exit`. Their results are inputs (the set of openable files, the JSON documents, resolver answers, response sequences), or the outcome a function returns.
- The template walk (`fs.WalkDir` over the embedded templates) is modelled by a list of template names; template rendering and `os.MkdirAll` are left out.
- `display.Self.Supported.Tags()` is an input set of tag strings.
- `url.Parse` is taken as the identity on the text. Malformed URLs, which make `WithBaseURL` and the request builders fail, are not modelled beyond the generic failing option. Relative resolution is modelled for paths without "." or ".." segments only (`Client.DirPrefix`).
- Path parameter escaping in the request builders and the request bodies' JSON encoding are left out.
- JSON decoding is modelled as an object of string fields or a failure; type mismatches and trailing data are not modelled. A file that cannot be opened and a file that cannot be decoded both fail `checkJson` and are one case.
- The `messages` field of `StatusResult` and its coloured printing are not modelled; neither is the rest of the terminal output and colour.
- The `options` and `Helo` values beyond what the record carries are not modelled.
- Case folding and header canonicalisation cover ASCII only. Go's `EqualFold` also folds Unicode.
- The callback server's goroutine, mutex, `WaitGroup`, listener and `Shutdown` are left out. The handler is a method on a counter object, called one request at a time.
- Submit.PollForResults: the unbounded loop is modelled over a finite sequence of server answers; running out of answers is reported as still polling.
- `publish` (cmd/amemanage/publish.go and the setbranding copy) and the `kong` command-line wiring are not part of this model.
- Stage.StageRun: the JSON documents lint reads and the set of files stage can open are independent inputs, although the program reads both from the same directory.
- `cmd/setbranding/main.go` repeats lint, stage and init textually. One model covers both copies; the rows above cite whichever copy shows a property best.

## Findings

| source | as written | input that shows it | evidently intended | confidence | as-written member | corrected member |
|---|---|---|---|---|---|---|
| cmd/aboutmyemail/main.go:54 | The header is looked up as "ReturnPath". That canonicalises to "Returnpath", so a Return-Path header is never read. | A message with `Return-Path: bounce@example.com` and `From: author@example.com`, with --from not given: From becomes author@example.com | Look up "Return-Path", so the return path is preferred | not executed | Submit.ReturnPathCounterexample | Submit.DefaultFrom |
| cmd/aboutmyemail/main.go:139 | The nil `*N500Error` is passed as `any`, so `s != nil` holds in printResponse and `null` is printed. The 400 message and the raw body are never printed. | A 400 answer with a JSON body `{"message":"bad from"}`: the command prints `null` | Skip absent records: print the 500 record, else the 400 record, else the body | not executed | Submit.RejectionAsWrittenPrintsNull | Submit.RejectionPrintsFirstPresent |
| cmd/aboutmyemail/main.go:241 | The same typed-nil pointer is passed in the polling loop: a nil `*N500Error` makes printResponse print `null`. | A 404 answer while polling with a JSON body `{"message":"no such result"}`: the command prints `null` | Print the 500 record, else the 404 record, else the body | not executed | Submit.Poll404PrintsNull | Submit.RejectionPrintsFirstPresent |
