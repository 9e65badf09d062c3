/**
 * `stage` (cmd/amemanage/stage.go, repeated in cmd/setbranding/main.go): the lint gate with
 * `--force`, the files that become upload parts, and the report chosen from the server's answer.
 *
 * Which files can be opened is an input; the multipart bytes, the upload itself and the printing
 * are left out.
 */
module Stage {
  import opened Wrappers
  import opened Paths
  import Lint
  import opened Responses

  /** One multipart part: the form field, the file name sent, and the file read. */
  datatype Part = Part(field: string, fileName: string, path: string)

  /** Only markdown and JSON files are uploaded. */
  predicate Uploadable(file: string)
  {
    Ext(file) == ".md" || Ext(file) == ".json"
  }

  /** The part a file becomes: field "filename", named by the file's base name. */
  function PartOf(file: string): Part
  {
    Part("filename", Base(file), file)
  }

  /** The parts for `files`, in order: uploadable files that could be opened; the rest are skipped. */
  function Selected(files: seq<string>, openable: set<string>): seq<Part>
  {
    if files == [] then []
    else
      var last := files[|files| - 1];
      Selected(files[..|files| - 1], openable)
      + (if Uploadable(last) && last in openable then [PartOf(last)] else [])
  }

  /** The loop over the files, appending a part for each one that is kept. */
  method CollectParts(files: seq<string>, openable: set<string>) returns (parts: seq<Part>)
    ensures parts == Selected(files, openable)
  {
    parts := [];
    var i := 0;
    while i < |files|
      invariant 0 <= i <= |files|
      invariant parts == Selected(files[..i], openable)
    {
      var file := files[i];
      SelectedStep(files, i, openable);
      if Ext(file) != ".md" && Ext(file) != ".json" {
        i := i + 1;
        continue;
      }
      if file !in openable {
        i := i + 1;
        continue;
      }
      parts := parts + [Part("filename", Base(file), file)];
      i := i + 1;
    }
    assert files[..i] == files;
  }

  /** The parts for one more file. */
  lemma SelectedStep(files: seq<string>, i: nat, openable: set<string>)
    requires i < |files|
    ensures Selected(files[..i + 1], openable)
         == Selected(files[..i], openable) + (if Uploadable(files[i]) && files[i] in openable then [PartOf(files[i])] else [])
  {
    assert files[..i + 1][..i] == files[..i];
  }

  /** Selecting from `a + b` is selecting from `a`, then from `b`: parts keep argument order. */
  lemma {:induction false} SelectedAppend(a: seq<string>, b: seq<string>, openable: set<string>)
    ensures Selected(a + b, openable) == Selected(a, openable) + Selected(b, openable)
    decreases |b|
  {
    if b == [] {
      assert a + b == a;
    } else {
      var b' := b[..|b| - 1];
      assert (a + b)[..|a + b| - 1] == a + b';
      assert (a + b)[|a + b| - 1] == b[|b| - 1];
      SelectedAppend(a, b', openable);
    }
  }

  /** Every part comes from a listed, uploadable, openable file and carries its base name. */
  lemma {:induction false} SelectedSound(files: seq<string>, openable: set<string>, p: Part)
    requires p in Selected(files, openable)
    ensures p.path in files && Uploadable(p.path) && p.path in openable
    ensures p.field == "filename" && p.fileName == Base(p.path)
    decreases |files|
  {
    var rest := files[..|files| - 1];
    if p in Selected(rest, openable) {
      SelectedSound(rest, openable, p);
      assert p.path in files by {
        var j :| 0 <= j < |rest| && rest[j] == p.path;
        assert files[j] == p.path;
      }
    }
  }

  /** Every listed file that is uploadable and openable becomes a part. */
  lemma {:induction false} SelectedComplete(files: seq<string>, openable: set<string>, f: string)
    requires f in files && Uploadable(f) && f in openable
    ensures PartOf(f) in Selected(files, openable)
    decreases |files|
  {
    var rest := files[..|files| - 1];
    if f != files[|files| - 1] {
      assert f in rest by {
        var j :| 0 <= j < |files| && files[j] == f;
        assert rest[j] == f;
      }
      SelectedComplete(rest, openable, f);
    }
  }

  /** A file that cannot be opened is skipped and the files after it are still processed. */
  lemma UnopenableSkipped(before: seq<string>, f: string, after: seq<string>, openable: set<string>)
    requires f !in openable
    ensures Selected(before + [f] + after, openable) == Selected(before, openable) + Selected(after, openable)
  {
    SelectedAppend(before + [f], after, openable);
    SelectedAppend(before, [f], openable);
    assert [f][..0] == [];
  }

  // ---------------------------------------------------------------------------------------------
  // The gate
  // ---------------------------------------------------------------------------------------------

  /** What `stage` does before talking to the server. */
  datatype StageStart = Aborted | Upload(warned: bool, parts: seq<Part>)

  /**
   * Run lint; when it fails stop unless forced (then warn and go on); then collect the parts.
   */
  method StageRun(files: seq<string>, force: bool, templates: seq<string>, supported: set<string>,
                  docs: map<string, Lint.JsonDoc>, openable: set<string>)
    returns (start: StageStart)
    ensures var failed := Lint.LintFails(files, Lint.ManifestKeys(templates), supported, docs);
            && (start.Aborted? <==> failed && !force)
            && (start.Upload? ==> start.warned == failed && start.parts == Selected(files, openable))
  {
    var failed, _ := Lint.Lint(files, templates, supported, docs);
    if failed {
      if !force {
        return Aborted;
      }
    }
    var parts := CollectParts(files, openable);
    return Upload(failed, parts);
  }

  // ---------------------------------------------------------------------------------------------
  // The report
  // ---------------------------------------------------------------------------------------------

  /** What `stage` prints after the upload. */
  datatype Report =
    | UploadedOk
    | WarnMessage(status: string, message: string)
    | ErrorMessage(status: string, message: string)
    | RawBody(status: string, body: string)

  /** 200 is success; otherwise the 400 message (a warning), else the 500 message (an error), else the body. */
  function ContentReport(r: ContentPostResponse): (rep: Report)
    ensures rep.UploadedOk? <==> StatusCode(r.http) == 200
    ensures rep.WarnMessage? <==> StatusCode(r.http) != 200 && r.json400.Some?
    ensures rep.ErrorMessage? <==> StatusCode(r.http) != 200 && r.json400.None? && r.json500.Some?
    ensures rep.RawBody? ==> rep.body == r.body
  {
    if StatusCode(r.http) == 200 then UploadedOk
    else if r.json400.Some? then WarnMessage(Status(r.http), r.json400.value.message)
    else if r.json500.Some? then ErrorMessage(Status(r.http), r.json500.value.message)
    else RawBody(Status(r.http), r.body)
  }

  /**
   * The report in terms of the HTTP response itself: a 200 is success whatever its type; a JSON
   * 400 prints its message as a warning and a JSON 500 as an error; anything else prints the body.
   */
  lemma ReportOfResponse(rsp: HttpResponse)
    requires ParseContentPostResponse(rsp).Ok?
    ensures var rep := ContentReport(ParseContentPostResponse(rsp).value);
      && (rsp.statusCode == 200 <==> rep == UploadedOk)
      && (JsonWith(rsp, 400) ==> rep == WarnMessage(rsp.status, StringField(rsp.json.value, "message")))
      && (JsonWith(rsp, 500) ==> rep == ErrorMessage(rsp.status, StringField(rsp.json.value, "message")))
      && (rsp.statusCode != 200 && !JsonWith(rsp, 400) && !JsonWith(rsp, 500) ==> rep == RawBody(rsp.status, rsp.body.value))
  {
  }
}
