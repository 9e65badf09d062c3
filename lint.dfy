/**
 * The branding-file lint of `amemanage lint` (cmd/amemanage/lint.go) and its line-for-line copy in
 * `setbranding` (cmd/setbranding/main.go).
 *
 * The embedded template directory is given as the list of its file names, the language tags that
 * golang.org/x/text can display as a set, and the JSON files as a map from path to what decoding
 * them yields; a path missing from that map is a file that cannot be opened.
 */
module Lint {
  import opened Wrappers
  import opened Strings
  import Paths

  /** Language tags accepted beyond the supported set. */
  const Piglatin: string := "x-piglatin"

  /** The only keys a branding JSON file may hold. */
  const AllowedKeys: set<string> := {"HomeLink", "LogoHTML", "MobileLogoHTML"}

  /** What decoding a JSON file into a map of strings gives: a failure, or the keys of the object. */
  datatype JsonDoc = Malformed | Object(keys: set<string>)

  // ---------------------------------------------------------------------------------------------
  // The manifest of expected files
  // ---------------------------------------------------------------------------------------------

  /** Names of the expected files: every template name with one trailing ".tpl" removed. */
  function ManifestKeys(templates: seq<string>): set<string>
  {
    set t | t in templates :: TrimSuffix(t, ".tpl")
  }

  /** The manifest walk: every template, with ".tpl" removed, is expected with the initial count 1. */
  method BuildManifest(templates: seq<string>) returns (expected: map<string, int>)
    ensures expected.Keys == ManifestKeys(templates)
    ensures forall k :: k in expected ==> expected[k] == 1
  {
    expected := map[];
    var i := 0;
    while i < |templates|
      invariant 0 <= i <= |templates|
      invariant expected.Keys == ManifestKeys(templates[..i])
      invariant forall k :: k in expected ==> expected[k] == 1
    {
      expected := expected[TrimSuffix(templates[i], ".tpl") := 1];
      assert templates[..i + 1] == templates[..i] + [templates[i]];
      i := i + 1;
    }
    assert templates[..i] == templates;
  }

  /** A template "x.tpl" makes "x" expected; a template without the suffix is expected under its own name. */
  lemma TemplateExpected(templates: seq<string>, t: string)
    requires t in templates
    ensures HasSuffix(t, ".tpl") ==> t[..|t| - 4] in ManifestKeys(templates)
    ensures !HasSuffix(t, ".tpl") ==> t in ManifestKeys(templates)
  {
    assert TrimSuffix(t, ".tpl") in ManifestKeys(templates);
  }

  // ---------------------------------------------------------------------------------------------
  // Splitting "<name>.<lang>.md"
  // ---------------------------------------------------------------------------------------------

  /** The characters of the first group of the split pattern: [a-zA-Z0-9]. */
  predicate IsStem(s: string)
  {
    |s| > 0 && forall i :: 0 <= i < |s| ==> IsAlnum(s[i])
  }

  /** The characters of the second group of the split pattern: [a-zA-Z0-9_-]. */
  predicate IsTag(s: string)
  {
    |s| > 0 && forall i :: 0 <= i < |s| ==> IsAlnum(s[i]) || s[i] == '_' || s[i] == '-'
  }

  /** The two groups of a match of `^([a-zA-Z0-9]+)\.([a-zA-Z0-9_-]+)\.md$`. */
  datatype MdName = MdName(stem: string, lang: string)

  /** Index of the first '.' in `s` at or after `i`, or |s| when there is none. */
  function FirstDot(s: string, i: nat): (r: nat)
    requires i <= |s|
    ensures i <= r <= |s|
    ensures forall k :: i <= k < r ==> s[k] != '.'
    ensures r < |s| ==> s[r] == '.'
    decreases |s| - i
  {
    if i == |s| || s[i] == '.' then i else FirstDot(s, i + 1)
  }

  /** The anchored match of the split pattern against a base name. */
  function SplitMd(base: string): Option<MdName>
  {
    var dot := FirstDot(base, 0);
    if dot == |base| then None
    else
      var stem := base[..dot];
      var rest := base[dot + 1..];
      if !HasSuffix(rest, ".md") then None
      else
        var lang := rest[..|rest| - 3];
        if IsStem(stem) && IsTag(lang) then Some(MdName(stem, lang)) else None
  }

  /** Every match of the split pattern really is "<stem>.<lang>.md" with groups of the right characters. */
  lemma SplitMdSound(base: string)
    requires SplitMd(base).Some?
    ensures var m := SplitMd(base).value;
      base == m.stem + "." + m.lang + ".md" && IsStem(m.stem) && IsTag(m.lang)
  {
    var dot := FirstDot(base, 0);
    var rest := base[dot + 1..];
    assert base == base[..dot] + "." + rest;
    assert rest == rest[..|rest| - 3] + ".md";
  }

  /** Every name of the shape "<stem>.<lang>.md" matches the split pattern with exactly those groups. */
  lemma SplitMdComplete(stem: string, lang: string)
    requires IsStem(stem) && IsTag(lang)
    ensures SplitMd(stem + "." + lang + ".md") == Some(MdName(stem, lang))
  {
    var base := stem + "." + lang + ".md";
    FirstDotAt(base, |stem|);
    var rest := base[|stem| + 1..];
    assert rest == lang + ".md";
    assert base[..|stem|] == stem;
    assert rest[..|rest| - 3] == lang;
  }

  lemma FirstDotAt(s: string, d: nat)
    requires d < |s| && s[d] == '.'
    requires forall k :: 0 <= k < d ==> s[k] != '.'
    ensures FirstDot(s, 0) == d
  {
  }

  /** "foo.md" has one dot only, so it does not match and is looked up as itself. */
  lemma PlainMarkdownDoesNotSplit()
    ensures SplitMd("foo.md") == None
  {
    FirstDotAt("foo.md", 3);
    assert "foo.md"[4..] == "md";
  }

  // ---------------------------------------------------------------------------------------------
  // Classifying one file
  // ---------------------------------------------------------------------------------------------

  /** The verdict on one file: unexpected, an expected JSON file, or an expected markdown file with its tag. */
  datatype Entry = Unexpected | JsonEntry(key: string) | MdEntry(key: string, lang: Option<string>)

  /** The manifest entry a markdown base name is looked up as. */
  function MdKey(base: string): string
  {
    match SplitMd(base)
    case Some(m) => m.stem + ".md"
    case None => base
  }

  /** How the lint loop treats `file`, given the names the manifest expects. */
  function Classify(file: string, keys: set<string>): Entry
  {
    var base := Paths.Base(file);
    var ext := Paths.Ext(file);
    if ext == ".json" then
      if base in keys then JsonEntry(base) else Unexpected
    else if ext == ".md" then
      var m := SplitMd(base);
      if MdKey(base) in keys then MdEntry(MdKey(base), if m.Some? then Some(m.value.lang) else None)
      else Unexpected
    else Unexpected
  }

  /** Whether `file` raises the counter of the manifest entry `k`. */
  predicate Hit(file: string, keys: set<string>, k: string)
  {
    match Classify(file, keys)
    case Unexpected => false
    case JsonEntry(key) => key == k
    case MdEntry(key, _) => key == k
  }

  /** How many of `files` raise the counter of `k`. */
  function Hits(files: seq<string>, keys: set<string>, k: string): nat
  {
    if files == [] then 0
    else Hits(files[..|files| - 1], keys, k) + (if Hit(files[|files| - 1], keys, k) then 1 else 0)
  }

  /** checkJson's verdict: the file cannot be opened, cannot be decoded, or has a key outside the whitelist. */
  predicate JsonFails(docs: map<string, JsonDoc>, file: string)
  {
    file !in docs || docs[file].Malformed? || exists k :: k in docs[file].keys && k !in AllowedKeys
  }

  /** Whether one file, on its own, fails the lint. */
  predicate FileFails(file: string, keys: set<string>, docs: map<string, JsonDoc>)
  {
    match Classify(file, keys)
    case Unexpected => true
    case JsonEntry(_) => JsonFails(docs, file)
    case MdEntry(_, _) => false
  }

  /** The language tag `file` records: only an expected markdown file whose name splits records one. */
  function RecordedTag(file: string, keys: set<string>): Option<string>
  {
    match Classify(file, keys)
    case MdEntry(_, lang) => lang
    case _ => None
  }

  /** The language tags recorded for `files`. */
  function Languages(files: seq<string>, keys: set<string>): set<string>
  {
    set f | f in files && RecordedTag(f, keys).Some? :: RecordedTag(f, keys).value
  }

  predicate LanguageAccepted(lang: string, supported: set<string>)
  {
    lang == Piglatin || lang in supported
  }

  /** Some file of `files` fails on its own. */
  predicate SomeFileFails(files: seq<string>, keys: set<string>, docs: map<string, JsonDoc>)
  {
    exists f :: f in files && FileFails(f, keys, docs)
  }

  /** The lint verdict: some file fails on its own, or some recorded language is not accepted. */
  predicate LintFails(files: seq<string>, keys: set<string>, supported: set<string>, docs: map<string, JsonDoc>)
  {
    SomeFileFails(files, keys, docs)
    || (exists l :: l in Languages(files, keys) && !LanguageAccepted(l, supported))
  }

  // ---------------------------------------------------------------------------------------------
  // The two loops
  // ---------------------------------------------------------------------------------------------

  /** checkJson: open, decode into a map of strings, and reject any key outside the whitelist. */
  method CheckJson(file: string, docs: map<string, JsonDoc>) returns (failed: bool)
    ensures failed == JsonFails(docs, file)
  {
    failed := false;
    var j: set<string> := {};
    if file !in docs {
      // Opening fails, and decoding from the missing file fails as well.
      failed := true;
    } else if docs[file].Malformed? {
      failed := true;
    } else {
      j := docs[file].keys;
    }
    var remaining := j;
    while remaining != {}
      invariant remaining <= j
      invariant j == {} || (file in docs && docs[file] == Object(j))
      invariant failed == (file !in docs || docs[file].Malformed?
                           || exists k :: k in j && k !in remaining && k !in AllowedKeys)
      decreases remaining
    {
      var key :| key in remaining;
      if key !in AllowedKeys {
        failed := true;
      }
      remaining := remaining - {key};
    }
  }

  /**
   * lint: classify each file against the manifest, counting hits and recording language tags, then
   * reject the tags that are neither x-piglatin nor supported. Returns the verdict (true: failed)
   * and the final counters.
   */
  method Lint(files: seq<string>, templates: seq<string>, supported: set<string>, docs: map<string, JsonDoc>)
    returns (failed: bool, expected: map<string, int>)
    ensures failed == LintFails(files, ManifestKeys(templates), supported, docs)
    ensures expected.Keys == ManifestKeys(templates)
    ensures forall k :: k in expected ==> expected[k] == 1 + Hits(files, ManifestKeys(templates), k)
  {
    var initial := BuildManifest(templates);
    var languages;
    failed, expected, languages := ScanFiles(files, initial, docs);
    var badLanguage := CheckLanguages(languages, supported);
    failed := failed || badLanguage;
  }

  /** The loop over the files: the counters each file raises, the tags it records, and whether one fails. */
  method ScanFiles(files: seq<string>, initial: map<string, int>, docs: map<string, JsonDoc>)
    returns (failed: bool, expected: map<string, int>, languages: set<string>)
    ensures failed <==> SomeFileFails(files, initial.Keys, docs)
    ensures expected.Keys == initial.Keys
    ensures forall k :: k in expected ==> expected[k] == initial[k] + Hits(files, initial.Keys, k)
    ensures languages == Languages(files, initial.Keys)
  {
    failed := false;
    expected := initial;
    languages := {};
    assert files[..0] == [];
    var i := 0;
    while i < |files|
      invariant 0 <= i <= |files|
      invariant Scanned(files[..i], initial, docs, failed, expected, languages)
    {
      failed, expected, languages := ScanOne(files, i, initial, docs, failed, expected, languages);
      i := i + 1;
    }
    assert files[..i] == files;
    AnyFailsIff(files, initial.Keys, docs);
  }

  /** The state of ScanFiles after the files `done`. */
  ghost predicate Scanned(done: seq<string>, initial: map<string, int>, docs: map<string, JsonDoc>,
                          failed: bool, expected: map<string, int>, languages: set<string>)
  {
    && expected.Keys == initial.Keys
    && (forall k :: k in expected ==> expected[k] == initial[k] + Hits(done, initial.Keys, k))
    && languages == Languages(done, initial.Keys)
    && failed == AnyFails(done, initial.Keys, docs)
  }

  /** One iteration of ScanFiles: visit `files[i]` and fold its verdict into `failed`. */
  method ScanOne(files: seq<string>, i: nat, initial: map<string, int>, docs: map<string, JsonDoc>,
                 failed: bool, expected: map<string, int>, languages: set<string>)
    returns (failed': bool, expected': map<string, int>, languages': set<string>)
    requires i < |files| && Scanned(files[..i], initial, docs, failed, expected, languages)
    ensures Scanned(files[..i + 1], initial, docs, failed', expected', languages')
  {
    var bad;
    bad, expected', languages' := VisitFile(files[i], expected, languages, docs);
    ScanStep(files, i, initial.Keys, docs, initial, expected, expected', languages, languages', failed, bad);
    failed' := failed || bad;
  }

  /** The language check: every recorded tag must be x-piglatin or a supported tag. */
  method CheckLanguages(languages: set<string>, supported: set<string>) returns (failed: bool)
    ensures failed <==> exists l :: l in languages && !LanguageAccepted(l, supported)
  {
    failed := false;
    var remaining := languages;
    while remaining != {}
      invariant remaining <= languages
      invariant failed <==> exists l :: l in languages && l !in remaining && !LanguageAccepted(l, supported)
      decreases remaining
    {
      var lang :| lang in remaining;
      if lang != Piglatin && lang !in supported {
        failed := true;
      }
      remaining := remaining - {lang};
    }
  }

  /** The tags `file` adds to the recorded languages. */
  function TagsOf(file: string, keys: set<string>): set<string>
  {
    if RecordedTag(file, keys).Some? then {RecordedTag(file, keys).value} else {}
  }

  /**
   * One iteration of the lint loop: an unexpected file fails and changes no counter; an expected
   * file raises its own counter by one, a JSON file adds checkJson's verdict, and a split markdown
   * name records its language tag.
   */
  method VisitFile(file: string, expected: map<string, int>, languages: set<string>, docs: map<string, JsonDoc>)
    returns (failed: bool, expected': map<string, int>, languages': set<string>)
    ensures failed == FileFails(file, expected.Keys, docs)
    ensures expected'.Keys == expected.Keys
    ensures forall k :: k in expected' ==> expected'[k] == expected[k] + (if Hit(file, expected.Keys, k) then 1 else 0)
    ensures languages' == languages + TagsOf(file, expected.Keys)
  {
    failed := false;
    expected' := expected;
    languages' := languages;
    var base := Paths.Base(file);
    var ext := Paths.Ext(file);
    if ext == ".json" {
      if base !in expected' {
        failed := true;
      } else {
        expected' := expected'[base := expected'[base] + 1];
        var bad := CheckJson(file, docs);
        if bad {
          failed := true;
        }
      }
    } else if ext == ".md" {
      var baseFile := base;
      var matches := SplitMd(base);
      if matches.Some? {
        baseFile := matches.value.stem + ".md";
      }
      if baseFile !in expected' {
        failed := true;
      } else {
        if matches.Some? {
          languages' := languages' + {matches.value.lang};
        }
        expected' := expected'[baseFile := expected'[baseFile] + 1];
      }
    } else {
      failed := true;
    }
  }

  /** How one more file changes the counters and the recorded languages. */
  lemma StepLemma(files: seq<string>, i: nat, keys: set<string>)
    requires i < |files|
    ensures files[..i + 1] == files[..i] + [files[i]]
    ensures forall k :: Hits(files[..i + 1], keys, k) == Hits(files[..i], keys, k) + (if Hit(files[i], keys, k) then 1 else 0)
    ensures Languages(files[..i + 1], keys)
         == Languages(files[..i], keys) + TagsOf(files[i], keys)
  {
    var pre := files[..i + 1];
    assert pre == files[..i] + [files[i]];
    assert pre[..|pre| - 1] == files[..i];
    assert pre[|pre| - 1] == files[i];
    LanguagesAppend(files[..i], files[i], keys);
  }

  /** The loop invariant of ScanFiles carried from `files[..i]` to `files[..i + 1]`. */
  lemma ScanStep(files: seq<string>, i: nat, keys: set<string>, docs: map<string, JsonDoc>, initial: map<string, int>,
                 expected: map<string, int>, expected': map<string, int>,
                 languages: set<string>, languages': set<string>, failed: bool, bad: bool)
    requires i < |files| && initial.Keys == keys && expected.Keys == keys && expected'.Keys == keys
    requires forall k :: k in expected ==> expected[k] == initial[k] + Hits(files[..i], keys, k)
    requires forall k :: k in expected' ==> expected'[k] == expected[k] + (if Hit(files[i], keys, k) then 1 else 0)
    requires languages == Languages(files[..i], keys) && languages' == languages + TagsOf(files[i], keys)
    requires failed == AnyFails(files[..i], keys, docs) && bad == FileFails(files[i], keys, docs)
    ensures forall k :: k in expected' ==> expected'[k] == initial[k] + Hits(files[..i + 1], keys, k)
    ensures languages' == Languages(files[..i + 1], keys)
    ensures (failed || bad) == AnyFails(files[..i + 1], keys, docs)
  {
    CountStep(files, i, keys, initial, expected, expected');
    StepLemma(files, i, keys);
    FailsStep(files, i, keys, docs);
  }

  /** The counters after one more file are the initial ones plus that longer prefix's hits. */
  lemma CountStep(files: seq<string>, i: nat, keys: set<string>, initial: map<string, int>,
                  before: map<string, int>, after: map<string, int>)
    requires i < |files| && before.Keys == keys && after.Keys == keys && initial.Keys == keys
    requires forall k :: k in before ==> before[k] == initial[k] + Hits(files[..i], keys, k)
    requires forall k :: k in after ==> after[k] == before[k] + (if Hit(files[i], keys, k) then 1 else 0)
    ensures forall k :: k in after ==> after[k] == initial[k] + Hits(files[..i + 1], keys, k)
  {
    StepLemma(files, i, keys);
  }

  /** Whether some file fails, accumulated file by file as the loop does. */
  function AnyFails(files: seq<string>, keys: set<string>, docs: map<string, JsonDoc>): bool
  {
    files != [] && (AnyFails(files[..|files| - 1], keys, docs) || FileFails(files[|files| - 1], keys, docs))
  }

  /** One more file fails the prefix exactly when the prefix failed already or that file fails. */
  lemma FailsStep(files: seq<string>, i: nat, keys: set<string>, docs: map<string, JsonDoc>)
    requires i < |files|
    ensures AnyFails(files[..i + 1], keys, docs) == (AnyFails(files[..i], keys, docs) || FileFails(files[i], keys, docs))
  {
    assert files[..i + 1][..i] == files[..i];
  }

  /** The accumulated verdict is the declarative one. */
  lemma {:induction false} AnyFailsIff(files: seq<string>, keys: set<string>, docs: map<string, JsonDoc>)
    ensures AnyFails(files, keys, docs) == SomeFileFails(files, keys, docs)
  {
    if files != [] {
      var rest := files[..|files| - 1];
      AnyFailsIff(rest, keys, docs);
      assert forall f :: f in files <==> f in rest || f == files[|files| - 1];
    }
  }

  lemma LanguagesAppend(files: seq<string>, f: string, keys: set<string>)
    ensures Languages(files + [f], keys)
         == Languages(files, keys) + TagsOf(f, keys)
  {
  }

  // ---------------------------------------------------------------------------------------------
  // Properties of the verdict
  // ---------------------------------------------------------------------------------------------

  /** A file whose extension is neither ".json" nor ".md" makes the lint fail. */
  lemma OtherExtensionFails(files: seq<string>, keys: set<string>, supported: set<string>, docs: map<string, JsonDoc>, f: string)
    requires f in files
    requires Paths.Ext(f) != ".json" && Paths.Ext(f) != ".md"
    ensures Classify(f, keys) == Unexpected
    ensures LintFails(files, keys, supported, docs)
  {
    assert FileFails(f, keys, docs);
  }

  /** An unexpected JSON file fails and changes no counter. */
  lemma UnexpectedJsonKeepsCounters(files: seq<string>, keys: set<string>, docs: map<string, JsonDoc>, f: string, k: string)
    requires Paths.Ext(f) == ".json" && Paths.Base(f) !in keys
    ensures FileFails(f, keys, docs)
    ensures Hits(files + [f], keys, k) == Hits(files, keys, k)
  {
    assert (files + [f])[..|files|] == files;
  }

  /** An expected JSON file raises its own counter by exactly one and fails exactly when checkJson does. */
  lemma ExpectedJsonCounted(files: seq<string>, keys: set<string>, docs: map<string, JsonDoc>, f: string)
    requires Paths.Ext(f) == ".json" && Paths.Base(f) in keys
    ensures Hits(files + [f], keys, Paths.Base(f)) == Hits(files, keys, Paths.Base(f)) + 1
    ensures FileFails(f, keys, docs) <==> JsonFails(docs, f)
  {
    assert (files + [f])[..|files|] == files;
  }

  /** A split markdown name "<stem>.<lang>.md" is looked up as "<stem>.md". */
  lemma SplitNameLookedUpByStem(stem: string, lang: string)
    requires IsStem(stem) && IsTag(lang)
    ensures MdKey(stem + "." + lang + ".md") == stem + ".md"
  {
    SplitMdComplete(stem, lang);
  }

  /** A markdown name that does not split, such as "foo.md", is looked up as itself. */
  lemma UnsplitNameLookedUpAsItself(base: string)
    requires SplitMd(base) == None
    ensures MdKey(base) == base
  {
  }

  /** A recorded language always comes from an expected markdown file whose name splits with that tag. */
  lemma LanguagesOnlyFromExpected(files: seq<string>, keys: set<string>, l: string)
    requires l in Languages(files, keys)
    ensures exists f :: f in files && Paths.Ext(f) == ".md" && MdKey(Paths.Base(f)) in keys
                        && SplitMd(Paths.Base(f)).Some? && SplitMd(Paths.Base(f)).value.lang == l
  {
    var f :| f in files && RecordedTag(f, keys).Some? && RecordedTag(f, keys).value == l;
    assert Paths.Ext(f) != ".json";
  }

  /** A recorded language that is neither x-piglatin nor supported makes the lint fail. */
  lemma UnsupportedLanguageFails(files: seq<string>, keys: set<string>, supported: set<string>, docs: map<string, JsonDoc>, l: string)
    requires l in Languages(files, keys) && l != Piglatin && l !in supported
    ensures LintFails(files, keys, supported, docs)
  {
  }

  /** x-piglatin is accepted whatever the supported set holds. */
  lemma PiglatinAlwaysAccepted(supported: set<string>)
    ensures LanguageAccepted(Piglatin, supported)
  {
  }

  /**
   * The verdict depends only on which files are named: not on their order and not on repetitions,
   * because the failure flag is only ever set and the counters are never read.
   */
  lemma LintIgnoresOrderAndRepeats(files1: seq<string>, files2: seq<string>, keys: set<string>,
                                   supported: set<string>, docs: map<string, JsonDoc>)
    requires forall f :: f in files1 <==> f in files2
    ensures Languages(files1, keys) == Languages(files2, keys)
    ensures LintFails(files1, keys, supported, docs) == LintFails(files2, keys, supported, docs)
  {
  }

  /** An object using only whitelisted keys, including the empty object, passes checkJson. */
  lemma WhitelistedObjectPasses(docs: map<string, JsonDoc>, file: string, keys: set<string>)
    requires keys <= AllowedKeys
    ensures !JsonFails(docs[file := Object(keys)], file)
  {
  }

  /** One key outside the whitelist is enough to fail checkJson. */
  lemma ForeignKeyFails(docs: map<string, JsonDoc>, file: string, keys: set<string>, k: string)
    requires k in keys && k !in AllowedKeys
    ensures JsonFails(docs[file := Object(keys)], file)
  {
  }
}
