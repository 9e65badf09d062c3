/**
 * Sample-content initialisation (cmd/amemanage/init.go, repeated in cmd/setbranding/main.go):
 * the search of `hostRe` in the hostname, the base URL and brand name derived from it, and the
 * output file name of each template.
 *
 * `hostRe` is `(?:https?://)?([a-zA-Z0-9-]+)\.([a-zA-Z0-9-]+)\.([a-zA-Z0-9-]+)`, searched without
 * anchors, leftmost first. `HostMatch` computes the search; `MatchesAt` is the plain meaning of
 * the pattern, against which the search is proved.
 */
module Init {
  import opened Wrappers
  import opened Strings

  const DefaultBaseURL: string := "https://e.g.example.net"
  const DefaultBrand: string := "Your Brand"

  /** The character class of a label: [a-zA-Z0-9-]. */
  predicate IsLabelChar(c: char)
  {
    IsAlnum(c) || c == '-'
  }

  /** A non-empty run of label characters. */
  predicate IsLabel(s: string)
  {
    |s| > 0 && forall i :: 0 <= i < |s| ==> IsLabelChar(s[i])
  }

  /** The three capture groups of a match. */
  datatype Labels = Labels(first: string, second: string, third: string)

  /** `piece` occurs in `s` at position `i`. */
  predicate At(s: string, i: int, piece: string)
  {
    0 <= i && i + |piece| <= |s| && s[i..i + |piece|] == piece
  }

  /** A '.' at position `i`. */
  predicate DotAt(s: string, i: int)
  {
    0 <= i < |s| && s[i] == '.'
  }

  /** What the optional group `(?:https?://)?` can take. */
  predicate IsScheme(scheme: string)
  {
    scheme == "" || scheme == "http://" || scheme == "https://"
  }

  /**
   * The three capture groups match `s` from `a`: the first label, a dot, the second label, a dot
   * and the third label follow each other; the third group is greedy, so no label character
   * follows it.
   */
  predicate LabelsMatchAt(s: string, a: int, g: Labels)
  {
    var b := a + |g.first|;
    var c := b + 1 + |g.second|;
    var e := c + 1 + |g.third|;
    && IsLabel(g.first) && IsLabel(g.second) && IsLabel(g.third)
    && At(s, a, g.first) && DotAt(s, b) && At(s, b + 1, g.second) && DotAt(s, c) && At(s, c + 1, g.third)
    && (e == |s| || !IsLabelChar(s[e]))
  }

  /** The pattern matches `s` starting at `p`, the optional group taking `scheme`, with groups `g`. */
  predicate MatchesAt(s: string, p: int, scheme: string, g: Labels)
  {
    IsScheme(scheme) && At(s, p, scheme) && LabelsMatchAt(s, p + |scheme|, g)
  }

  // ---------------------------------------------------------------------------------------------
  // The search
  // ---------------------------------------------------------------------------------------------

  /** Length of the run of label characters starting at `i`. */
  function RunLength(s: string, i: nat): (n: nat)
    requires i <= |s|
    ensures i + n <= |s|
    decreases |s| - i
  {
    if i < |s| && IsLabelChar(s[i]) then 1 + RunLength(s, i + 1) else 0
  }

  /** The three dot-separated labels starting at `p`, each as long as the class allows. */
  function LabelsAt(s: string, p: nat): Option<Labels>
    requires p <= |s|
  {
    var n1 := RunLength(s, p);
    if n1 == 0 || p + n1 == |s| || s[p + n1] != '.' then None
    else
      var q := p + n1 + 1;
      var n2 := RunLength(s, q);
      if n2 == 0 || q + n2 == |s| || s[q + n2] != '.' then None
      else
        var r := q + n2 + 1;
        var n3 := RunLength(s, r);
        if n3 == 0 then None
        else Some(Labels(s[p..p + n1], s[q..q + n2], s[r..r + n3]))
  }

  /** Length of the "https://" or "http://" at `p`, or 0. */
  function SchemeLength(s: string, p: nat): nat
    requires p <= |s|
  {
    if HasPrefix(s[p..], "https://") then 8
    else if HasPrefix(s[p..], "http://") then 7
    else 0
  }

  /** The match starting at `p`, preferring to take the optional scheme. */
  function MatchFrom(s: string, p: nat): Option<Labels>
    requires p <= |s|
  {
    var k := SchemeLength(s, p);
    if k > 0 && LabelsAt(s, p + k).Some? then LabelsAt(s, p + k) else LabelsAt(s, p)
  }

  /** The leftmost match at or after `p`. */
  function SearchFrom(s: string, p: nat): Option<Labels>
    requires p <= |s|
    decreases |s| - p
  {
    if MatchFrom(s, p).Some? then MatchFrom(s, p)
    else if p == |s| then None
    else SearchFrom(s, p + 1)
  }

  /** hostRe.FindStringSubmatch: the capture groups of the leftmost match, if any. */
  function HostMatch(hostname: string): Option<Labels>
  {
    SearchFrom(hostname, 0)
  }

  // ---------------------------------------------------------------------------------------------
  // The search against the pattern's meaning
  // ---------------------------------------------------------------------------------------------

  /** The run starting at `i` is made of label characters and is not followed by one. */
  lemma {:induction false} RunLengthSpec(s: string, i: nat)
    requires i <= |s|
    ensures forall j :: i <= j < i + RunLength(s, i) ==> IsLabelChar(s[j])
    ensures i + RunLength(s, i) == |s| || !IsLabelChar(s[i + RunLength(s, i)])
    decreases |s| - i
  {
    if i < |s| && IsLabelChar(s[i]) {
      RunLengthSpec(s, i + 1);
    }
  }

  /** A run of label characters ended by the end of text or by another character is the longest. */
  lemma {:induction false} RunLengthExact(s: string, i: nat, n: nat)
    requires i + n <= |s|
    requires forall j :: i <= j < i + n ==> IsLabelChar(s[j])
    requires i + n == |s| || !IsLabelChar(s[i + n])
    ensures RunLength(s, i) == n
    decreases n
  {
    if n > 0 {
      RunLengthExact(s, i + 1, n - 1);
    }
  }

  /** A run measured at `i` is a label found at `i`. */
  lemma RunIsLabel(s: string, i: nat)
    requires i <= |s| && RunLength(s, i) > 0
    ensures IsLabel(s[i..i + RunLength(s, i)]) && At(s, i, s[i..i + RunLength(s, i)])
  {
    RunLengthSpec(s, i);
  }

  /** The labels found at `p` match the three groups there. */
  lemma LabelsAtMatches(s: string, p: nat)
    requires p <= |s| && LabelsAt(s, p).Some?
    ensures LabelsMatchAt(s, p, LabelsAt(s, p).value)
  {
    var n1 := RunLength(s, p);
    var q := p + n1 + 1;
    var n2 := RunLength(s, q);
    var r := q + n2 + 1;
    var n3 := RunLength(s, r);
    var g := Labels(s[p..p + n1], s[q..q + n2], s[r..r + n3]);
    assert LabelsAt(s, p) == Some(g);
    RunIsLabel(s, p);
    RunIsLabel(s, q);
    RunIsLabel(s, r);
    assert DotAt(s, p + n1) && DotAt(s, q + n2);
    RunLengthSpec(s, r);
  }

  /** A label found at `i` and ended by the end of text or a non-label character is the run at `i`. */
  lemma LabelRun(s: string, i: nat, lbl: string)
    requires At(s, i, lbl) && IsLabel(lbl)
    requires i + |lbl| == |s| || !IsLabelChar(s[i + |lbl|])
    ensures RunLength(s, i) == |lbl|
  {
    forall j | i <= j < i + |lbl| ensures IsLabelChar(s[j]) {
      assert s[j] == s[i..i + |lbl|][j - i] == lbl[j - i];
    }
    RunLengthExact(s, i, |lbl|);
  }

  /** LabelsAt in terms of the three runs it measures. */
  lemma LabelsAtRuns(s: string, p: nat, g: Labels)
    requires At(s, p, g.first) && At(s, p + |g.first| + 1, g.second) && At(s, p + |g.first| + |g.second| + 2, g.third)
    requires RunLength(s, p) == |g.first| > 0 && DotAt(s, p + |g.first|)
    requires RunLength(s, p + |g.first| + 1) == |g.second| > 0 && DotAt(s, p + |g.first| + 1 + |g.second|)
    requires RunLength(s, p + |g.first| + |g.second| + 2) == |g.third| > 0
    ensures LabelsAt(s, p) == Some(g)
  {
  }

  /** Groups that match from `p` are the ones LabelsAt finds. */
  lemma LabelsAtComplete(s: string, p: nat, g: Labels)
    requires p <= |s| && LabelsMatchAt(s, p, g)
    ensures LabelsAt(s, p) == Some(g)
  {
    var b := p + |g.first|;
    var c := b + 1 + |g.second|;
    LabelRun(s, p, g.first);
    LabelRun(s, b + 1, g.second);
    LabelRun(s, c + 1, g.third);
    LabelsAtRuns(s, p, g);
  }

  /** What MatchFrom returns is a match of the pattern at `p`. */
  lemma MatchFromSound(s: string, p: nat)
    requires p <= |s| && MatchFrom(s, p).Some?
    ensures exists scheme :: MatchesAt(s, p, scheme, MatchFrom(s, p).value)
  {
    var k := SchemeLength(s, p);
    if k > 0 && LabelsAt(s, p + k).Some? {
      SchemeAt(s, p);
      LabelsAtMatches(s, p + k);
      assert MatchesAt(s, p, SchemeText(k), MatchFrom(s, p).value);
    } else {
      LabelsAtMatches(s, p);
      assert At(s, p, "") by {
        assert s[p..p] == "";
      }
      assert MatchesAt(s, p, "", MatchFrom(s, p).value);
    }
  }

  /** The scheme text of a length SchemeLength returns. */
  function SchemeText(k: nat): string
  {
    if k == 8 then "https://" else if k == 7 then "http://" else ""
  }

  /** The scheme SchemeLength measures is present at `p`. */
  lemma SchemeAt(s: string, p: nat)
    requires p <= |s|
    ensures var k := SchemeLength(s, p); IsScheme(SchemeText(k)) && |SchemeText(k)| == k && At(s, p, SchemeText(k))
  {
    var k := SchemeLength(s, p);
    assert s[p..][..k] == s[p..p + k];
  }

  /** If the pattern matches at `p` at all, MatchFrom finds a match there. */
  lemma MatchFromComplete(s: string, p: nat, scheme: string, g: Labels)
    requires p <= |s| && MatchesAt(s, p, scheme, g)
    ensures MatchFrom(s, p).Some?
  {
    LabelsAtComplete(s, p + |scheme|, g);
    if scheme != "" {
      SchemeFound(s, p, scheme);
    }
  }

  /** A scheme found at `p` is the one SchemeLength measures. */
  lemma SchemeFound(s: string, p: nat, scheme: string)
    requires scheme == "http://" || scheme == "https://"
    requires At(s, p, scheme)
    ensures SchemeLength(s, p) == |scheme|
  {
    assert s[p..][..|scheme|] == s[p..p + |scheme|];
    if scheme == "http://" {
      assert s[p..][4] == s[p..p + 7][4] == ':';
    }
  }

  /** The search returns a match, and no match of the pattern starts earlier. */
  lemma {:induction false} SearchFromSound(s: string, p: nat)
    requires p <= |s|
    ensures SearchFrom(s, p).Some? ==>
      exists q, scheme :: p <= q <= |s| && MatchesAt(s, q, scheme, SearchFrom(s, p).value)
                          && forall q', scheme', g' :: p <= q' < q ==> !MatchesAt(s, q', scheme', g')
    ensures SearchFrom(s, p).None? ==> forall q, scheme, g :: p <= q ==> !MatchesAt(s, q, scheme, g)
    decreases |s| - p
  {
    if MatchFrom(s, p).Some? {
      MatchFromSound(s, p);
      var scheme :| MatchesAt(s, p, scheme, MatchFrom(s, p).value);
      assert p <= p <= |s| && MatchesAt(s, p, scheme, SearchFrom(s, p).value);
    } else {
      forall scheme, g ensures !MatchesAt(s, p, scheme, g) {
        if MatchesAt(s, p, scheme, g) {
          MatchFromComplete(s, p, scheme, g);
        }
      }
      if p < |s| {
        SearchFromSound(s, p + 1);
        if SearchFrom(s, p + 1).Some? {
          var q, scheme :| p + 1 <= q <= |s| && MatchesAt(s, q, scheme, SearchFrom(s, p + 1).value)
                           && forall q', scheme', g' :: p + 1 <= q' < q ==> !MatchesAt(s, q', scheme', g');
          assert p <= q <= |s| && MatchesAt(s, q, scheme, SearchFrom(s, p).value);
        }
      }
    }
  }

  /**
   * hostRe's search: a result is a match of the pattern at the leftmost position where the
   * pattern matches at all; no result means the pattern matches nowhere in the hostname.
   */
  lemma HostMatchIsLeftmost(hostname: string)
    ensures HostMatch(hostname).Some? ==>
      exists q, scheme :: 0 <= q <= |hostname| && MatchesAt(hostname, q, scheme, HostMatch(hostname).value)
                          && forall q', scheme', g' :: 0 <= q' < q ==> !MatchesAt(hostname, q', scheme', g')
    ensures HostMatch(hostname).None? ==> forall q, scheme, g :: !MatchesAt(hostname, q, scheme, g)
  {
    SearchFromSound(hostname, 0);
  }

  // ---------------------------------------------------------------------------------------------
  // Branding derived from the hostname
  // ---------------------------------------------------------------------------------------------

  datatype Branding = Branding(baseURL: string, brand: string)

  /** The base URL and brand name written into the templates. */
  function DeriveBranding(hostname: string): Branding
  {
    match HostMatch(hostname)
    case None => Branding(DefaultBaseURL, DefaultBrand)
    case Some(g) => Branding("https://" + g.second + "." + g.third, ToLower(g.second))
  }

  /** Without a match the fixed placeholder URL and brand are used. */
  lemma NoMatchGivesDefaults(hostname: string)
    requires forall q, scheme, g :: !MatchesAt(hostname, q, scheme, g)
    ensures DeriveBranding(hostname) == Branding("https://e.g.example.net", "Your Brand")
  {
    HostMatchIsLeftmost(hostname);
  }

  /**
   * With a match, the base URL is "https://" followed by the second and third labels (the first
   * is dropped) and the brand is the lower-cased second label; the URL after its scheme is two
   * labels and a dot, so it carries no path, port, query or scheme of the hostname.
   */
  lemma MatchGivesBranding(hostname: string)
    requires HostMatch(hostname).Some?
    ensures var g := HostMatch(hostname).value;
      && DeriveBranding(hostname).baseURL == "https://" + g.second + "." + g.third
      && DeriveBranding(hostname).brand == ToLower(g.second)
      && IsLabel(g.second) && IsLabel(g.third)
      && forall i :: 8 <= i < |DeriveBranding(hostname).baseURL| ==>
           IsLabelChar(DeriveBranding(hostname).baseURL[i]) || DeriveBranding(hostname).baseURL[i] == '.'
  {
    HostMatchIsLeftmost(hostname);
    var g := HostMatch(hostname).value;
    var q, scheme :| 0 <= q <= |hostname| && MatchesAt(hostname, q, scheme, g);
    var u := DeriveBranding(hostname).baseURL;
    forall i | 8 <= i < |u| ensures IsLabelChar(u[i]) || u[i] == '.' {
      if i < 8 + |g.second| {
        assert u[i] == g.second[i - 8];
      } else if i > 8 + |g.second| {
        assert u[i] == g.third[i - 9 - |g.second|];
      }
    }
  }

  /** "www.example.com" gives "https://example.com" and the brand "example". */
  lemma WwwExample()
    ensures DeriveBranding("www.example.com") == Branding("https://example.com", "example")
  {
    var g := Labels("www", "example", "com");
    WwwMatch();
    BrandingOf("www.example.com", g);
    ExampleLower();
    UrlText();
  }

  /** The branding of a hostname in terms of the groups found in it. */
  lemma BrandingOf(hostname: string, g: Labels)
    requires HostMatch(hostname) == Some(g)
    ensures DeriveBranding(hostname) == Branding("https://" + g.second + "." + g.third, ToLower(g.second))
  {
  }

  lemma UrlText()
    ensures "https://" + "example" + "." + "com" == "https://example.com"
  {
  }

  /** hostRe finds "www", "example" and "com" in "www.example.com", with no scheme. */
  lemma WwwMatch()
    ensures HostMatch("www.example.com") == Some(Labels("www", "example", "com"))
  {
    var s := "www.example.com";
    WwwLabels();
    assert SchemeLength(s, 0) == 0 by {
      assert s[0..][..7][0] == 'w';
      assert s[0..][..8][0] == 'w';
    }
  }

  /** "example" is already lower case. */
  lemma ExampleLower()
    ensures ToLower("example") == "example"
  {
    var e := "example";
    forall i | 0 <= i < |e| ensures LowerChar(e[i]) == e[i] {
    }
  }

  /** The three labels of "www.example.com". */
  lemma WwwLabels()
    ensures LabelsAt("www.example.com", 0) == Some(Labels("www", "example", "com"))
  {
    var s := "www.example.com";
    WwwRun(0, "www");
    WwwRun(4, "example");
    WwwRun(12, "com");
    LabelsAtRuns(s, 0, Labels("www", "example", "com"));
  }

  /** Each label of "www.example.com" is the run at its position. */
  lemma WwwRun(i: nat, lbl: string)
    requires (i, lbl) == (0, "www") || (i, lbl) == (4, "example") || (i, lbl) == (12, "com")
    ensures At("www.example.com", i, lbl) && RunLength("www.example.com", i) == |lbl|
  {
    var s := "www.example.com";
    assert s[i..i + |lbl|] == lbl;
    LabelRun(s, i, lbl);
  }

  // ---------------------------------------------------------------------------------------------
  // Output names
  // ---------------------------------------------------------------------------------------------

  /** The file a template is rendered into: its name with one trailing ".tpl" removed. */
  function OutputName(templateName: string): (r: string)
    ensures HasSuffix(templateName, ".tpl") ==> r + ".tpl" == templateName
    ensures !HasSuffix(templateName, ".tpl") ==> r == templateName
  {
    TrimSuffix(templateName, ".tpl")
  }
}
