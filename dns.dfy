/**
 * The CNAME check of `amemanage dns` (cmd/amemanage/dns.go): `hostEq` and the verdict drawn from
 * the resolver's two answers. The resolver itself is left out; its answers are inputs.
 */
module Dns {
  import opened Wrappers
  import opened Strings

  /** The name whose CNAME must be "aboutmy.email." if the resolver works. */
  const TestName: string := "cnametest.aboutmy.email"
  const TestAnswer: string := "aboutmy.email."
  /** Where a correctly configured hostname points. */
  const Whitelabel: string := "whitelabel.aboutmy.email"

  /** hostEq: equal up to ASCII case, ignoring one trailing dot on each side. */
  predicate HostEq(a: string, b: string)
  {
    EqualFold(TrimSuffix(a, "."), TrimSuffix(b, "."))
  }

  /** What `amemanage dns` reports. */
  datatype DnsOutcome =
    | TestLookupFailed(err: string)
    | TestWrongAnswer(answer: string)
    | LookupFailed(err: string)
    | CnameOk
    | NoCname
    | WrongTarget(answer: string)

  /**
   * The check: the self-test answer must be exactly "aboutmy.email.", then the hostname's answer
   * is compared with the white-label target first and with the hostname itself second.
   */
  function CheckCname(test: Result<string, string>, answer: Result<string, string>, hostname: string): (o: DnsOutcome)
    ensures o.CnameOk? ==> test == Ok(TestAnswer) && answer.Ok? && HostEq(answer.value, Whitelabel)
    ensures o.NoCname? ==> test == Ok(TestAnswer) && answer.Ok? && !HostEq(answer.value, Whitelabel)
                           && HostEq(answer.value, hostname)
    ensures o.WrongTarget? ==> test == Ok(TestAnswer) && answer == Ok(o.answer)
                               && !HostEq(o.answer, Whitelabel) && !HostEq(o.answer, hostname)
  {
    match test
    case Err(e) => TestLookupFailed(e)
    case Ok(res) =>
      if res != TestAnswer then TestWrongAnswer(res)
      else
        match answer
        case Err(e) => LookupFailed(e)
        case Ok(res) =>
          if HostEq(res, Whitelabel) then CnameOk
          else if !HostEq(res, hostname) then WrongTarget(res)
          else NoCname
  }

  // ---------------------------------------------------------------------------------------------
  // hostEq
  // ---------------------------------------------------------------------------------------------

  /** Lower-casing twice is lower-casing once. */
  lemma ToLowerIdempotent(s: string)
    ensures ToLower(ToLower(s)) == ToLower(s)
  {
  }

  /** Lower-casing keeps a trailing dot and so commutes with trimming it. */
  lemma TrimDotLower(s: string)
    ensures TrimSuffix(ToLower(s), ".") == ToLower(TrimSuffix(s, "."))
  {
    if HasSuffix(s, ".") {
      assert ToLower(s)[|s| - 1] == '.';
      assert HasSuffix(ToLower(s), ".") by {
        assert ToLower(s)[|s| - 1..] == ['.'];
      }
    } else if |s| > 0 {
      assert s[|s| - 1..] == [s[|s| - 1]];
      assert s[|s| - 1] != '.';
      assert ToLower(s)[|s| - 1..] == [ToLower(s)[|s| - 1]];
    }
  }

  /** hostEq is case-insensitive: lower-casing either argument does not change it. */
  lemma HostEqCaseInsensitive(a: string, b: string)
    ensures HostEq(ToLower(a), b) == HostEq(a, b)
    ensures HostEq(a, ToLower(b)) == HostEq(a, b)
  {
    TrimDotLower(a);
    TrimDotLower(b);
    ToLowerIdempotent(TrimSuffix(a, "."));
    ToLowerIdempotent(TrimSuffix(b, "."));
  }

  /** hostEq is an equivalence: reflexive, symmetric and transitive. */
  lemma HostEqEquivalence(a: string, b: string, c: string)
    ensures HostEq(a, a)
    ensures HostEq(a, b) == HostEq(b, a)
    ensures HostEq(a, b) && HostEq(b, c) ==> HostEq(a, c)
  {
  }

  /** A trailing dot on either side of a name without one is ignored. */
  lemma HostEqOneDot(a: string)
    requires !HasSuffix(a, ".")
    ensures HostEq(a + ".", a)
    ensures HostEq(a, a + ".")
  {
    assert (a + ".")[|a|..] == ".";
    assert (a + ".")[..|a|] == a;
  }

  /** Only one trailing dot is ignored: a name and the same name with two more dots differ. */
  lemma HostEqAtMostOneDot(a: string)
    ensures !HostEq(a + "..", a)
  {
    assert (a + "..")[|a| + 1..] == ".";
    assert (a + "..")[..|a| + 1] == a + ".";
    assert |TrimSuffix(a + "..", ".")| == |a| + 1;
    assert |TrimSuffix(a, ".")| <= |a|;
  }

  // ---------------------------------------------------------------------------------------------
  // The verdict
  // ---------------------------------------------------------------------------------------------

  /**
   * After a good self-test and a successful lookup: an answer hostEq to the white-label target
   * is success, whatever the hostname; one hostEq to the hostname means no CNAME; any other
   * answer points to the wrong target.
   */
  lemma VerdictCases(res: string, hostname: string)
    ensures HostEq(res, Whitelabel) ==> CheckCname(Ok(TestAnswer), Ok(res), hostname) == CnameOk
    ensures !HostEq(res, Whitelabel) && HostEq(res, hostname) ==>
              CheckCname(Ok(TestAnswer), Ok(res), hostname) == NoCname
    ensures !HostEq(res, Whitelabel) && !HostEq(res, hostname) ==>
              CheckCname(Ok(TestAnswer), Ok(res), hostname) == WrongTarget(res)
  {
  }

  /** The white-label target is recognised in any case and with or without its trailing dot. */
  lemma WhitelabelAnyCase(res: string, hostname: string)
    requires ToLower(res) == Whitelabel || ToLower(res) == Whitelabel + "."
    ensures CheckCname(Ok(TestAnswer), Ok(res), hostname) == CnameOk
  {
    HostEqCaseInsensitive(res, Whitelabel);
    assert Whitelabel[|Whitelabel| - 1..] != ".";
    HostEqOneDot(Whitelabel);
    HostEqEquivalence(ToLower(res), Whitelabel, Whitelabel);
  }

  /** The self-test compares bytes: an upper-case or dot-less answer fails it. */
  lemma SelfTestIsExact(answer: Result<string, string>, hostname: string)
    ensures CheckCname(Ok("ABOUTMY.EMAIL."), answer, hostname) == TestWrongAnswer("ABOUTMY.EMAIL.")
    ensures CheckCname(Ok("aboutmy.email"), answer, hostname) == TestWrongAnswer("aboutmy.email")
    ensures HostEq("ABOUTMY.EMAIL.", TestAnswer)
  {
    assert "ABOUTMY.EMAIL."[0] != TestAnswer[0];
    assert |"aboutmy.email"| != |TestAnswer|;
    HostEqCaseInsensitive("ABOUTMY.EMAIL.", TestAnswer);
    UpperTestAnswer();
    HostEqEquivalence(TestAnswer, TestAnswer, TestAnswer);
  }

  /** The upper-case answer lower-cases to the expected one. */
  lemma UpperTestAnswer()
    ensures ToLower("ABOUTMY.EMAIL.") == TestAnswer
  {
    var s := "ABOUTMY.EMAIL.";
    assert forall i :: 0 <= i < |s| ==> ToLower(s)[i] == TestAnswer[i];
  }

  /** A failing self-test decides the outcome before the hostname is looked up. */
  lemma SelfTestFirst(test: Result<string, string>, answer1: Result<string, string>,
                      answer2: Result<string, string>, hostname: string)
    requires test != Ok(TestAnswer)
    ensures CheckCname(test, answer1, hostname) == CheckCname(test, answer2, hostname)
    ensures CheckCname(test, answer1, hostname).TestLookupFailed? || CheckCname(test, answer1, hostname).TestWrongAnswer?
  {
  }
}
