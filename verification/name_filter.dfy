/**
 * The name filter the runner installs on every test class: exclude
 * patterns are consulted first, then a non-empty include list must match.
 * Patterns are kept as the strings given on the command line; whether a
 * pattern fully matches a method name is the parameter `fullMatch`, standing
 * for `Pattern.compile(pattern).matcher(name).matches()`.
 */
module NameFilter {
  /** fullMatch(pattern, name): the whole of `name` matches the regular expression `pattern`. */
  type Matcher = (string, string) -> bool

  /** Some pattern of the list fully matches the name. */
  ghost predicate SomeMatch(patterns: seq<string>, fullMatch: Matcher, name: string)
  {
    exists k :: 0 <= k < |patterns| && fullMatch(patterns[k], name)
  }

  /** A stream's `anyMatch` over the patterns. */
  function AnyMatch(patterns: seq<string>, fullMatch: Matcher, name: string): (r: bool)
    ensures r <==> SomeMatch(patterns, fullMatch, name)
  {
    if |patterns| == 0 then false
    else if fullMatch(patterns[0], name) then true
    else
      var rest := AnyMatch(patterns[1..], fullMatch, name);
      assert SomeMatch(patterns[1..], fullMatch, name) ==> SomeMatch(patterns, fullMatch, name) by {
        if SomeMatch(patterns[1..], fullMatch, name) {
          var k :| 0 <= k < |patterns[1..]| && fullMatch(patterns[1..][k], name);
          assert fullMatch(patterns[k + 1], name);
        }
      }
      rest
  }

  /** What `shouldRun` decides for a method name, and the lines it prints to standard output. */
  datatype Decision = Decision(run: bool, printed: seq<string>)

  /** The anonymous filter's `shouldRun`. */
  function ShouldRun(excludes: seq<string>, includes: seq<string>, fullMatch: Matcher, methodName: string): (r: Decision)
    ensures r.run <==> !SomeMatch(excludes, fullMatch, methodName)
                       && (|includes| == 0 || SomeMatch(includes, fullMatch, methodName))
    ensures SomeMatch(excludes, fullMatch, methodName) ==> r.printed == [methodName + " excluded"]
    ensures !SomeMatch(excludes, fullMatch, methodName) && |includes| > 0 && !SomeMatch(includes, fullMatch, methodName)
            ==> r.printed == [methodName + " not included"]
    ensures r.run ==> r.printed == []
  {
    if AnyMatch(excludes, fullMatch, methodName) then
      Decision(false, [methodName + " excluded"])
    else if |includes| > 0 && !AnyMatch(includes, fullMatch, methodName) then
      Decision(false, [methodName + " not included"])
    else
      Decision(true, [])
  }

  /**
   * Exclusion takes precedence: once an exclude pattern matches, no include
   * list changes the decision or the single line printed.
   */
  lemma ExcludeWins(excludes: seq<string>, includes1: seq<string>, includes2: seq<string>, fullMatch: Matcher, methodName: string)
    requires SomeMatch(excludes, fullMatch, methodName)
    ensures ShouldRun(excludes, includes1, fullMatch, methodName) == ShouldRun(excludes, includes2, fullMatch, methodName)
    ensures !ShouldRun(excludes, includes1, fullMatch, methodName).run
  {
  }

  /**
   * A worked example: with exclude pattern `.*Multipart.*`
   * and include pattern `Get.*`, `GetObjectBasic` runs, `GetObjectMultipartCopy` is
   * excluded and `PutObjectBasic` is not included, for any matcher that
   * agrees with those patterns on these names.
   */
  lemma FilterExample(fullMatch: Matcher)
    requires !fullMatch(".*Multipart.*", "GetObjectBasic") && fullMatch("Get.*", "GetObjectBasic")
    requires fullMatch(".*Multipart.*", "GetObjectMultipartCopy")
    requires !fullMatch(".*Multipart.*", "PutObjectBasic") && !fullMatch("Get.*", "PutObjectBasic")
    ensures ShouldRun([".*Multipart.*"], ["Get.*"], fullMatch, "GetObjectBasic") == Decision(true, [])
    ensures ShouldRun([".*Multipart.*"], ["Get.*"], fullMatch, "GetObjectMultipartCopy")
            == Decision(false, ["GetObjectMultipartCopy excluded"])
    ensures ShouldRun([".*Multipart.*"], ["Get.*"], fullMatch, "PutObjectBasic")
            == Decision(false, ["PutObjectBasic not included"])
  {
    assert "GetObjectMultipartCopy" + " excluded" == "GetObjectMultipartCopy excluded";
    assert "PutObjectBasic" + " not included" == "PutObjectBasic not included";
  }
}
