/**
 * The regular-expression engine the derivation rules call (`System.Text.RegularExpressions.Regex`,
 * always with `RegexOptions.IgnoreCase`). It is foreign, so the rules take it as a value
 * holding its two operations. `SuffixRegex` is one concrete engine: it gives the meaning .NET
 * gives to the anchored suffix family `^(.+)X$` rewritten by `$1Y`, the family every rule in
 * the repository's tests uses.
 */
module Regexes {

  /** `IsMatch(input, pattern)` and `Replace(input, pattern, replacement)`, both case-insensitive. */
  datatype RegexEngine = RegexEngine(
    IsMatch: (string, string) -> bool,
    Replace: (string, string, string) -> string)

  /** The ASCII letters and their lower-case forms. */
  predicate IsAsciiLetter(c: char) {
    'a' <= c <= 'z' || 'A' <= c <= 'Z'
  }

  /** Lower-cases an ASCII upper-case letter and leaves every other character alone. */
  function ToLowerAscii(c: char): (d: char)
    ensures 'A' <= c <= 'Z' ==> 'a' <= d <= 'z'
    ensures !('A' <= c <= 'Z') ==> d == c
  {
    if 'A' <= c <= 'Z' then (c as int - 'A' as int + 'a' as int) as char else c
  }

  /** ASCII lower-casing of a whole string. */
  function Lower(s: string): (t: string)
    ensures |t| == |s|
    ensures forall i :: 0 <= i < |s| ==> t[i] == ToLowerAscii(s[i])
  {
    seq(|s|, i requires 0 <= i < |s| => ToLowerAscii(s[i]))
  }

  /** The pattern is `^(.+)X$` with `X` a (possibly empty) run of ASCII letters. */
  predicate IsSuffixPattern(pattern: string) {
    |pattern| >= 6 && pattern[..5] == "^(.+)" && pattern[|pattern| - 1] == '$'
    && forall i :: 5 <= i < |pattern| - 1 ==> IsAsciiLetter(pattern[i])
  }

  /** The literal suffix `X` of `^(.+)X$`. */
  function SuffixOf(pattern: string): string
    requires IsSuffixPattern(pattern)
  {
    pattern[5..|pattern| - 1]
  }

  /** The template is `$1Y` with `Y` free of `$` and not starting with a digit (which would extend the group number). */
  predicate IsSuffixTemplate(template: string) {
    |template| >= 2 && template[..2] == "$1"
    && (|template| > 2 ==> !('0' <= template[2] <= '9'))
    && forall i :: 2 <= i < |template| ==> template[i] != '$'
  }

  /** The text `$1Y` appends after the group. */
  function TemplateTail(template: string): string
    requires IsSuffixTemplate(template)
  {
    template[2..]
  }

  /**
   * The text `$` can end at. Without `RegexOptions.Multiline`, .NET's `$` matches at the very end
   * of the input and also just before one final line feed, so one trailing `'\n'` is set aside.
   */
  function Line(name: string): (line: string)
    ensures name == line || name == line + "\n"
    ensures |name| > 0 && name[|name| - 1] == '\n' ==> name == line + "\n"
    ensures (|name| == 0 || name[|name| - 1] != '\n') ==> line == name
  {
    if |name| > 0 && name[|name| - 1] == '\n' then name[..|name| - 1] else name
  }

  /**
   * `^(.+)X$` matches, ignoring case, a name whose line has at least one character before a final
   * `X`. `.` matches anything but a line feed, and `^` anchors only at the start of the input, so
   * a line feed anywhere but at the very end rules the match out.
   */
  predicate SuffixMatches(name: string, pattern: string)
    requires IsSuffixPattern(pattern)
  {
    var line := Line(name);
    var x := SuffixOf(pattern);
    '\n' !in line && |line| > |x| && Lower(line[|line| - |x|..]) == Lower(x)
  }

  /** `IsMatch` of the concrete engine: a match inside the family, no match outside it. */
  function SuffixIsMatch(name: string, pattern: string): bool {
    IsSuffixPattern(pattern) && SuffixMatches(name, pattern)
  }

  /**
   * `Replace` of the concrete engine: on a match, group 1 (everything before the suffix, in its
   * original case) followed by `Y`, then the final line feed the match stopped before, if any;
   * with no match the input is returned, as .NET does.
   */
  function SuffixReplace(name: string, pattern: string, template: string): string {
    if IsSuffixPattern(pattern) && IsSuffixTemplate(template) && SuffixMatches(name, pattern) then
      var line := Line(name);
      line[..|line| - |SuffixOf(pattern)|] + TemplateTail(template) + name[|line|..]
    else name
  }

  /** The concrete engine for the suffix family. */
  const SuffixRegex: RegexEngine := RegexEngine(SuffixIsMatch, SuffixReplace)

  /**
   * Inside the family, the stem before the suffix is kept and the suffix becomes `Y`, whatever
   * the case in which the suffix is spelled in the name; a final line feed stays after the result.
   */
  lemma {:induction false} SuffixRewrite(stem: string, spelled: string, ending: string, pattern: string, template: string)
    requires IsSuffixPattern(pattern) && IsSuffixTemplate(template)
    requires |stem| > 0 && '\n' !in stem + spelled && (ending == "" || ending == "\n")
    requires Lower(spelled) == Lower(SuffixOf(pattern))
    ensures SuffixRegex.IsMatch(stem + spelled + ending, pattern)
    ensures SuffixRegex.Replace(stem + spelled + ending, pattern, template) == stem + TemplateTail(template) + ending
  {
    var line := stem + spelled;
    var name := line + ending;
    assert (line)[|line| - 1] != '\n' by {
      assert line[|line| - 1] in line;
    }
    assert Line(name) == line by {
      if ending == "" {
        assert name == line;
      } else {
        assert name[..|name| - 1] == line;
      }
    }
    assert |spelled| == |SuffixOf(pattern)|;
    assert line[|line| - |spelled|..] == spelled;
    assert line[..|line| - |spelled|] == stem;
    assert name[|line|..] == ending;
  }

  /**
   * A name whose line holds a line feed, is shorter than the suffix plus one character, or ends
   * in something else, does not match and is returned unchanged.
   */
  lemma {:induction false} SuffixMismatch(name: string, pattern: string, template: string)
    requires IsSuffixPattern(pattern)
    requires var line := Line(name);
      '\n' in line || |line| <= |SuffixOf(pattern)| ||
      Lower(line[|line| - |SuffixOf(pattern)|..]) != Lower(SuffixOf(pattern))
    ensures !SuffixRegex.IsMatch(name, pattern)
    ensures SuffixRegex.Replace(name, pattern, template) == name
  {
  }
}
