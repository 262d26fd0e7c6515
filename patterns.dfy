/**
 * The pattern compiler of `listener` (pagermaid/listener.py:87-99): the
 * regular expressions of the public (`,` or fullwidth `，`) and the sudo
 * (`/`) trigger, kept as strings. The regular-expression engine itself is
 * not modelled.
 */
module Patterns {
  import opened Wrappers
  import opened Text

  /** The inline flag that makes a pattern case-insensitive. */
  const CaseFlag: string := "(?i)"
  /** The public trigger: an ASCII comma or a fullwidth comma (U+FF0C). */
  const PublicMarker: string := ",|\U{FF0C}"
  /** The sudo trigger. */
  const SudoMarker: string := "/"
  /** What follows the command token: a space or the end, then the argument text as group 2. */
  const ArgumentTail: string := "(?: |$)([\\s\\S]*)"

  /**
   * The token a pattern matches: the alias of a top-level command, or
   * "parent command" for a sub-command. `alias` stands for `alias_command`.
   */
  function CommandToken(command: string, parent: Option<string>, disallowAlias: bool,
                        alias: (string, bool) -> string): (token: string)
    ensures parent.None? ==> token == alias(command, disallowAlias)
    ensures parent.Some? ==> token == parent.value + " " + command
  {
    match parent
    case None => alias(command, disallowAlias)
    case Some(p) => p + " " + command
  }

  /** `^(<marker>)<token>(?: |$)([\s\S]*)`, before the case flag is added. */
  function CommandPattern(marker: string, token: string): string {
    "^(" + marker + ")" + token + ArgumentTail
  }

  /**
   * Adds `(?i)` in front unless the pattern already starts with it, so the
   * flag is never added twice.
   */
  function WithCaseFlag(p: string): (r: string)
    ensures StartsWith(r, CaseFlag)
    ensures StartsWith(p, CaseFlag) ==> r == p
    ensures !StartsWith(p, CaseFlag) ==> r == CaseFlag + p
  {
    if StartsWith(p, CaseFlag) then p else CaseFlag + p
  }

  /** Adding the flag a second time changes nothing. */
  lemma CaseFlagIdempotent(p: string)
    ensures WithCaseFlag(WithCaseFlag(p)) == WithCaseFlag(p)
  {
  }

  /** A compiled command pattern carries the flag exactly once. */
  lemma CommandPatternFlaggedOnce(marker: string, token: string)
    ensures WithCaseFlag(CommandPattern(marker, token)) == CaseFlag + CommandPattern(marker, token)
  {
    var p := CommandPattern(marker, token);
    assert p[0] == '^';
  }

  /** The two patterns of a registration; `None` where Python has `None`. */
  datatype PatternPair = PatternPair(pattern: Option<string>, sudoPattern: Option<string>)

  /**
   * Lines 87-99: with a command both patterns are built from its token and the
   * caller's pattern is discarded; without one the caller's pattern (or `None`)
   * is used for both tiers unchanged, apart from the case flag.
   */
  function CompilePatterns(command: Option<string>, parent: Option<string>, disallowAlias: bool,
                           custom: Option<string>, alias: (string, bool) -> string): (pp: PatternPair)
    ensures command.Some? ==>
      var token := CommandToken(command.value, parent, disallowAlias, alias);
      pp.pattern == Some(CaseFlag + CommandPattern(PublicMarker, token))
      && pp.sudoPattern == Some(CaseFlag + CommandPattern(SudoMarker, token))
    ensures command.None? && custom.None? ==> pp.pattern.None? && pp.sudoPattern.None?
    ensures command.None? && custom.Some? ==>
      pp.pattern == pp.sudoPattern == Some(WithCaseFlag(custom.value))
    ensures pp.pattern.Some? <==> pp.sudoPattern.Some?
  {
    var (pattern, sudoPattern) :=
      if command.Some? then
        var token := CommandToken(command.value, parent, disallowAlias, alias);
        (Some(CommandPattern(PublicMarker, token)), Some(CommandPattern(SudoMarker, token)))
      else (custom, custom);
    if command.Some? then
      CommandPatternFlaggedOnce(PublicMarker, CommandToken(command.value, parent, disallowAlias, alias));
      CommandPatternFlaggedOnce(SudoMarker, CommandToken(command.value, parent, disallowAlias, alias));
      PatternPair(Some(WithCaseFlag(pattern.value)), Some(WithCaseFlag(sudoPattern.value)))
    else
      PatternPair(
        if pattern.Some? then Some(WithCaseFlag(pattern.value)) else None,
        if sudoPattern.Some? then Some(WithCaseFlag(sudoPattern.value)) else None)
  }

  /**
   * Reads back the command token of a flagged command pattern for the given
   * marker; `None` if `p` does not have that shape.
   */
  function PatternToken(p: string, marker: string): (t: Option<string>)
    ensures t.Some? ==> p == CaseFlag + CommandPattern(marker, t.value)
  {
    var head := CaseFlag + "^(" + marker + ")";
    if |head| + |ArgumentTail| <= |p| && p[..|head|] == head && p[|p| - |ArgumentTail|..] == ArgumentTail then
      var t := p[|head|..|p| - |ArgumentTail|];
      assert p == head + t + ArgumentTail;
      Some(t)
    else None
  }

  /** The token can be read back from a compiled pattern: it is the one it was built from. */
  lemma {:induction false} PatternTokenRoundTrip(marker: string, token: string)
    ensures PatternToken(CaseFlag + CommandPattern(marker, token), marker) == Some(token)
  {
    var head := CaseFlag + "^(" + marker + ")";
    var p := CaseFlag + CommandPattern(marker, token);
    assert p == head + token + ArgumentTail;
    assert p[..|head|] == head;
    assert p[|p| - |ArgumentTail|..] == ArgumentTail;
    assert p[|head|..|p| - |ArgumentTail|] == token;
  }

  /**
   * For a command both patterns name the same token, each behind its own
   * marker, and the two patterns differ.
   */
  lemma CompiledTokens(command: string, parent: Option<string>, disallowAlias: bool,
                       custom: Option<string>, alias: (string, bool) -> string)
    ensures var pp := CompilePatterns(Some(command), parent, disallowAlias, custom, alias);
            var token := CommandToken(command, parent, disallowAlias, alias);
            && PatternToken(pp.pattern.value, PublicMarker) == Some(token)
            && PatternToken(pp.sudoPattern.value, SudoMarker) == Some(token)
            && pp.pattern != pp.sudoPattern
  {
    var pp := CompilePatterns(Some(command), parent, disallowAlias, custom, alias);
    var token := CommandToken(command, parent, disallowAlias, alias);
    PatternTokenRoundTrip(PublicMarker, token);
    PatternTokenRoundTrip(SudoMarker, token);
    assert pp.pattern.value[6] == ',' && pp.sudoPattern.value[6] == '/';
  }
}
