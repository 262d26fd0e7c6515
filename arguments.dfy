/**
 * Argument parsing in the handler closure (pagermaid/listener.py:172-184):
 * the text captured after the command becomes `message.parameter` and
 * `message.arguments`.
 */
module Arguments {
  import opened Wrappers
  import opened Text

  /**
   * What the handler leaves in `message.parameter` / `message.arguments`:
   * not touched, both `None` after a failure, or both set.
   */
  datatype ArgState = Unset | Unparsed | Parsed(parameter: seq<string>, arguments: string)

  /** A sub-command's handler: both the parent and the command are given. */
  predicate IsSubCommand(command: Option<string>, parent: Option<string>) {
    parent.Some? && command.Some?
  }

  /**
   * `capture` is group 2 of the first match, `None` when reading it fails (no
   * match object, or a custom pattern without a second group); a failure
   * leaves both attributes `None`. The text is split at single spaces, `[""]`
   * becomes `[]`, and a sub-command puts its own name in front of both.
   */
  function ParseArguments(capture: Option<string>, command: Option<string>, parent: Option<string>)
    : (a: ArgState)
    ensures a != Unset
    ensures a.Unparsed? <==> capture.None?
    ensures a.Parsed? && !IsSubCommand(command, parent) ==>
      a.arguments == capture.value && (a.parameter == [] <==> a.arguments == "")
    ensures a.Parsed? && IsSubCommand(command, parent) ==>
      && |a.parameter| >= 1 && a.parameter[0] == command.value
      && a.arguments == Strip(command.value + " " + capture.value)
  {
    match capture
    case None => Unparsed
    case Some(text) =>
      var split := Split(text);
      SplitIsEmptyPiece(text);
      var parameter := if split == [[]] then [] else split;
      if IsSubCommand(command, parent) then
        Parsed([command.value] + parameter, Strip(command.value + " " + text))
      else
        Parsed(parameter, text)
  }

  /**
   * For a top-level command the parameters are space-free and joining them
   * with single spaces gives the arguments back.
   */
  lemma TopLevelRoundTrip(text: string, command: Option<string>, parent: Option<string>)
    requires !IsSubCommand(command, parent)
    ensures var a := ParseArguments(Some(text), command, parent);
            && Join(a.parameter) == a.arguments
            && forall i :: 0 <= i < |a.parameter| ==> ' ' !in a.parameter[i]
  {
    JoinSplit(text);
  }

  /**
   * For a sub-command the parameters after the first are what the top-level
   * parse gives, and the arguments are the stripped join of all parameters.
   */
  lemma SubCommandRoundTrip(text: string, command: string, parent: string)
    ensures var a := ParseArguments(Some(text), Some(command), Some(parent));
            var top := ParseArguments(Some(text), Some(command), None);
            && a.parameter == [command] + top.parameter
            && a.arguments == Strip(Join(a.parameter))
  {
    var a := ParseArguments(Some(text), Some(command), Some(parent));
    var top := ParseArguments(Some(text), Some(command), None);
    JoinSplit(text);
    SplitIsEmptyPiece(text);
    if text == [] {
      assert a.parameter == [command];
      assert command + " " + text == command + " ";
      StripTrailingSpace(command);
    } else {
      assert a.parameter == [command] + Split(text);
      assert a.parameter[1..] == Split(text);
      assert Join(a.parameter) == command + " " + text;
    }
  }

  /** `,ping` gives no parameters and empty arguments; `,echo hello world` gives two words. */
  lemma Examples()
    ensures ParseArguments(Some(""), Some("ping"), None) == Parsed([], "")
    ensures ParseArguments(Some("hello world"), Some("echo"), None) == Parsed(["hello", "world"], "hello world")
  {
    SplitJoin(["hello", "world"]);
    assert Join(["hello", "world"]) == "hello world";
  }
}
