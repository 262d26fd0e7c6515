/**
 * Registration through `listener(**args)` (pagermaid/listener.py:49-311):
 * priority normalisation, the naming-conflict check, pattern and filter
 * compilation, the handler entries added to the dispatcher, and the help
 * registry. The shared registries (`help_messages`, `all_permissions` and the
 * dispatcher's handler table) are the fields of one `Registry` object.
 */
module Registrar {
  import opened Wrappers
  import opened Patterns
  import opened Filters

  /** The keyword arguments `listener` reads; `DefaultArgs` holds its defaults. */
  datatype ListenerArgs = ListenerArgs(
    parentCommand: Option<string>,    // "__parent_command"
    command: Option<string>,
    allowParent: bool,
    disallowAlias: bool,
    needAdmin: bool,
    description: Option<string>,
    parameters: Option<string>,
    pattern: Option<string>,
    diagnostics: bool,
    ignoreEdited: bool,
    ignoreReacted: bool,
    ignoreForwarded: bool,
    isPlugin: bool,
    incoming: bool,
    outgoing: bool,
    groupsOnly: bool,
    privatesOnly: bool,
    priority: int,
    blockProcess: bool)

  /** The values `listener` uses for every keyword its caller leaves out (lines 51-69). */
  function DefaultArgs(): (a: ListenerArgs)
    ensures a.priority == 50 && a.isPlugin && a.outgoing && !a.incoming
    ensures a.diagnostics && a.ignoreReacted && a.ignoreForwarded && !a.ignoreEdited
    ensures a.command.None? && a.parentCommand.None? && !a.blockProcess
    ensures !a.allowParent && !a.disallowAlias && !a.needAdmin && !a.groupsOnly && !a.privatesOnly
    ensures a.description.None? && a.parameters.None? && a.pattern.None?
  {
    ListenerArgs(None, None, false, false, false, None, None, None, true, false, true, true, true,
                 false, true, false, false, 50, false)
  }

  datatype RegError =
    | PriorityOutOfRange(message: string)   // ValueError at line 72
    | NameConflict(message: string)         // ValueError at line 82
    | HelpKeyMissing(key: string)           // KeyError from the lookup at line 81

  const PriorityMessage: string := "Priority must be between 0 and 100."

  /** One entry of `help_messages`. */
  datatype HelpEntry = HelpEntry(permission: string, use: string, priority: int)

  /** What the handler closure captures from its registration. */
  datatype HandlerConfig = HandlerConfig(
    command: Option<string>, parentCommand: Option<string>, allowParent: bool,
    blockProcess: bool, diagnostics: bool)

  /** The outcome of a successful `listener` call. */
  datatype Registered = Registered(
    handler: HandlerConfig,
    priority: int,
    patterns: PatternPair,
    filters: FilterPair,
    permission: string,
    ignoreEdited: bool,
    first: bool,              // the `first=` flag of every add_handler call
    name: Option<string>)     // the name given to CommandHandler

  datatype EventKind = NewMessage | EditedMessage

  /** The closure a dispatcher entry calls: a `listener` handler, or a `raw_listener` one. */
  datatype Callback = Command(config: HandlerConfig) | Raw(argCount: nat)

  /** One `add_handler` call: handler class, callback, filters, group and `first`. */
  datatype HandlerEntry = HandlerEntry(
    event: EventKind, callback: Callback, filters: set<Filter>, group: int, first: bool)

  /**
   * Lines 71-77. A priority outside 0..100 is rejected; a plugin asking for 0
   * gets 1; otherwise a non-plugin command needing admin rights gets 0; any
   * other priority is kept.
   */
  function NormalizePriority(priority: int, isPlugin: bool, needAdmin: bool): (r: Result<int, RegError>)
    ensures r.Failure? <==> priority < 0 || priority > 100
    ensures r.Failure? ==> r.error == PriorityOutOfRange(PriorityMessage)
    ensures r.Success? ==> 0 <= r.value <= 100
    ensures r.Success? && isPlugin ==> r.value >= 1
    ensures r.Success? && isPlugin && priority == 0 ==> r.value == 1
    ensures r.Success? && !isPlugin && needAdmin ==> r.value == 0
    ensures r.Success? && priority != 0 && (isPlugin || !needAdmin) ==> r.value == priority
    ensures r.Success? && !isPlugin && !needAdmin ==> r.value == priority
  {
    if priority < 0 || priority > 100 then Failure(PriorityOutOfRange(PriorityMessage))
    else if priority == 0 && isPlugin then Success(1)
    else if !isPlugin && needAdmin then Success(0)
    else Success(priority)
  }

  /** The conflict message of line 83; `lang` stands for the localised-string lookup. */
  function ConflictMessage(command: string, lang: string -> string): string {
    lang("error_prefix") + " " + lang("command") + " \"" + command + "\" " + lang("has_reg")
  }

  /**
   * Whether re-registering `command` at `priority` fails: the name itself is
   * in the registry, and the entry under its alias is missing or holds a
   * priority no higher than the new one.
   */
  predicate Conflicts(help: map<string, HelpEntry>, command: string, priority: int,
                      alias: (string, bool) -> string)
  {
    var key := alias(command, false);
    command in help && (key !in help || help[key].priority <= priority)
  }

  /**
   * Lines 79-86, for a registration with a command. A sub-command is never
   * checked. A top-level name that is already registered fails when the entry
   * under its alias is missing (the lookup raises) or has a priority no higher
   * than the new one, and otherwise the new registration is forced to block.
   * The membership test uses the raw name and the lookup its alias.
   */
  function CheckConflict(help: map<string, HelpEntry>, command: string, hasParent: bool, priority: int,
                         blockProcess: bool, alias: (string, bool) -> string, lang: string -> string)
    : (r: Result<bool, RegError>)
    ensures r.Failure? <==> !hasParent && Conflicts(help, command, priority, alias)
    ensures r.Failure? && alias(command, false) in help ==> r.error == NameConflict(ConflictMessage(command, lang))
    ensures r.Failure? && alias(command, false) !in help ==> r.error == HelpKeyMissing(alias(command, false))
    ensures r.Success? ==> r.value == (blockProcess || (!hasParent && command in help))
  {
    if !hasParent && command in help then
      var key := alias(command, false);
      if key !in help then Failure(HelpKeyMissing(key))
      else if help[key].priority <= priority then Failure(NameConflict(ConflictMessage(command, lang)))
      else Success(true)
    else Success(blockProcess)
  }

  /**
   * Lines 87-122 and 152-160, once the priority and the blocking flag are
   * settled: the handler configuration, patterns, permission name, filters,
   * `first` flag and handler name.
   */
  function Compile(a: ListenerArgs, priority: int, blockProcess: bool, alias: (string, bool) -> string,
                   permissionName: (bool, bool, Option<string>) -> string): (reg: Registered)
    ensures reg.priority == priority
    ensures reg.handler == HandlerConfig(a.command, a.parentCommand, a.allowParent, blockProcess, a.diagnostics)
    ensures reg.first == (Truthy(a.parentCommand) && !a.allowParent)
    ensures reg.permission == permissionName(a.isPlugin, a.needAdmin, a.command)
    ensures reg.patterns == CompilePatterns(a.command, a.parentCommand, a.disallowAlias, a.pattern, alias)
    ensures reg.ignoreEdited == a.ignoreEdited
    ensures reg.filters == ComposeFilters(a.outgoing, a.incoming, reg.permission, a.ignoreForwarded,
                                          a.ignoreReacted, reg.patterns, a.groupsOnly, a.privatesOnly)
    ensures reg.name.Some? <==> Truthy(a.command) && a.parentCommand.None?
    ensures reg.name.Some? ==> reg.name.value == alias(a.command.value, a.disallowAlias)
  {
    var patterns := CompilePatterns(a.command, a.parentCommand, a.disallowAlias, a.pattern, alias);
    var permission := permissionName(a.isPlugin, a.needAdmin, a.command);
    var filters := ComposeFilters(a.outgoing, a.incoming, permission, a.ignoreForwarded, a.ignoreReacted,
                                  patterns, a.groupsOnly, a.privatesOnly);
    var name := if Truthy(a.command) && a.parentCommand.None? then Some(alias(a.command.value, a.disallowAlias)) else None;
    Registered(
      HandlerConfig(a.command, a.parentCommand, a.allowParent, blockProcess, a.diagnostics),
      priority, patterns, filters, permission, a.ignoreEdited,
      Truthy(a.parentCommand) && !a.allowParent, name)
  }

  /**
   * Lines 49-160, everything `listener` computes before it writes the help
   * registry: the priority error first, then the conflict error; on success
   * the normalised priority, and blocking forced on when a top-level name is
   * registered again.
   */
  function Prepare(a: ListenerArgs, help: map<string, HelpEntry>, alias: (string, bool) -> string,
                   lang: string -> string, permissionName: (bool, bool, Option<string>) -> string)
    : (r: Result<Registered, RegError>)
    ensures r.Failure? <==>
      || a.priority < 0 || a.priority > 100
      || (a.command.Some? && a.parentCommand.None?
          && Conflicts(help, a.command.value, NormalizePriority(a.priority, a.isPlugin, a.needAdmin).value, alias))
    ensures r.Success? ==>
      && Success(r.value.priority) == NormalizePriority(a.priority, a.isPlugin, a.needAdmin)
      && r.value.handler.blockProcess == (a.blockProcess || (a.command.Some? && a.parentCommand.None? && a.command.value in help))
      && r.value == Compile(a, r.value.priority, r.value.handler.blockProcess, alias, permissionName)
    ensures a.priority < 0 || a.priority > 100 ==> r == Failure(PriorityOutOfRange(PriorityMessage))
    ensures r.Failure? && 0 <= a.priority <= 100 ==>
      && a.command.Some?
      && r.error == CheckConflict(help, a.command.value, a.parentCommand.Some?,
                                  NormalizePriority(a.priority, a.isPlugin, a.needAdmin).value,
                                  a.blockProcess, alias, lang).error
  {
    match NormalizePriority(a.priority, a.isPlugin, a.needAdmin)
    case Failure(e) => Failure(e)
    case Success(priority) =>
      var checked :=
        if a.command.Some? then
          CheckConflict(help, a.command.value, a.parentCommand.Some?, priority, a.blockProcess, alias, lang)
        else Success(a.blockProcess);
      match checked
      case Failure(e) => Failure(e)
      case Success(blockProcess) => Success(Compile(a, priority, blockProcess, alias, permissionName))
  }

  /** The usage text of a help entry (lines 302-304). */
  function Usage(command: string, parameters: string, permission: string, description: string,
                 lang: string -> string): string
  {
    "**" + lang("use_method") + ":** `," + command + " " + parameters + "`\n"
    + "**" + lang("need_permission") + ":** `" + permission + "`\n"
    + description
  }

  /**
   * Lines 295-308: a top-level command with a description gets a help entry
   * under its alias, holding the permission name, the usage text (parameters
   * default to "") and the normalised priority.
   */
  function HelpRegistration(a: ListenerArgs, reg: Registered, alias: (string, bool) -> string,
                            lang: string -> string): (h: Option<(string, HelpEntry)>)
    ensures h.Some? <==> a.description.Some? && a.command.Some? && a.parentCommand.None?
    ensures h.Some? ==>
      && h.value.0 == alias(a.command.value, false)
      && h.value.1.permission == reg.permission
      && h.value.1.priority == reg.priority
      && h.value.1.use == Usage(a.command.value, a.parameters.GetOr(""), reg.permission, a.description.value, lang)
  {
    if a.description.Some? && a.command.Some? && a.parentCommand.None? then
      var parameters := a.parameters.GetOr("");
      Some((alias(a.command.value, false),
            HelpEntry(reg.permission, Usage(a.command.value, parameters, reg.permission, a.description.value, lang),
                      reg.priority)))
    else None
  }

  /**
   * Lines 268-290: the entries the decorator adds, in order: new messages with
   * the standard filter at group p; with a truthy command, new messages with
   * the sudo filter at 50+p; unless edits are ignored, edited messages with the
   * standard filter at 1+p and, with a truthy command, with the sudo filter at
   * 51+p. All share the same `first` flag.
   */
  function HandlerEntries(reg: Registered): (es: seq<HandlerEntry>)
    ensures |es| == (if Truthy(reg.handler.command) then 2 else 1) * (if reg.ignoreEdited then 1 else 2)
    ensures es[0] == HandlerEntry(NewMessage, Command(reg.handler), reg.filters.base, reg.priority, reg.first)
    ensures forall i :: 0 <= i < |es| ==>
      && es[i].callback == Command(reg.handler)
      && es[i].first == reg.first
      && es[i].group - reg.priority in {0, 1, 50, 51}
      && (es[i].filters == if es[i].group - reg.priority >= 50 then reg.filters.sudo else reg.filters.base)
      && (es[i].event == if (es[i].group - reg.priority) % 50 == 1 then EditedMessage else NewMessage)
    ensures forall i, j :: 0 <= i < j < |es| ==> es[i].group != es[j].group
    ensures forall i :: 0 <= i < |es| && es[i].group - reg.priority >= 50 ==> Truthy(reg.handler.command)
    ensures forall i :: 0 <= i < |es| && es[i].event == EditedMessage ==> !reg.ignoreEdited
  {
    var cb := Command(reg.handler);
    var p := reg.priority;
    var sudo := Truthy(reg.handler.command);
    [HandlerEntry(NewMessage, cb, reg.filters.base, 0 + p, reg.first)]
    + (if sudo then [HandlerEntry(NewMessage, cb, reg.filters.sudo, 50 + p, reg.first)] else [])
    + (if !reg.ignoreEdited then
         [HandlerEntry(EditedMessage, cb, reg.filters.base, 1 + p, reg.first)]
         + (if sudo then [HandlerEntry(EditedMessage, cb, reg.filters.sudo, 51 + p, reg.first)] else [])
       else [])
  }

  /**
   * A described top-level command has its help entry written under its alias.
   * Registering the same name again then follows the priority rule when the
   * alias is the name itself: it fails at the same or a later priority and is
   * forced to block at an earlier one. When the alias differs and the name was
   * not a key before, the membership test on the name misses the entry and
   * the second registration goes through unchanged.
   */
  lemma ReRegistration(a1: ListenerArgs, a2: ListenerArgs, help: map<string, HelpEntry>,
                       alias: (string, bool) -> string, lang: string -> string,
                       permissionName: (bool, bool, Option<string>) -> string)
    requires a1.command.Some? && a1.parentCommand.None? && a1.description.Some?
    requires Prepare(a1, help, alias, lang, permissionName).Success?
    requires a2.command == a1.command && a2.parentCommand.None?
    requires 0 <= a2.priority <= 100
    ensures
      var reg1 := Prepare(a1, help, alias, lang, permissionName).value;
      var h := HelpRegistration(a1, reg1, alias, lang).value;
      var after := help[h.0 := h.1];
      var c := a1.command.value;
      var q := NormalizePriority(a2.priority, a2.isPlugin, a2.needAdmin).value;
      var r2 := Prepare(a2, after, alias, lang, permissionName);
      && (alias(c, false) == c ==> (r2.Failure? <==> reg1.priority <= q))
      && (alias(c, false) == c && r2.Success? ==> r2.value.handler.blockProcess)
      && (alias(c, false) != c && c !in help ==> r2.Success? && r2.value.handler.blockProcess == a2.blockProcess)
  {
    var reg1 := Prepare(a1, help, alias, lang, permissionName).value;
    var h := HelpRegistration(a1, reg1, alias, lang).value;
    var after := help[h.0 := h.1];
    var c := a1.command.value;
    assert h.0 == alias(c, false) && h.1.priority == reg1.priority;
    if alias(c, false) != c && c !in help {
      assert c !in after;
    }
  }

  /**
   * With the default direction (outgoing only), a registration's standard
   * filter starts with `me & ~via_bot`, so no message passes both its
   * standard and its sudo filter.
   */
  lemma DefaultTiersDisjoint(a: ListenerArgs, priority: int, blockProcess: bool,
                             alias: (string, bool) -> string,
                             permissionName: (bool, bool, Option<string>) -> string, m: MessageFacts,
                             permitted: string -> bool, matches: string -> bool, custom: int -> bool)
    requires a.outgoing == DefaultArgs().outgoing && a.incoming == DefaultArgs().incoming
    ensures Direction(a.outgoing, a.incoming) == {Me, NotViaBot}
    ensures var reg := Compile(a, priority, blockProcess, alias, permissionName);
      !(AdmitsAll(reg.filters.base, m, permitted, matches, custom)
        && AdmitsAll(reg.filters.sudo, m, permitted, matches, custom))
  {
    var reg := Compile(a, priority, blockProcess, alias, permissionName);
    BaseAndSudoDisjoint(reg.permission, a.ignoreForwarded, a.ignoreReacted, reg.patterns,
                        a.groupsOnly, a.privatesOnly, m, permitted, matches, custom);
  }

  /** The shared registries `listener` and `raw_listener` write to. */
  class Registry {
    var helpMessages: map<string, HelpEntry>   // pagermaid.static.help_messages
    var allPermissions: seq<string>            // pagermaid.static.all_permissions
    var handlers: seq<HandlerEntry>            // every add_handler call, in order

    /** Help priorities stay in 0..100, every help permission is listed, every group is in 0..151. */
    ghost predicate Valid()
      reads this
    {
      && (forall k :: k in helpMessages ==> 0 <= helpMessages[k].priority <= 100)
      && (forall k :: k in helpMessages ==> helpMessages[k].permission in allPermissions)
      && (forall i :: 0 <= i < |handlers| ==> 0 <= handlers[i].group <= 151)
    }

    constructor ()
      ensures Valid()
      ensures helpMessages == map[] && allPermissions == [] && handlers == []
    {
      helpMessages, allPermissions, handlers := map[], [], [];
    }

    /**
     * `listener(**args)` up to the returned decorator: validates, compiles and,
     * for a described top-level command, writes its help entry and permission.
     * Nothing is written when it fails.
     */
    method Listener(a: ListenerArgs, alias: (string, bool) -> string, lang: string -> string,
                    permissionName: (bool, bool, Option<string>) -> string)
      returns (r: Result<Registered, RegError>)
      requires Valid()
      modifies this
      ensures Valid()
      ensures r == Prepare(a, old(helpMessages), alias, lang, permissionName)
      ensures handlers == old(handlers)
      ensures r.Success? && HelpRegistration(a, r.value, alias, lang).Some? ==>
        var h := HelpRegistration(a, r.value, alias, lang).value;
        && helpMessages == old(helpMessages)[h.0 := h.1]
        && allPermissions == old(allPermissions) + [r.value.permission]
      ensures r.Failure? || HelpRegistration(a, r.value, alias, lang).None? ==>
        helpMessages == old(helpMessages) && allPermissions == old(allPermissions)
    {
      r := Prepare(a, helpMessages, alias, lang, permissionName);
      if r.Success? {
        var h := HelpRegistration(a, r.value, alias, lang);
        if h.Some? {
          WriteHelp(h.value.0, h.value.1);
        }
      }
    }

    /** Lines 298-308: one help entry, and its permission appended to the permission list. */
    method WriteHelp(key: string, entry: HelpEntry)
      requires Valid() && 0 <= entry.priority <= 100
      modifies this
      ensures Valid()
      ensures helpMessages == old(helpMessages)[key := entry]
      ensures allPermissions == old(allPermissions) + [entry.permission]
      ensures handlers == old(handlers)
    {
      helpMessages := helpMessages[key := entry];
      allPermissions := allPermissions + [entry.permission];
    }

    /** `bot.dispatcher.add_handler(...)`, recorded in call order. */
    method AddHandler(e: HandlerEntry)
      requires Valid() && 0 <= e.group <= 151
      modifies this
      ensures Valid()
      ensures handlers == old(handlers) + [e]
      ensures helpMessages == old(helpMessages) && allPermissions == old(allPermissions)
    {
      handlers := handlers + [e];
    }

    /** The decorator's registration of the handler closure (lines 268-290). */
    method Decorate(reg: Registered)
      requires Valid() && 0 <= reg.priority <= 100
      modifies this
      ensures Valid()
      ensures handlers == old(handlers) + HandlerEntries(reg)
      ensures helpMessages == old(helpMessages) && allPermissions == old(allPermissions)
    {
      var cb := Command(reg.handler);
      var p := reg.priority;
      AddHandler(HandlerEntry(NewMessage, cb, reg.filters.base, 0 + p, reg.first));
      if Truthy(reg.handler.command) {
        AddHandler(HandlerEntry(NewMessage, cb, reg.filters.sudo, 50 + p, reg.first));
      }
      if !reg.ignoreEdited {
        AddHandler(HandlerEntry(EditedMessage, cb, reg.filters.base, 1 + p, reg.first));
        if Truthy(reg.handler.command) {
          AddHandler(HandlerEntry(EditedMessage, cb, reg.filters.sudo, 51 + p, reg.first));
        }
      }
    }

    /** `raw_listener(filter_s)` applied to a function: one entry at group 2 (line 391). */
    method RawListener(filter: Filter, argCount: nat)
      requires Valid()
      modifies this
      ensures Valid()
      ensures handlers == old(handlers) + [HandlerEntry(NewMessage, Raw(argCount), {filter}, 2, false)]
      ensures helpMessages == old(helpMessages) && allPermissions == old(allPermissions)
    {
      AddHandler(HandlerEntry(NewMessage, Raw(argCount), {filter}, 2, false));
    }
  }
}
