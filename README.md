# PagerMaid-Pyro command routing, modelled in Dafny

This project models the command-routing core of PagerMaid-Pyro,
`pagermaid/listener.py`: how `listener(**args)` turns a command's keyword
configuration into a normalised priority, a naming-conflict verdict, a pair
of case-insensitive trigger patterns (public `,`/`，` and sudo `/`), two
filter conjunctions, up to four dispatcher entries and a help-registry
entry; and what the handler closure does with one message: the ignore-list
check, argument parsing, the `(chat id, message id)` dedupe claim in
`read_context`, hooks and handler body, the `except` clauses and the
propagation decision. The reduced closure of `raw_listener` is modelled
beside it.

Modules, one per component:

- `Text` (`text.dfy`): Python's `split(" ")`, `" ".join`, `strip()` and their round trips.
- `Patterns` (`patterns.dfy`): command token, the two patterns, the `(?i)` flag.
- `Filters` (`filters.dfy`): filters as a set of ANDed abstract predicates, with a meaning `AdmitsAll`.
- `Registrar` (`registrar.dfy`): priority rules, conflict check, compilation, dispatcher entries,
  help registry; the class `Registry` holds `help_messages`, `all_permissions` and the
  dispatcher's handler table as fields its methods update.
- `Guard` (`guard.dfy`): the class `ReadContext` holding `read_context` as a `map<(int, int), bool>`,
  with the atomic claim and the release.
- `Arguments` (`arguments.dfy`): `message.parameter` / `message.arguments`.
- `Invocation` (`invocation.dfy`): the two closures as methods over `ReadContext`, each proved
  against a pure function of the inputs, the error classification tables, and the
  propagation lemmas.
- `Wrappers` (`wrappers.dfy`): `Option` and `Result`.

Exceptions are a tagged value `Raised`; Pyrogram's `StopPropagation`,
`ContinuePropagation` and a plain return are the outcomes `Stop`, `Continue`
and `Return`; a re-raised `KeyboardInterrupt` is `Interrupt` and
`sys.exit(0)` is `Exit`. Calls to the outside world (hooks, `message.edit`,
logging, report upload, shutdown) are recorded as an event trace.
`alias_command`, `lang`, `get_permission_name`, the permission store, the
regex engine and the ignore list are parameters.

Behaviour that follows the code rather than what one might expect:

- A rejected dedupe claim raises `ContinuePropagation` inside the `try`, so the
  `finally` block deletes the key the first claimant still holds
  (`Invocation.RejectedClaimReleasesHolder`). The same holds for the ignore path.
- The ignore path and a rejected claim end in the closure's own
  `ContinuePropagation` clause, so a blocking handler turns them into `Stop`.
- Platform errors, conversation errors and `SystemExit` do not simply continue:
  they end with the ordinary propagation decision, which stops a blocking
  handler or a sub-command that does not allow its parent to go on.
- A caller's own pattern (no `command`) is reused unchanged for the sudo
  pattern; no marker is substituted.
- An unclassified error with diagnostics off returns (line 249) before the
  propagation decision, so even a blocking handler does not stop later groups
  (`Invocation.BlockingNeverContinues`).
- `raw_listener` claims its key and never releases it (`Invocation.RawClaimPersists`);
  it diagnoses `PeerIdInvalid` and `KeyboardInterrupt` as unclassified errors.
- The conflict check tests the raw name against `help_messages` but reads the
  entry under its alias, and a missing alias entry raises a `KeyError`
  (`Registrar.CheckConflict`, `Registrar.ReRegistration`).
- The argument group of both patterns is `([\s\S]*)`, so it also captures newlines.

## Model

| member | source | states |
|---|---|---|
| `Text.Split` | pagermaid/listener.py:174 | `split(" ")` returns at least one piece and no piece contains a space |
| `Text.JoinSplit` | pagermaid/listener.py:174 | joining the pieces of a split with single spaces gives the string back |
| `Text.SplitJoin` | pagermaid/listener.py:174 | splitting the join of space-free pieces gives the pieces back |
| `Text.SplitIsEmptyPiece` | pagermaid/listener.py:175-176 | the split is `[""]` exactly for the empty string |
| `Text.RStrip` | pagermaid/listener.py:179 | the result is a prefix of the input, ends in a non-space, and only whitespace was cut |
| `Text.LStrip` | pagermaid/listener.py:179 | the result is a suffix of the input, starts with a non-space, and only whitespace was cut |
| `Text.Strip` | pagermaid/listener.py:179 | neither end of the stripped text is whitespace, and it is no longer than the input |
| `Text.StripIsTrimmedSlice` | pagermaid/listener.py:179 | `strip()` returns a slice of the input with only whitespace before and after it |
| `Text.StripTrailingSpace` | pagermaid/listener.py:179 | a trailing space does not change the stripped text |
| `Patterns.CommandToken` | pagermaid/listener.py:87-91 | the token is the alias for a top-level command and "parent command" for a sub-command |
| `Patterns.WithCaseFlag` | pagermaid/listener.py:94-99 | the result starts with `(?i)`; the flag is added only when missing |
| `Patterns.CaseFlagIdempotent` | pagermaid/listener.py:94-99 | adding the flag twice is the same as adding it once |
| `Patterns.CommandPatternFlaggedOnce` | pagermaid/listener.py:92-99 | a built command pattern gets exactly one `(?i)` prefix |
| `Patterns.CompilePatterns` | pagermaid/listener.py:58-99 | with a command, `(?i)^(,\|，)T(?: \|$)([\s\S]*)` and `(?i)^(/)T(?: \|$)([\s\S]*)`; without one, the caller's pattern (flagged) or `None` for both |
| `Patterns.PatternToken` | pagermaid/listener.py:92-93 | a token read back from a pattern rebuilds that pattern |
| `Patterns.PatternTokenRoundTrip` | pagermaid/listener.py:92-93 | the token read back from a compiled pattern is the token it was built from |
| `Patterns.CompiledTokens` | pagermaid/listener.py:87-99 | both patterns of a command carry the same token behind different markers and differ |
| `Filters.Restrictions` | pagermaid/listener.py:108-122 | forwarded, reacted, pattern, group and private restrictions are present exactly when configured, and nothing else is |
| `Filters.Direction` | pagermaid/listener.py:100-105 | outgoing-only is `me & ~via_bot`, incoming-only is `incoming & ~me`, otherwise `all` |
| `Filters.BaseFilters` | pagermaid/listener.py:100-122 | the standard filter holds the direction, each configured restriction and the pattern only when it is truthy, and nothing else |
| `Filters.SudoFilters` | pagermaid/listener.py:106-122 | the sudo filter holds the permission check, `~via_bot`, `~me`, the same restrictions and the sudo pattern, and nothing else |
| `Filters.SudoExcludesSelfAndBots` | pagermaid/listener.py:107 | a message admitted by the sudo filter is not the account's own, not via a bot, and its sender has the permission |
| `Filters.BaseFilterMeaning` | pagermaid/listener.py:100-122 | the standard filter admits a message exactly when it comes from the chosen direction and meets each configured restriction and the truthy pattern |
| `Filters.SudoFilterMeaning` | pagermaid/listener.py:106-122 | the sudo filter admits a message exactly when it is not the account's own, not via a bot, its sender holds the permission, and it meets each configured restriction and the sudo pattern |
| `Filters.BaseAndSudoDisjoint` | pagermaid/listener.py:100-107 | with the default outgoing setting no message passes both filters |
| `Registrar.DefaultArgs` | pagermaid/listener.py:51-69 | every default: priority 50, plugin, outgoing, diagnostics, ignore reacted and forwarded; no command, parent, description, parameters or pattern; every other flag false |
| `Registrar.NormalizePriority` | pagermaid/listener.py:71-77 | outside 0..100 rejected; plugin at 0 becomes 1; non-plugin needing admin becomes 0; otherwise unchanged |
| `Registrar.CheckConflict` | pagermaid/listener.py:79-86 | a top-level name already registered fails when its alias entry is missing or not later than the new priority, and otherwise forces blocking; sub-commands are not checked |
| `Registrar.Compile` | pagermaid/listener.py:87-160 | the handler configuration, patterns, permission name, both filters, `first` flag and handler name a registration produces |
| `Registrar.Prepare` | pagermaid/listener.py:71-160 | fails exactly on a bad priority or a conflict, with the priority error checked first and otherwise the conflict check's error; on success the normalised priority and the forced blocking flag |
| `Registrar.HelpRegistration` | pagermaid/listener.py:295-308 | a described top-level command gets an entry under its alias with the registration's permission, priority and usage text, parameters defaulting to `""` |
| `Registrar.HandlerEntries` | pagermaid/listener.py:268-290 | entries at p, 50+p (command), 1+p (edits), 51+p (edits and command), sudo filter at 50 and up, all with the same `first` |
| `Registrar.ReRegistration` | pagermaid/listener.py:79-86 | a second registration of a name fails or is forced to block by priority; with a differing alias it slips through |
| `Registrar.DefaultTiersDisjoint` | pagermaid/listener.py:100-107 | with the default outgoing-only direction the standard filter starts with `me & ~via_bot`, and no message passes both the standard and the sudo filter |
| `Registrar.Registry.Listener` | pagermaid/listener.py:49-311 | the result is `Prepare`'s; only a successful described top-level registration writes its help entry and permission |
| `Registrar.Registry.WriteHelp` | pagermaid/listener.py:298-308 | one help entry written and its permission appended; the invariants are kept |
| `Registrar.Registry.AddHandler` | pagermaid/listener.py:268-272 | one dispatcher entry appended |
| `Registrar.Registry.Decorate` | pagermaid/listener.py:268-290 | the dispatcher table grows by exactly `HandlerEntries`; groups stay in 0..151 |
| `Registrar.Registry.RawListener` | pagermaid/listener.py:391 | one new-message entry at group 2 with the caller's filter |
| `Guard.ReadContext.Claim` | pagermaid/listener.py:186-189 | the claim succeeds exactly when the key is absent, and the key is present afterwards |
| `Guard.ReadContext.Release` | pagermaid/listener.py:261-263 | the key is absent afterwards and nothing else changes |
| `Arguments.ParseArguments` | pagermaid/listener.py:172-184 | a failed capture leaves both `None`; a top-level command's arguments are the capture and empty parameters mean empty arguments; a sub-command's name leads the parameters |
| `Arguments.TopLevelRoundTrip` | pagermaid/listener.py:173-176 | the parameters are space-free and join back to the arguments |
| `Arguments.SubCommandRoundTrip` | pagermaid/listener.py:177-179 | a sub-command's parameters are its name plus the top-level parameters, and its arguments are their stripped join |
| `Arguments.Examples` | pagermaid/listener.py:173-181 | `,ping` gives `[]` and `""`; `,echo hello world` gives `["hello", "world"]` and `"hello world"` |
| `Invocation.ConversationHandling` | pagermaid/listener.py:221-232 | each conversation error is paired with its own warning text and lang key (`conversation_already_in_error`, `conversation_timed_out_error`, `reload_des`) |
| `Invocation.Classify` | pagermaid/listener.py:204-260 | signals pass through, platform errors and deleted messages warn, conversation errors notify, `SystemExit` shuts down, the rest is diagnosed |
| `Invocation.RawClassify` | pagermaid/listener.py:337-367 | the raw table: smaller silent set without `PeerIdInvalid`; `KeyboardInterrupt` reaches the catch-all |
| `Invocation.ClassifiersDiffer` | pagermaid/listener.py:208-215 | the two tables differ exactly on platform errors and `KeyboardInterrupt` |
| `Invocation.Decide` | pagermaid/listener.py:264-266 | stop exactly when blocking or a sub-command not allowing its parent |
| `Invocation.OnContinue` | pagermaid/listener.py:233-236 | a `ContinuePropagation` becomes `Stop` exactly for a blocking handler |
| `Invocation.BodyEvents` | pagermaid/listener.py:191-203 | the body runs unless the pre-hook raised; the post-hook runs only after a body that returned normally; hooks run exactly for a truthy command; a clean run with a command is pre, body, post, and a failing one is cut after the stage that raised |
| `Invocation.Recover` | pagermaid/listener.py:204-266 | per error class, the outcome and the events: platform errors and a deleted message one warning, conversation errors a warning and the edit with their key, `SystemExit` the shutdown sequence, signals pass through, an unclassified error edits and returns when diagnostics are off, and otherwise edits, logs, uploads when configured and calls the error hook, in that order and nothing else |
| `Invocation.CommandHandling` | pagermaid/listener.py:162-266 | a run claims exactly when not ignored and the key is free; the ignore path leaves arguments untouched; unclaimed runs do nothing and end as a `ContinuePropagation`; a claimed run's trace is the body's events followed by `Recover`'s |
| `Invocation.HandleCommand` | pagermaid/listener.py:162-266 | the closure's result is `CommandHandling`'s and the key is absent afterwards on every path, nothing else in the map changes |
| `Invocation.RawRecover` | pagermaid/listener.py:337-389 | per error class of the raw closure: stop, exit with the shutdown sequence, or continue; silent platform errors leave no events; the catch-all edits `run_error` and uploads only when configured |
| `Invocation.RawHandling` | pagermaid/listener.py:318-389 | a raw run claims exactly when not ignored and the key is free, never parses arguments, unclaimed runs continue with no events, and a claimed run calls the function only for one or two arguments, then `RawRecover` |
| `Invocation.HandleRaw` | pagermaid/listener.py:318-389 | the raw closure's result is `RawHandling`'s; a claimed key stays in the map |
| `Invocation.PropagationRules` | pagermaid/listener.py:204-266 | continue signals obey blocking, stop passes through, `Return` exactly for an undiagnosed error, `Interrupt` exactly for a keyboard interrupt, otherwise the decision |
| `Invocation.BlockingNeverContinues` | pagermaid/listener.py:233-266 | a blocking handler ends with `Stop`, `Interrupt` or an early `Return`, and returns early exactly on an unclassified error with diagnostics off |
| `Invocation.UnclassifiedReport` | pagermaid/listener.py:241-260 | with diagnostics an unclassified error is logged once, reported to the hook once, uploaded once exactly when configured, and edited into the message |
| `Invocation.HandledErrorsWriteNoReport` | pagermaid/listener.py:208-240 | reported errors write no error report, call no error hook, upload nothing and end with the decision; platform errors and a deleted message are only logged |
| `Invocation.RawCatchAllReport` | pagermaid/listener.py:367-388 | the raw catch-all edits `run_error`, uploads only when configured, never logs a report or calls the error hook, and continues |
| `Invocation.RawOutcomes` | pagermaid/listener.py:332-389 | the raw closure stops only on the function's `StopPropagation`, exits only on its `SystemExit`, otherwise continues |
| `Invocation.RejectedClaimReleasesHolder` | pagermaid/listener.py:186-263 | a rejected second claim runs nothing but deletes the holder's key, so a third claim succeeds |
| `Invocation.RawClaimPersists` | pagermaid/listener.py:328-331 | after a raw run the key stays, so a later raw run is skipped and a later command run is rejected |
| `Invocation.ReRegisteredCommandBlocks` | pagermaid/listener.py:79-86 | a command registered again at an earlier priority is forced to block, so its handler never ends with `Continue` |

## Left out

- The asyncio `_lock` and task concurrency: each claim and release is one atomic step; interleavings are shown only in `Invocation.RejectedClaimReleasesHolder` and `Invocation.RawClaimPersists`.
- Pyrogram's filter evaluation and the regex engine: filters are abstract predicates, patterns are strings.
- Pyrogram's dispatcher: `add_handler` calls are recorded in order with their `first` flag; how `first` reorders a group is not modelled.
- `message.edit`, `logs`, `attach_report`, the hooks, `process_exit`, `web.stop` and `sys.exit` are events in a trace; their own failures are not modelled (`message.edit` failures are suppressed in the source).
- The report text (timestamp, chat and user ids, message content, traceback): only the fact that a report is logged and uploaded is kept.
- `format_exc_text`: its output is the text carried by `Unclassified`.
- Deleting keys from the `args` dict (lines 123-150) and `all_permissions` holding `Permission` objects rather than names.
- `CommandHandler` and `func.set_handler`: the handler's name is kept in `Registered.name`; how `func.handler` calls the function is not modelled (`Invoke(2)`).
- `function.__code__.co_argcount`: a natural-number parameter of the raw closure.
- Python truthiness of arbitrary keyword values: flags are booleans, `priority` is an integer.
- `ignore_groups_manager.check_id`: a boolean parameter; a lookup that raises ContinuePropagation takes the ignore path, one that raises anything else counts as not ignored.
- `Invocation.BodyEvents`: records only where an exception was raised, not partial effects inside a hook.
