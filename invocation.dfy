/**
 * The handler closures (pagermaid/listener.py:162-266 for `listener`,
 * 318-389 for `raw_listener`): ignore-list check, argument parsing, dedupe
 * claim, hooks and handler body, the `except` clauses and the propagation
 * decision. Exceptions are a tagged value (`Raised`), and what the closure
 * does to the outside world is a trace of `Event`s. Pyrogram's
 * StopPropagation, ContinuePropagation and a plain return become the
 * outcomes `Stop`, `Continue` and `Return`.
 */
module Invocation {
  import opened Wrappers
  import opened Filters
  import opened Registrar
  import opened Guard
  import opened Arguments

  /** The platform errors the `listener` handler only logs (lines 208-215). */
  datatype PlatformError =
    UserNotParticipant | MessageNotModified | MessageEmpty | Flood | Forbidden | PeerIdInvalid

  /** What escapes the hooks or the handler body; `Completed` when nothing does. */
  datatype Raised =
    | Completed
    | StopPropagation
    | ContinuePropagation
    | KeyboardInterrupt
    | Platform(error: PlatformError)
    | MessageIdInvalid
    | AlreadyInConversation
    | TimeoutConversation
    | ListenerCanceled
    | SystemExit
    | Unclassified(text: string)   // any other exception, with its formatted text

  /** Where the exception was raised: the pre-hook, the handler body or the post-hook. */
  datatype Stage = PreHook | Body | PostHook

  datatype Run = Run(raised: Raised, stage: Stage)

  /**
   * How the closure ends: Pyrogram's StopPropagation or ContinuePropagation,
   * a plain return, KeyboardInterrupt re-raised, or SystemExit raised by
   * `sys.exit(0)`.
   */
  datatype Outcome = Continue | Stop | Return | Interrupt | Exit

  /** The closure's calls to the outside world, in order. */
  datatype Event =
    | CommandPre(top: string, sub: Option<string>)    // Hook.command_pre
    | Invoke(argCount: nat)                           // the handler body, with 1 or 2 arguments
    | CommandPost(top: string, sub: Option<string>)   // Hook.command_post
    | Warn(text: string)                              // logs.warning
    | Edit(text: string)                              // message.edit, failures suppressed
    | ErrorLog                                        // logs.error(report)
    | ReportUpload(notice: string)                    // attach_report
    | ErrorHook(command: Option<string>)              // Hook.process_error_exec
    | ProcessExit                                     // process_exit(start=False, ...)
    | HookShutdown                                    // Hook.shutdown
    | WebStop                                         // web.stop
    | SysExit                                         // sys.exit(0)

  /** The localised-string lookup and `Config.ERROR_REPORT`. */
  datatype Environment = Environment(lang: string -> string, errorReport: bool)

  /** What one run of a closure produced. */
  datatype Invoked = Invoked(outcome: Outcome, trace: seq<Event>, args: ArgState, claimed: bool)

  /** How an `except` clause treats a raised condition. */
  datatype Handling =
    | NoError
    | Signal                                   // re-raised as a propagation or interrupt signal
    | Silent                                   // swallowed without a trace
    | Warned(text: string)                     // one warning
    | Notified(text: string, langKey: string)  // a warning and an edit with a localised text
    | ShutDown                                 // the shutdown sequence
    | Diagnosed                                // the full error report

  const PlatformWarning: string := "An unknown chat error occurred while processing a command."
  const DeletedWarning: string := "Please Don't Delete Commands While it's Processing.."
  const ConversationWarning: string := "Please Don't Send Commands In The Same Conversation.."
  const TimeoutWarning: string := "Conversation Timed out while processing commands.."
  const CanceledWarning: string := "Listener Canceled While Processing Commands.."
  const CommandReportNotice: string := "PGP Error report generated."
  const RawReportNotice: string := "Error report generated."

  /** The conversation errors share one treatment in both closures. */
  function ConversationHandling(r: Raised): (h: Handling)
    requires r == AlreadyInConversation || r == TimeoutConversation || r == ListenerCanceled
    ensures r == AlreadyInConversation ==> h == Notified(ConversationWarning, "conversation_already_in_error")
    ensures r == TimeoutConversation ==> h == Notified(TimeoutWarning, "conversation_timed_out_error")
    ensures r == ListenerCanceled ==> h == Notified(CanceledWarning, "reload_des")
  {
    match r
    case AlreadyInConversation => Notified(ConversationWarning, "conversation_already_in_error")
    case TimeoutConversation => Notified(TimeoutWarning, "conversation_timed_out_error")
    case ListenerCanceled => Notified(CanceledWarning, "reload_des")
  }

  /** The `except` clauses of the `listener` closure (lines 204-260). */
  function Classify(r: Raised): (h: Handling)
    ensures h == NoError <==> r == Completed
    ensures h == Signal <==> r == StopPropagation || r == ContinuePropagation || r == KeyboardInterrupt
    ensures h == Warned(PlatformWarning) <==> r.Platform?
    ensures h == Warned(DeletedWarning) <==> r == MessageIdInvalid
    ensures h.Notified? <==> r == AlreadyInConversation || r == TimeoutConversation || r == ListenerCanceled
    ensures h == ShutDown <==> r == SystemExit
    ensures h == Diagnosed <==> r.Unclassified?
    ensures h != Silent
  {
    match r
    case Completed => NoError
    case StopPropagation => Signal
    case KeyboardInterrupt => Signal
    case Platform(_) => Warned(PlatformWarning)
    case MessageIdInvalid => Warned(DeletedWarning)
    case AlreadyInConversation => ConversationHandling(r)
    case TimeoutConversation => ConversationHandling(r)
    case ListenerCanceled => ConversationHandling(r)
    case ContinuePropagation => Signal
    case SystemExit => ShutDown
    case Unclassified(_) => Diagnosed
  }

  /**
   * The `except` clauses of the `raw_listener` closure (lines 337-367): a
   * smaller silent set without PeerIdInvalid, and no clause of its own for
   * KeyboardInterrupt, so both reach the catch-all.
   */
  function RawClassify(r: Raised): (h: Handling)
    ensures h == Signal <==> r == StopPropagation || r == ContinuePropagation
    ensures h == Silent <==> r.Platform? && r.error != PeerIdInvalid
    ensures h == Diagnosed <==> r.Unclassified? || r == Platform(PeerIdInvalid) || r == KeyboardInterrupt
  {
    match r
    case Completed => NoError
    case StopPropagation => Signal
    case ContinuePropagation => Signal
    case MessageIdInvalid => Warned(DeletedWarning)
    case AlreadyInConversation => ConversationHandling(r)
    case TimeoutConversation => ConversationHandling(r)
    case ListenerCanceled => ConversationHandling(r)
    case SystemExit => ShutDown
    case Platform(e) => if e == PeerIdInvalid then Diagnosed else Silent
    case KeyboardInterrupt => Diagnosed
    case Unclassified(_) => Diagnosed
  }

  /** The two tables disagree exactly on the platform errors and on KeyboardInterrupt. */
  lemma ClassifiersDiffer(r: Raised)
    ensures Classify(r) != RawClassify(r) <==> r.Platform? || r == KeyboardInterrupt
  {
  }

  /** Lines 264-265: stop when blocking, or for a sub-command that does not allow its parent to go on. */
  predicate Blocks(cfg: HandlerConfig) {
    cfg.blockProcess || (Truthy(cfg.parentCommand) && !cfg.allowParent)
  }

  /** The propagation decision at the end of a handled run. */
  function Decide(cfg: HandlerConfig): (o: Outcome)
    ensures o == Stop <==> Blocks(cfg)
    ensures o == Continue <==> !Blocks(cfg)
  {
    if Blocks(cfg) then Stop else Continue
  }

  /** Lines 233-236: a ContinuePropagation reaching the closure's own clause. */
  function OnContinue(cfg: HandlerConfig): (o: Outcome)
    ensures o == Stop <==> cfg.blockProcess
    ensures o == Continue <==> !cfg.blockProcess
  {
    if cfg.blockProcess then Stop else Continue
  }

  /** The hook arguments: `parent_command or command`, and `command if parent_command else None`. */
  function HookTop(cfg: HandlerConfig): string
    requires cfg.command.Some?
  {
    if Truthy(cfg.parentCommand) then cfg.parentCommand.value else cfg.command.value
  }

  function HookSub(cfg: HandlerConfig): Option<string> {
    if Truthy(cfg.parentCommand) then cfg.command else None
  }

  /** How many of pre-hook, body and post-hook have started when a run raises at `stage`. */
  function StageLength(stage: Stage): nat {
    match stage
    case PreHook => 1
    case Body => 2
    case PostHook => 3
  }

  /**
   * Lines 191-203: the pre-hook (truthy command only), the handler body, the
   * post-hook (truthy command only), each run only if nothing was raised
   * before it. Without hooks an exception can only come from the body.
   */
  function BodyEvents(cfg: HandlerConfig, run: Run): (es: seq<Event>)
    ensures Invoke(2) in es <==> !(Truthy(cfg.command) && run.raised != Completed && run.stage == PreHook)
    ensures (exists t, s :: CommandPost(t, s) in es) ==> Invoke(2) in es
    ensures (exists t, s :: CommandPost(t, s) in es) ==> run.raised == Completed || run.stage == PostHook
    ensures (exists t, s :: CommandPre(t, s) in es) <==> Truthy(cfg.command)
    ensures Truthy(cfg.command) && run.raised == Completed ==>
      es == [CommandPre(HookTop(cfg), HookSub(cfg)), Invoke(2), CommandPost(HookTop(cfg), HookSub(cfg))]
    ensures Truthy(cfg.command) && run.raised != Completed ==>
      es == [CommandPre(HookTop(cfg), HookSub(cfg)), Invoke(2), CommandPost(HookTop(cfg), HookSub(cfg))]
            [..StageLength(run.stage)]
    ensures !Truthy(cfg.command) ==> es == [Invoke(2)]
  {
    if !Truthy(cfg.command) then [Invoke(2)]
    else
      var top, sub := HookTop(cfg), HookSub(cfg);
      var failed := run.raised != Completed;
      [CommandPre(top, sub)]
      + (if failed && run.stage == PreHook then [] else [Invoke(2)])
      + (if failed && run.stage != PostHook then [] else [CommandPost(top, sub)])
  }

  datatype Recovery = Recovery(outcome: Outcome, events: seq<Event>)

  /**
   * The `except` clauses and the propagation decision of the `listener`
   * closure (lines 204-260, 264-266) for what the guarded part raised.
   */
  function Recover(cfg: HandlerConfig, r: Raised, env: Environment): (rec: Recovery)
    ensures r == Completed ==> rec == Recovery(Decide(cfg), [])
    ensures r == StopPropagation ==> rec == Recovery(Stop, [])
    ensures r == ContinuePropagation ==> rec == Recovery(OnContinue(cfg), [])
    ensures r == KeyboardInterrupt ==> rec == Recovery(Interrupt, [])
    ensures r.Platform? ==> rec == Recovery(Decide(cfg), [Warn(PlatformWarning)])
    ensures r == MessageIdInvalid ==> rec == Recovery(Decide(cfg), [Warn(DeletedWarning)])
    ensures r == AlreadyInConversation ==>
      rec == Recovery(Decide(cfg), [Warn(ConversationWarning), Edit(env.lang("conversation_already_in_error"))])
    ensures r == TimeoutConversation ==>
      rec == Recovery(Decide(cfg), [Warn(TimeoutWarning), Edit(env.lang("conversation_timed_out_error"))])
    ensures r == ListenerCanceled ==>
      rec == Recovery(Decide(cfg), [Warn(CanceledWarning), Edit(env.lang("reload_des"))])
    ensures r == SystemExit ==> rec == Recovery(Decide(cfg), [ProcessExit, HookShutdown, WebStop])
    ensures r.Unclassified? ==> |rec.events| >= 1 && rec.events[0] == Edit(env.lang("run_error") + "\n\n" + r.text)
    ensures r.Unclassified? ==> (rec.outcome == Return <==> !cfg.diagnostics)
    ensures r.Unclassified? && !cfg.diagnostics ==> |rec.events| == 1
    ensures r.Unclassified? && cfg.diagnostics ==> rec.outcome == Decide(cfg)
    ensures r.Unclassified? && cfg.diagnostics ==>
      rec.events == [Edit(env.lang("run_error") + "\n\n" + r.text), ErrorLog]
                    + (if env.errorReport then [ReportUpload(CommandReportNotice)] else [])
                    + [ErrorHook(cfg.command)]
  {
    match Classify(r)
    case NoError => Recovery(Decide(cfg), [])
    case Signal =>
      if r == StopPropagation then Recovery(Stop, [])
      else if r == ContinuePropagation then Recovery(OnContinue(cfg), [])
      else Recovery(Interrupt, [])
    case Silent => Recovery(Decide(cfg), [])
    case Warned(text) => Recovery(Decide(cfg), [Warn(text)])
    case Notified(text, key) => Recovery(Decide(cfg), [Warn(text), Edit(env.lang(key))])
    case ShutDown => Recovery(Decide(cfg), [ProcessExit, HookShutdown, WebStop])
    case Diagnosed =>
      var edit := Edit(env.lang("run_error") + "\n\n" + r.text);
      if !cfg.diagnostics then Recovery(Return, [edit])
      else
        Recovery(Decide(cfg),
                 [edit, ErrorLog]
                 + (if env.errorReport then [ReportUpload(CommandReportNotice)] else [])
                 + [ErrorHook(cfg.command)])
  }

  /**
   * One run of the `listener` closure. `ignored` is the ignore-list answer
   * (a ContinuePropagation from the lookup counts as ignored, any other
   * exception as not ignored), `capture` the
   * argument text and `held` whether the dedupe key is already in the map.
   * An ignored message and a rejected claim both raise ContinuePropagation
   * inside the guarded part, so they end like a ContinuePropagation from the
   * body, with no events.
   */
  function CommandHandling(cfg: HandlerConfig, ignored: bool, capture: Option<string>, held: bool,
                           run: Run, env: Environment): (v: Invoked)
    ensures v.claimed <==> !ignored && !held
    ensures ignored ==> v.args == Unset
    ensures !ignored ==> v.args == ParseArguments(capture, cfg.command, cfg.parentCommand)
    ensures !v.claimed ==> v.trace == [] && v.outcome == OnContinue(cfg)
    ensures v.claimed ==>
      && v.outcome == Recover(cfg, run.raised, env).outcome
      && v.trace == BodyEvents(cfg, run) + Recover(cfg, run.raised, env).events
  {
    if ignored then Invoked(OnContinue(cfg), [], Unset, false)
    else
      var args := ParseArguments(capture, cfg.command, cfg.parentCommand);
      if held then Invoked(OnContinue(cfg), [], args, false)
      else
        var rec := Recover(cfg, run.raised, env);
        Invoked(rec.outcome, BodyEvents(cfg, run) + rec.events, args, true)
  }

  /**
   * The `listener` closure over the shared dedupe map. Whatever happens, the
   * `finally` block leaves the key absent, also when this run never claimed it.
   */
  method HandleCommand(ctx: ReadContext, cfg: HandlerConfig, key: Key, ignored: bool,
                       capture: Option<string>, run: Run, env: Environment)
    returns (v: Invoked)
    requires ctx.Valid()
    modifies ctx
    ensures ctx.Valid()
    ensures v == CommandHandling(cfg, ignored, capture, key in old(ctx.entries), run, env)
    ensures ctx.entries == old(ctx.entries) - {key}
  {
    // try: the ignore check, then the claim under the lock
    var claimed := false;
    if !ignored {
      claimed := ctx.Claim(key);
    }
    // the rest of the guarded part and the except clauses
    v := CommandHandling(cfg, ignored, capture, !claimed, run, env);
    // finally:
    ctx.Release(key);
  }

  /**
   * The `except` clauses of the `raw_listener` closure (lines 337-389) for
   * what the function raised: every run not stopped or exited ends with
   * `message.continue_propagation()`, and the catch-all edits the fixed
   * `run_error` text and uploads a report only when configured.
   */
  function RawRecover(r: Raised, env: Environment): (rec: Recovery)
    ensures r == StopPropagation ==> rec == Recovery(Stop, [])
    ensures r == SystemExit ==> rec == Recovery(Exit, [ProcessExit, HookShutdown, SysExit])
    ensures r != StopPropagation && r != SystemExit ==> rec.outcome == Continue
    ensures r == Completed || r == ContinuePropagation || (r.Platform? && r.error != PeerIdInvalid) ==>
      rec.events == []
    ensures r == MessageIdInvalid ==> rec.events == [Warn(DeletedWarning)]
    ensures r == AlreadyInConversation ==>
      rec.events == [Warn(ConversationWarning), Edit(env.lang("conversation_already_in_error"))]
    ensures r == TimeoutConversation ==>
      rec.events == [Warn(TimeoutWarning), Edit(env.lang("conversation_timed_out_error"))]
    ensures r == ListenerCanceled ==>
      rec.events == [Warn(CanceledWarning), Edit(env.lang("reload_des"))]
    ensures RawClassify(r) == Diagnosed ==>
      rec.events == [Edit(env.lang("run_error"))] + (if env.errorReport then [ReportUpload(RawReportNotice)] else [])
  {
    match RawClassify(r)
    case Signal => Recovery(if r == StopPropagation then Stop else Continue, [])
    case ShutDown => Recovery(Exit, [ProcessExit, HookShutdown, SysExit])
    case Warned(text) => Recovery(Continue, [Warn(text)])
    case Notified(text, key) => Recovery(Continue, [Warn(text), Edit(env.lang(key))])
    case Diagnosed =>
      Recovery(Continue, [Edit(env.lang("run_error"))]
                         + (if env.errorReport then [ReportUpload(RawReportNotice)] else []))
    case _ => Recovery(Continue, [])
  }

  /**
   * One run of the `raw_listener` closure. Its ignore-list and dedupe checks
   * sit outside any `try`, so both raise ContinuePropagation straight out;
   * the body is called only for one or two declared arguments; the key it
   * claims is never released.
   */
  function RawHandling(ignored: bool, held: bool, argCount: nat, raised: Raised, env: Environment)
    : (v: Invoked)
    ensures v.claimed <==> !ignored && !held
    ensures v.args == Unset
    ensures !v.claimed ==> v.outcome == Continue && v.trace == []
    ensures v.claimed && (argCount == 1 || argCount == 2) ==>
      && v.outcome == RawRecover(raised, env).outcome
      && v.trace == [Invoke(argCount)] + RawRecover(raised, env).events
    ensures v.claimed && !(argCount == 1 || argCount == 2) ==> v.outcome == Continue && v.trace == []
  {
    if ignored || held then Invoked(Continue, [], Unset, false)
    else
      var called := argCount == 1 || argCount == 2;
      var rec := RawRecover(if called then raised else Completed, env);
      Invoked(rec.outcome, (if called then [Invoke(argCount)] else []) + rec.events, Unset, true)
  }

  /** The `raw_listener` closure over the shared dedupe map. */
  method HandleRaw(ctx: ReadContext, key: Key, ignored: bool, argCount: nat, raised: Raised,
                   env: Environment)
    returns (v: Invoked)
    requires ctx.Valid()
    modifies ctx
    ensures ctx.Valid()
    ensures v == RawHandling(ignored, key in old(ctx.entries), argCount, raised, env)
    ensures v.claimed ==> ctx.entries == old(ctx.entries)[key := true]
    ensures !v.claimed ==> ctx.entries == old(ctx.entries)
  {
    var claimed := false;
    if !ignored {
      claimed := ctx.Claim(key);
    }
    // the call, the except clauses, then message.continue_propagation()
    v := RawHandling(ignored, !claimed, argCount, raised, env);
  }

  /** How often `e` occurs in a trace. */
  function Count(es: seq<Event>, e: Event): nat {
    if es == [] then 0 else (if es[0] == e then 1 else 0) + Count(es[1..], e)
  }

  lemma {:induction false} CountAppend(a: seq<Event>, b: seq<Event>, e: Event)
    ensures Count(a + b, e) == Count(a, e) + Count(b, e)
  {
    if a == [] {
      assert a + b == b;
    } else {
      assert (a + b)[1..] == a[1..] + b;
      CountAppend(a[1..], b, e);
    }
  }

  /**
   * The propagation rules of the `listener` closure (lines 204-205, 233-236,
   * 248-249, 264-266): ContinuePropagation becomes Stop only for a blocking
   * handler, StopPropagation passes through, an unclassified error with
   * diagnostics off returns before the decision, KeyboardInterrupt escapes,
   * and every other run ends with the propagation decision.
   */
  lemma PropagationRules(cfg: HandlerConfig, ignored: bool, capture: Option<string>, held: bool,
                         run: Run, env: Environment)
    ensures var v := CommandHandling(cfg, ignored, capture, held, run, env);
      && (v.claimed && run.raised == ContinuePropagation ==> v.outcome == OnContinue(cfg))
      && (v.claimed && run.raised == StopPropagation ==> v.outcome == Stop)
      && (v.outcome == Return <==> v.claimed && run.raised.Unclassified? && !cfg.diagnostics)
      && (v.outcome == Interrupt <==> v.claimed && run.raised == KeyboardInterrupt)
      && (v.claimed && Classify(run.raised) != Signal && !(run.raised.Unclassified? && !cfg.diagnostics)
          ==> v.outcome == Decide(cfg))
      && v.outcome != Exit
  {
  }

  /**
   * A blocking handler never ends with `Continue`: it stops, is interrupted,
   * or returns early, and it returns early exactly for a claimed run whose
   * unclassified error meets diagnostics switched off (line 249). That return
   * comes before the propagation decision, so the later groups still run.
   */
  lemma BlockingNeverContinues(cfg: HandlerConfig, ignored: bool, capture: Option<string>, held: bool,
                               run: Run, env: Environment)
    requires cfg.blockProcess
    ensures var v := CommandHandling(cfg, ignored, capture, held, run, env);
      && (v.outcome == Stop || v.outcome == Return || v.outcome == Interrupt)
      && (v.outcome == Return <==> v.claimed && run.raised.Unclassified? && !cfg.diagnostics)
  {
  }

  /**
   * An unclassified error with diagnostics on produces exactly one error log,
   * one error-hook call, an upload exactly when reporting is configured, and
   * the edit with the formatted error first among the recovery events.
   */
  lemma {:induction false} UnclassifiedReport(cfg: HandlerConfig, capture: Option<string>, text: string,
                                              stage: Stage, env: Environment)
    requires cfg.diagnostics
    ensures var v := CommandHandling(cfg, false, capture, false, Run(Unclassified(text), stage), env);
      && Count(v.trace, ErrorLog) == 1
      && Count(v.trace, ErrorHook(cfg.command)) == 1
      && Count(v.trace, ReportUpload(CommandReportNotice)) == (if env.errorReport then 1 else 0)
      && Edit(env.lang("run_error") + "\n\n" + text) in v.trace
      && v.outcome == Decide(cfg)
  {
    var run := Run(Unclassified(text), stage);
    var body := BodyEvents(cfg, run);
    var edit := Edit(env.lang("run_error") + "\n\n" + text);
    var upload := if env.errorReport then [ReportUpload(CommandReportNotice)] else [];
    var rec := [edit, ErrorLog] + upload + [ErrorHook(cfg.command)];
    assert Recover(cfg, run.raised, env).events == rec;
    assert forall i :: 0 <= i < |body| ==> body[i].CommandPre? || body[i].Invoke? || body[i].CommandPost?;
    CountAbsent(body, ErrorLog);
    CountAbsent(body, ErrorHook(cfg.command));
    CountAbsent(body, ReportUpload(CommandReportNotice));
    RecoveryCounts(edit, upload, cfg.command, env.errorReport);
    CountAppend(body, rec, ErrorLog);
    CountAppend(body, rec, ErrorHook(cfg.command));
    CountAppend(body, rec, ReportUpload(CommandReportNotice));
    assert edit in body + rec by { assert (body + rec)[|body|] == edit; }
  }

  /**
   * The errors the `listener` closure only reports (lines 208-240) write no
   * error report, call no error hook, upload nothing and end with the
   * propagation decision; the platform errors and a deleted message are only
   * logged, without an edit.
   */
  lemma HandledErrorsWriteNoReport(cfg: HandlerConfig, capture: Option<string>, run: Run, env: Environment)
    requires || run.raised.Platform? || run.raised == MessageIdInvalid || run.raised == AlreadyInConversation
             || run.raised == TimeoutConversation || run.raised == ListenerCanceled || run.raised == SystemExit
    ensures var v := CommandHandling(cfg, false, capture, false, run, env);
      && v.outcome == Decide(cfg)
      && (forall i :: 0 <= i < |v.trace| ==>
            !v.trace[i].ErrorLog? && !v.trace[i].ErrorHook? && !v.trace[i].ReportUpload?)
      && (run.raised.Platform? || run.raised == MessageIdInvalid ==>
            forall i :: 0 <= i < |v.trace| ==> !v.trace[i].Edit?)
  {
    var body := BodyEvents(cfg, run);
    assert forall i :: 0 <= i < |body| ==> body[i].CommandPre? || body[i].Invoke? || body[i].CommandPost?;
  }

  /** The counts in the event list of a diagnosed error. */
  lemma RecoveryCounts(edit: Event, upload: seq<Event>, command: Option<string>, errorReport: bool)
    requires edit.Edit?
    requires upload == if errorReport then [ReportUpload(CommandReportNotice)] else []
    ensures var rec := [edit, ErrorLog] + upload + [ErrorHook(command)];
      && Count(rec, ErrorLog) == 1
      && Count(rec, ErrorHook(command)) == 1
      && Count(rec, ReportUpload(CommandReportNotice)) == (if errorReport then 1 else 0)
  {
    var rec := [edit, ErrorLog] + upload + [ErrorHook(command)];
    forall e | e == ErrorLog || e == ErrorHook(command) || e == ReportUpload(CommandReportNotice)
      ensures Count(rec, e) == (if e == ErrorLog then 1 else 0) + (if e == ErrorHook(command) then 1 else 0)
                               + (if errorReport && e == ReportUpload(CommandReportNotice) then 1 else 0)
    {
      assert rec == [edit] + [ErrorLog] + upload + [ErrorHook(command)];
      CountAppend([edit], [ErrorLog], e);
      CountAppend([edit] + [ErrorLog], upload, e);
      CountAppend([edit] + [ErrorLog] + upload, [ErrorHook(command)], e);
      CountSingleton(edit, e);
      CountSingleton(ErrorLog, e);
      CountSingleton(ErrorHook(command), e);
      if errorReport { CountSingleton(ReportUpload(CommandReportNotice), e); }
    }
  }

  lemma CountSingleton(x: Event, e: Event)
    ensures Count([x], e) == if x == e then 1 else 0
  {
    assert [x][1..] == [];
  }

  lemma {:induction false} CountAbsent(es: seq<Event>, e: Event)
    requires forall i :: 0 <= i < |es| ==> es[i] != e
    ensures Count(es, e) == 0
  {
    if es != [] {
      CountAbsent(es[1..], e);
    }
  }

  /**
   * The `raw_listener` closure stops only on a StopPropagation from the
   * function, exits only on its SystemExit, and otherwise always continues.
   */
  lemma RawOutcomes(ignored: bool, held: bool, argCount: nat, raised: Raised, env: Environment)
    ensures var v := RawHandling(ignored, held, argCount, raised, env);
            var called := v.claimed && (argCount == 1 || argCount == 2);
      && (v.outcome == Stop <==> called && raised == StopPropagation)
      && (v.outcome == Exit <==> called && raised == SystemExit)
      && (v.outcome == Continue <==> !(called && (raised == StopPropagation || raised == SystemExit)))
      && (called <==> Invoke(argCount) in v.trace)
  {
  }

  /**
   * The catch-all of the `raw_listener` closure (lines 367-388), reached
   * also by PeerIdInvalid and KeyboardInterrupt: it edits the fixed
   * `run_error` text, uploads a report only when configured, never logs the
   * report or calls the error hook, and lets the message continue.
   */
  lemma RawCatchAllReport(argCount: nat, raised: Raised, env: Environment)
    requires argCount == 1 || argCount == 2
    requires RawClassify(raised) == Diagnosed
    ensures var v := RawHandling(false, false, argCount, raised, env);
      && v.outcome == Continue
      && v.trace == [Invoke(argCount), Edit(env.lang("run_error"))]
                    + (if env.errorReport then [ReportUpload(RawReportNotice)] else [])
      && (forall i :: 0 <= i < |v.trace| ==> !v.trace[i].ErrorLog? && !v.trace[i].ErrorHook?)
  {
  }

  /**
   * A second tier whose claim is rejected while the first tier still holds
   * the key runs nothing, yet its `finally` block deletes the first tier's key,
   * so a third claim for the same message succeeds.
   */
  method RejectedClaimReleasesHolder(ctx: ReadContext, key: Key, cfg: HandlerConfig,
                                     capture: Option<string>, run: Run, env: Environment)
    returns (first: bool, second: Invoked, third: bool)
    requires ctx.Valid() && key !in ctx.entries
    modifies ctx
    ensures first && !second.claimed && second.trace == [] && third
  {
    first := ctx.Claim(key);                 // the first tier claims and is still running
    second := HandleCommand(ctx, cfg, key, false, capture, run, env);
    third := ctx.Claim(key);
  }

  /**
   * After a raw handler has run for a message, its key stays: a later raw
   * handler for the same message is skipped, and a later command handler is
   * rejected too, though its `finally` block then deletes the key.
   */
  method RawClaimPersists(ctx: ReadContext, key: Key, argCount: nat, raised: Raised, cfg: HandlerConfig,
                          capture: Option<string>, run: Run, env: Environment)
    returns (raw: Invoked, again: Invoked, command: Invoked)
    requires ctx.Valid() && key !in ctx.entries
    modifies ctx
    ensures raw.claimed && !again.claimed && again.trace == [] && again.outcome == Continue
    ensures !command.claimed && command.trace == []
    ensures key !in ctx.entries
  {
    raw := HandleRaw(ctx, key, false, argCount, raised, env);
    assert key in ctx.entries;
    again := HandleRaw(ctx, key, false, argCount, raised, env);
    command := HandleCommand(ctx, cfg, key, false, capture, run, env);
  }

  /**
   * A top-level command registered again at a strictly earlier priority is
   * forced to block, so its handler never ends with `Continue` (it may still
   * return early on an unclassified error with diagnostics off).
   */
  lemma ReRegisteredCommandBlocks(a: ListenerArgs, help: map<string, HelpEntry>,
                                  alias: (string, bool) -> string, lang: string -> string,
                                  permissionName: (bool, bool, Option<string>) -> string,
                                  ignored: bool, capture: Option<string>, held: bool, run: Run, env: Environment)
    requires a.command.Some? && a.parentCommand.None? && a.command.value in help
    requires Prepare(a, help, alias, lang, permissionName).Success?
    ensures var reg := Prepare(a, help, alias, lang, permissionName).value;
            CommandHandling(reg.handler, ignored, capture, held, run, env).outcome != Continue
  {
    var reg := Prepare(a, help, alias, lang, permissionName).value;
    BlockingNeverContinues(reg.handler, ignored, capture, held, run, env);
  }
}
