/**
 * The filter composer of `listener` (pagermaid/listener.py:100-122). Each
 * Pyrogram filter is an abstract predicate; a composed filter is the list of
 * predicates that are ANDed together, kept as a set since a conjunction does
 * not depend on order; its meaning is given by `AdmitsAll`.
 */
module Filters {
  import opened Wrappers
  import opened Patterns

  datatype Filter =
    | All                        // filters.all
    | Me                         // filters.me
    | NotMe                      // ~filters.me
    | NotViaBot                  // ~filters.via_bot
    | Incoming                   // filters.incoming
    | NotForwarded               // ~filters.forwarded
    | NotReacted                 // ~mod_filters.reacted
    | Permitted(name: string)    // sudo_filter(permission name)
    | Regex(pattern: string)     // filters.regex(pattern)
    | Group                      // filters.group
    | Private                    // filters.private
    | Custom(id: int)            // a caller's own filter, passed to raw_listener

  /** What the filters can see of a message; the external lookups are parameters. */
  datatype MessageFacts = MessageFacts(
    fromMe: bool, viaBot: bool, incoming: bool, forwarded: bool, reacted: bool,
    inGroup: bool, inPrivate: bool)

  datatype FilterPair = FilterPair(base: set<Filter>, sudo: set<Filter>)

  /** One predicate; `permitted`, `matches` and `custom` stand for the permission store, the regex engine and user filters. */
  predicate Admits(f: Filter, m: MessageFacts, permitted: string -> bool,
                   matches: string -> bool, custom: int -> bool)
  {
    match f
    case All => true
    case Me => m.fromMe
    case NotMe => !m.fromMe
    case NotViaBot => !m.viaBot
    case Incoming => m.incoming
    case NotForwarded => !m.forwarded
    case NotReacted => !m.reacted
    case Permitted(name) => permitted(name)
    case Regex(p) => matches(p)
    case Group => m.inGroup
    case Private => m.inPrivate
    case Custom(id) => custom(id)
  }

  /** The conjunction of a list of predicates. */
  predicate AdmitsAll(fs: set<Filter>, m: MessageFacts, permitted: string -> bool,
                      matches: string -> bool, custom: int -> bool)
  {
    forall f :: f in fs ==> Admits(f, m, permitted, matches, custom)
  }

  /** Python truthiness of an optional string. */
  predicate Truthy(s: Option<string>) {
    s.Some? && s.value != ""
  }

  /**
   * The restrictions both filters receive (lines 108-122): forwarded and
   * reacted messages excluded when asked, the pattern, and the chat kind.
   */
  function Restrictions(ignoreForwarded: bool, ignoreReacted: bool, regex: Option<string>,
                        groupsOnly: bool, privatesOnly: bool): (fs: set<Filter>)
    ensures NotForwarded in fs <==> ignoreForwarded
    ensures NotReacted in fs <==> ignoreReacted
    ensures Group in fs <==> groupsOnly
    ensures Private in fs <==> privatesOnly
    ensures forall p :: Regex(p) in fs <==> regex == Some(p)
    ensures forall f :: f in fs ==> f == NotForwarded || f == NotReacted || f == Group || f == Private || f.Regex?
  {
    (if ignoreForwarded then {NotForwarded} else {})
    + (if ignoreReacted then {NotReacted} else {})
    + (if regex.Some? then {Regex(regex.value)} else {})
    + (if groupsOnly then {Group} else {})
    + (if privatesOnly then {Private} else {})
  }

  /** The start of the base filter (lines 100-105): whose messages it takes. */
  function Direction(outgoing: bool, incoming: bool): (fs: set<Filter>)
    ensures outgoing && !incoming ==> fs == {Me, NotViaBot}
    ensures incoming && !outgoing ==> fs == {Incoming, NotMe}
    ensures outgoing == incoming ==> fs == {All}
    ensures forall f :: f in fs ==> f.All? || f.Me? || f.NotViaBot? || f.Incoming? || f.NotMe?
  {
    if outgoing && !incoming then {Me, NotViaBot}
    else if incoming && !outgoing then {Incoming, NotMe}
    else {All}
  }

  /**
   * The standard filter (lines 100-122): the outgoing/incoming choice, then
   * the restrictions, with the standard pattern when it is truthy.
   */
  function BaseFilters(outgoing: bool, incoming: bool, ignoreForwarded: bool, ignoreReacted: bool,
                       patterns: PatternPair, groupsOnly: bool, privatesOnly: bool): (fs: set<Filter>)
    ensures outgoing && !incoming ==> Me in fs && NotViaBot in fs
    ensures incoming && !outgoing ==> Incoming in fs && NotMe in fs
    ensures outgoing == incoming ==> All in fs
    ensures forall p :: Regex(p) in fs <==> Truthy(patterns.pattern) && patterns.pattern == Some(p)
    ensures NotForwarded in fs <==> ignoreForwarded
    ensures NotReacted in fs <==> ignoreReacted
    ensures Group in fs <==> groupsOnly
    ensures Private in fs <==> privatesOnly
    ensures forall f :: f in fs ==>
      || f in Direction(outgoing, incoming)
      || f == NotForwarded || f == NotReacted || f == Group || f == Private || f.Regex?
  {
    var head := Direction(outgoing, incoming);
    var regex := if Truthy(patterns.pattern) then patterns.pattern else None;
    var rest := Restrictions(ignoreForwarded, ignoreReacted, regex, groupsOnly, privatesOnly);
    head + rest
  }

  /**
   * The sudo filter (lines 107-122): the permission check without inline-bot
   * messages and without the account's own, then the same restrictions, with
   * the sudo pattern when the standard one is truthy.
   */
  function SudoFilters(permission: string, ignoreForwarded: bool, ignoreReacted: bool,
                       patterns: PatternPair, groupsOnly: bool, privatesOnly: bool): (fs: set<Filter>)
    requires patterns.pattern.Some? ==> patterns.sudoPattern.Some?
    ensures Permitted(permission) in fs && NotViaBot in fs && NotMe in fs
    ensures forall p :: Regex(p) in fs <==> Truthy(patterns.pattern) && patterns.sudoPattern == Some(p)
    ensures NotForwarded in fs <==> ignoreForwarded
    ensures NotReacted in fs <==> ignoreReacted
    ensures Group in fs <==> groupsOnly
    ensures Private in fs <==> privatesOnly
    ensures forall f :: f in fs ==>
      || f == Permitted(permission) || f == NotViaBot || f == NotMe
      || f == NotForwarded || f == NotReacted || f == Group || f == Private || f.Regex?
  {
    var head := {Permitted(permission), NotViaBot, NotMe};
    var regex := if Truthy(patterns.pattern) then patterns.sudoPattern else None;
    var rest := Restrictions(ignoreForwarded, ignoreReacted, regex, groupsOnly, privatesOnly);
    head + rest
  }

  /** Both filters of one registration. */
  function ComposeFilters(outgoing: bool, incoming: bool, permission: string,
                          ignoreForwarded: bool, ignoreReacted: bool, patterns: PatternPair,
                          groupsOnly: bool, privatesOnly: bool): FilterPair
    requires patterns.pattern.Some? ==> patterns.sudoPattern.Some?
  {
    FilterPair(BaseFilters(outgoing, incoming, ignoreForwarded, ignoreReacted, patterns, groupsOnly, privatesOnly),
               SudoFilters(permission, ignoreForwarded, ignoreReacted, patterns, groupsOnly, privatesOnly))
  }

  /**
   * A message that passes the sudo filter is never the account's own, never
   * sent through an inline bot, and its sender holds the permission.
   */
  lemma SudoExcludesSelfAndBots(outgoing: bool, incoming: bool, permission: string,
                                ignoreForwarded: bool, ignoreReacted: bool, patterns: PatternPair,
                                groupsOnly: bool, privatesOnly: bool, m: MessageFacts,
                                permitted: string -> bool, matches: string -> bool, custom: int -> bool)
    requires patterns.pattern.Some? ==> patterns.sudoPattern.Some?
    requires AdmitsAll(ComposeFilters(outgoing, incoming, permission, ignoreForwarded, ignoreReacted,
                                      patterns, groupsOnly, privatesOnly).sudo, m, permitted, matches, custom)
    ensures !m.fromMe && !m.viaBot && permitted(permission)
  {
    var fp := ComposeFilters(outgoing, incoming, permission, ignoreForwarded, ignoreReacted,
                             patterns, groupsOnly, privatesOnly);
    assert Admits(Permitted(permission), m, permitted, matches, custom);
    assert Admits(NotViaBot, m, permitted, matches, custom);
    assert Admits(NotMe, m, permitted, matches, custom);
  }

  /**
   * With the default outgoing-only setting, a message that passes the base
   * filter is the account's own and not sent through an inline bot; so no
   * message passes both the base and the sudo filter.
   */
  lemma BaseAndSudoDisjoint(permission: string, ignoreForwarded: bool, ignoreReacted: bool,
                            patterns: PatternPair, groupsOnly: bool, privatesOnly: bool, m: MessageFacts,
                            permitted: string -> bool, matches: string -> bool, custom: int -> bool)
    requires patterns.pattern.Some? ==> patterns.sudoPattern.Some?
    ensures var fp := ComposeFilters(true, false, permission, ignoreForwarded, ignoreReacted,
                                     patterns, groupsOnly, privatesOnly);
            AdmitsAll(fp.base, m, permitted, matches, custom) ==> m.fromMe && !m.viaBot
    ensures var fp := ComposeFilters(true, false, permission, ignoreForwarded, ignoreReacted,
                                     patterns, groupsOnly, privatesOnly);
            !(AdmitsAll(fp.base, m, permitted, matches, custom) && AdmitsAll(fp.sudo, m, permitted, matches, custom))
  {
    var fp := ComposeFilters(true, false, permission, ignoreForwarded, ignoreReacted,
                             patterns, groupsOnly, privatesOnly);
    if AdmitsAll(fp.base, m, permitted, matches, custom) {
      assert Admits(Me, m, permitted, matches, custom);
      assert Admits(NotViaBot, m, permitted, matches, custom);
      assert !Admits(NotMe, m, permitted, matches, custom);
    }
  }

  /** The restrictions a message must meet, as configured (lines 108-122). */
  predicate MeetsRestrictions(m: MessageFacts, ignoreForwarded: bool, ignoreReacted: bool,
                              regex: Option<string>, groupsOnly: bool, privatesOnly: bool,
                              matches: string -> bool)
  {
    && (ignoreForwarded ==> !m.forwarded)
    && (ignoreReacted ==> !m.reacted)
    && (regex.Some? ==> matches(regex.value))
    && (groupsOnly ==> m.inGroup)
    && (privatesOnly ==> m.inPrivate)
  }

  /**
   * The base filter admits a message exactly when it comes from the chosen
   * direction (own and not via a bot, incoming and not own, or any) and meets
   * each configured restriction, with the standard pattern when it is truthy.
   */
  lemma BaseFilterMeaning(outgoing: bool, incoming: bool, ignoreForwarded: bool, ignoreReacted: bool,
                          patterns: PatternPair, groupsOnly: bool, privatesOnly: bool, m: MessageFacts,
                          permitted: string -> bool, matches: string -> bool, custom: int -> bool)
    ensures AdmitsAll(BaseFilters(outgoing, incoming, ignoreForwarded, ignoreReacted, patterns,
                                  groupsOnly, privatesOnly), m, permitted, matches, custom)
      <==> && (outgoing && !incoming ==> m.fromMe && !m.viaBot)
           && (incoming && !outgoing ==> m.incoming && !m.fromMe)
           && MeetsRestrictions(m, ignoreForwarded, ignoreReacted,
                                if Truthy(patterns.pattern) then patterns.pattern else None,
                                groupsOnly, privatesOnly, matches)
  {
    var fs := BaseFilters(outgoing, incoming, ignoreForwarded, ignoreReacted, patterns, groupsOnly, privatesOnly);
    if AdmitsAll(fs, m, permitted, matches, custom) {
      if outgoing && !incoming {
        assert Admits(Me, m, permitted, matches, custom) && Admits(NotViaBot, m, permitted, matches, custom);
      }
      if incoming && !outgoing {
        assert Admits(Incoming, m, permitted, matches, custom) && Admits(NotMe, m, permitted, matches, custom);
      }
      if ignoreForwarded { assert Admits(NotForwarded, m, permitted, matches, custom); }
      if ignoreReacted { assert Admits(NotReacted, m, permitted, matches, custom); }
      if groupsOnly { assert Admits(Group, m, permitted, matches, custom); }
      if privatesOnly { assert Admits(Private, m, permitted, matches, custom); }
      if Truthy(patterns.pattern) { assert Admits(Regex(patterns.pattern.value), m, permitted, matches, custom); }
    }
  }

  /**
   * The sudo filter admits a message exactly when it is not the account's
   * own, not sent through an inline bot, its sender holds the permission, and
   * it meets each configured restriction, with the sudo pattern when the
   * standard one is truthy.
   */
  lemma SudoFilterMeaning(permission: string, ignoreForwarded: bool, ignoreReacted: bool,
                          patterns: PatternPair, groupsOnly: bool, privatesOnly: bool, m: MessageFacts,
                          permitted: string -> bool, matches: string -> bool, custom: int -> bool)
    requires patterns.pattern.Some? ==> patterns.sudoPattern.Some?
    ensures AdmitsAll(SudoFilters(permission, ignoreForwarded, ignoreReacted, patterns,
                                  groupsOnly, privatesOnly), m, permitted, matches, custom)
      <==> && !m.fromMe && !m.viaBot && permitted(permission)
           && MeetsRestrictions(m, ignoreForwarded, ignoreReacted,
                                if Truthy(patterns.pattern) then patterns.sudoPattern else None,
                                groupsOnly, privatesOnly, matches)
  {
    var fs := SudoFilters(permission, ignoreForwarded, ignoreReacted, patterns, groupsOnly, privatesOnly);
    if AdmitsAll(fs, m, permitted, matches, custom) {
      assert Admits(Permitted(permission), m, permitted, matches, custom);
      assert Admits(NotViaBot, m, permitted, matches, custom) && Admits(NotMe, m, permitted, matches, custom);
      if ignoreForwarded { assert Admits(NotForwarded, m, permitted, matches, custom); }
      if ignoreReacted { assert Admits(NotReacted, m, permitted, matches, custom); }
      if groupsOnly { assert Admits(Group, m, permitted, matches, custom); }
      if privatesOnly { assert Admits(Private, m, permitted, matches, custom); }
      if Truthy(patterns.pattern) { assert Admits(Regex(patterns.sudoPattern.value), m, permitted, matches, custom); }
    }
  }
}
