/**
  Synchronising the visibility config of a worktree with the server: a config file, a state file with the
  hash of the server config it was last in step with (the base), and the server's own config.

  File replacements are atomic and a run can be cut short before any of them: an operation is given how
  many file writes it completes. Fingerprints are injective. The config file is at the current version.
 */
module ConfigSync {

  datatype RepoConfig = RepoConfig(text: string)

  datatype Hash = Fingerprint(config: RepoConfig)

  datatype ConfigFile = NoConfig | BadConfig | Stored(config: RepoConfig)

  datatype BaseFile = NoBase | BadBase | Recorded(hash: Hash)

  datatype Files = Files(config: ConfigFile, base: BaseFile)

  datatype Error = Unreadable | Unreachable | Conflict | StateWithoutConfig

  datatype Outcome = Synced(config: RepoConfig) | Failed(error: Error) | CutShort

  /** The two writes of `write_worktree_scope_repo_config_with_base`, the first `writes` of them. */
  function WriteWithBase(files: Files, config: RepoConfig, writes: nat): (Files, Outcome) {
    if writes == 0 then (files, CutShort)
    else if writes == 1 then (files.(config := Stored(config)), CutShort)
    else (Files(Stored(config), Recorded(Fingerprint(config))), Synced(config))
  }

  function MarkSynced(files: Files, config: RepoConfig, writes: nat): (Files, Outcome) {
    if writes == 0 then (files, CutShort)
    else (files.(base := Recorded(Fingerprint(config))), Synced(config))
  }

  /** The config reconciliation of `push_to_main` once the local config is loaded. */
  function Reconcile(files: Files, local: RepoConfig, server: RepoConfig, writes: nat): (Files, Outcome) {
    var known := files.base.Recorded?;
    if known && files.base.hash == Fingerprint(server) then (files, Synced(local))
    else if local == server then MarkSynced(files, local, writes)
    else if known && files.base.hash == Fingerprint(local) then WriteWithBase(files, server, writes)
    else (files, Failed(Conflict))
  }

  /** Preparation of a push to main; `reached` is false when login, network or access stops it. */
  function Prepare(files: Files, default: RepoConfig, server: RepoConfig, reached: bool, writes: nat)
    : (Files, Outcome)
  {
    match files.config
    case NoConfig =>
      if writes == 0 then (files, CutShort)
      else
        var created := files.(config := Stored(default));
        if !reached then (created, Failed(Unreachable)) else WriteWithBase(created, server, writes - 1)
    case BadConfig => (files, Failed(Unreadable))
    case Stored(local) => if !reached then (files, Failed(Unreachable)) else Reconcile(files, local, server, writes)
  }

  /** The visibility part of a pull. */
  function Pull(files: Files, server: RepoConfig, reached: bool, writes: nat): (Files, Outcome) {
    match files.config
    case NoConfig =>
      if !reached then (files, Failed(Unreachable))
      else if files.base.NoBase? then WriteWithBase(files, server, writes)
      else (files, Failed(StateWithoutConfig))
    case BadConfig => (files, if files.base.NoBase? && !reached then Failed(Unreachable) else Failed(Unreadable))
    case Stored(local) =>
      if files.base.Recorded? then (files, Synced(local))
      else if files.base.BadBase? then (files, Failed(Unreadable))
      else if !reached then (files, Failed(Unreachable))
      else if local != server then (files, Failed(Conflict))
      else MarkSynced(files, server, writes)
  }

  /** The worktree's two files as the commands replace them, one write at a time. */
  class Worktree {
    var config: ConfigFile
    var base: BaseFile
    var writes: nat

    function State(): Files
      reads this
    {
      Files(config, base)
    }

    constructor (files: Files, writes: nat)
      ensures State() == files && this.writes == writes
    {
      config, base, this.writes := files.config, files.base, writes;
    }

    /** One atomic replacement of the config file; false if the run is cut short before it. */
    method PutConfig(c: RepoConfig) returns (done: bool)
      modifies this`config, this`writes
      ensures done == (old(writes) > 0)
      ensures config == (if done then Stored(c) else old(config)) && writes == old(writes) - (if done then 1 else 0)
    {
      done := writes > 0;
      if done {
        config, writes := Stored(c), writes - 1;
      }
    }

    method PutBase(c: RepoConfig) returns (done: bool)
      modifies this`base, this`writes
      ensures done == (old(writes) > 0)
      ensures base == (if done then Recorded(Fingerprint(c)) else old(base))
      ensures writes == old(writes) - (if done then 1 else 0)
    {
      done := writes > 0;
      if done {
        base, writes := Recorded(Fingerprint(c)), writes - 1;
      }
    }

    /** The base is never written ahead of the config; what is reported synced is on disk and recorded. */
    method Refresh(c: RepoConfig) returns (outcome: Outcome)
      modifies this
      ensures outcome == Synced(c) || outcome.CutShort?
      ensures outcome.Synced? <==> 2 <= old(writes)
      ensures outcome.Synced? ==> State() == Files(Stored(c), Recorded(Fingerprint(c)))
      ensures base != old(base) ==> config == Stored(c)
      ensures (State(), outcome) == WriteWithBase(old(State()), c, old(writes))
    {
      var done := PutConfig(c);
      if done {
        done := PutBase(c);
      }
      outcome := if done then Synced(c) else CutShort;
    }

    /**
      Synced means that the base is the server's config and the result is on disk; a local config the base does
      not record is kept, and nothing is written once a conflict is found.
     */
    method PreparePush(default: RepoConfig, server: RepoConfig, reached: bool) returns (outcome: Outcome)
      modifies this
      ensures outcome.Synced? ==> base == Recorded(Fingerprint(server)) && config == Stored(outcome.config)
      ensures forall local :: old(config) == Stored(local) && old(base) != Recorded(Fingerprint(local)) ==>
                config == Stored(local)
      ensures outcome == Failed(Conflict) ==> State() == old(State())
      ensures outcome.Synced? && old(config).NoConfig? ==> outcome == Synced(server)
      ensures (State(), outcome) == Prepare(old(State()), default, server, reached, old(writes))
    {
      var created := false;
      if config.NoConfig? {
        created := PutConfig(default);
        if !created {
          return CutShort;
        }
      }
      if config.BadConfig? {
        return Failed(Unreadable);
      }
      var local := config.config;
      if !reached {
        return Failed(Unreachable);
      }
      if created {
        outcome := Refresh(server);
      } else if base.Recorded? && base.hash == Fingerprint(server) {
        outcome := Synced(local);
      } else if Fingerprint(local) == Fingerprint(server) {
        var marked := PutBase(local);
        outcome := if marked then Synced(local) else CutShort;
      } else if base.Recorded? && base.hash == Fingerprint(local) {
        outcome := Refresh(server);
      } else {
        outcome := Failed(Conflict);
      }
    }

    /** A local config is never replaced; synced means that it, or the server's, is on disk with a base. */
    method SyncPull(server: RepoConfig, reached: bool) returns (outcome: Outcome)
      modifies this
      ensures old(config) != NoConfig ==> config == old(config)
      ensures outcome.Synced? ==> config == Stored(outcome.config) && base.Recorded?
      ensures base != old(base) ==> base == Recorded(Fingerprint(server)) && config == Stored(server)
      ensures (State(), outcome) == Pull(old(State()), server, reached, old(writes))
    {
      if !config.NoConfig? && !base.NoBase? {
        return if config.BadConfig? || base.BadBase? then Failed(Unreadable) else Synced(config.config);
      }
      if !reached {
        return Failed(Unreachable);
      }
      if config.NoConfig? && base.NoBase? {
        outcome := Refresh(server);
      } else if config.NoConfig? {
        outcome := Failed(StateWithoutConfig);
      } else if config.BadConfig? {
        outcome := Failed(Unreadable);
      } else if Fingerprint(config.config) != Fingerprint(server) {
        outcome := Failed(Conflict);
      } else {
        var marked := PutBase(server);
        outcome := if marked then Synced(server) else CutShort;
      }
    }
  }

  // ----- Single operations

  /** A successful preparation leaves the base at the server's config, and the config it returns on disk. */
  lemma PreparedIsInStep(files: Files, default: RepoConfig, server: RepoConfig, reached: bool, writes: nat)
    requires Prepare(files, default, server, reached, writes).1.Synced?
    ensures var (after, outcome) := Prepare(files, default, server, reached, writes);
            after.base == Recorded(Fingerprint(server)) && after.config == Stored(outcome.config)
  {
  }

  /** The config a preparation goes on with, if the writes it needs are done. */
  function Agreed(files: Files, server: RepoConfig): RepoConfig {
    if files.config.Stored? && files.base == Recorded(Fingerprint(server)) then files.config.config else server
  }

  /** How many file writes a preparation that agrees with the server needs. */
  function WritesNeeded(files: Files, server: RepoConfig): nat {
    if files.config.NoConfig? then 3
    else if files.base == Recorded(Fingerprint(server)) then 0
    else if files.config == Stored(server) then 1
    else 2
  }

  /** Local and server config, or the base and one of them, are the same. */
  predicate Reconcilable(files: Files, server: RepoConfig) {
    || files.config.NoConfig?
    || (files.config.Stored? &&
        (files.config.config == server || files.base == Recorded(Fingerprint(server))
         || files.base == Recorded(Fingerprint(files.config.config))))
  }

  /**
    Exactly when a preparation syncs, and with which config: the local one if the base is the server's, else the
    server's, which is then on disk; with no config file beforehand always the server's.
   */
  lemma PreparesExactly(files: Files, default: RepoConfig, server: RepoConfig, reached: bool, writes: nat)
    ensures var (after, outcome) := Prepare(files, default, server, reached, writes);
            && (outcome.Synced? <==> reached && Reconcilable(files, server) && WritesNeeded(files, server) <= writes)
            && (outcome.Synced? ==>
                  && outcome.config == Agreed(files, server)
                  && after == Files(Stored(Agreed(files, server)), Recorded(Fingerprint(server))))
            && (outcome == Failed(Unreadable) <==> files.config.BadConfig?)
            && (outcome == Failed(Unreachable) <==>
                  !reached && !files.config.BadConfig? && (files.config.NoConfig? ==> 0 < writes))
            && (outcome.Failed? ==> outcome.error != StateWithoutConfig)
  {
  }

  /**
    Exactly when a pull syncs, and with which config: one that was there with its base stays; without a base it
    must be the server's; without either the server's is written.
   */
  lemma PullsExactly(files: Files, server: RepoConfig, reached: bool, writes: nat)
    ensures var (after, outcome) := Pull(files, server, reached, writes);
            && (outcome.Synced? <==>
                  || (files.config.Stored? && files.base.Recorded?)
                  || (reached && files == Files(Stored(server), NoBase) && 1 <= writes)
                  || (reached && files == Files(NoConfig, NoBase) && 2 <= writes))
            && (outcome.Synced? ==>
                  if files.base.Recorded? then after == files && files.config == Stored(outcome.config)
                  else outcome.config == server && after == Files(Stored(server), Recorded(Fingerprint(server))))
            && (outcome == Failed(Conflict) <==>
                  reached && files.base.NoBase? && files.config.Stored? && files.config.config != server)
            && (outcome == Failed(StateWithoutConfig) <==> reached && files.config.NoConfig? && !files.base.NoBase?)
            && (outcome == Failed(Unreachable) <==>
                  !reached && (files.config.NoConfig? || files.base.NoBase?))
            && (outcome.Failed? ==> after == files)
  {
  }

  /** A preparation replaces a local config exactly when it equals the recorded base and the server moved on. */
  lemma OverwritesIff(files: Files, default: RepoConfig, local: RepoConfig, server: RepoConfig,
                      reached: bool, writes: nat)
    requires files.config == Stored(local)
    ensures Prepare(files, default, server, reached, writes).0.config != Stored(local) <==>
            reached && writes > 0 && local != server && files.base == Recorded(Fingerprint(local))
    ensures Pull(files, server, reached, writes).0.config == Stored(local)
  {
  }

  /** A preparation refuses for a conflict exactly when all three configs differ or the base is unknown. */
  lemma ConflictsIff(files: Files, default: RepoConfig, server: RepoConfig, reached: bool, writes: nat)
    ensures Prepare(files, default, server, reached, writes).1 == Failed(Conflict) <==>
            && reached && files.config.Stored? && files.config.config != server
            && files.base != Recorded(Fingerprint(server))
            && files.base != Recorded(Fingerprint(files.config.config))
  {
  }

  /** Cut short between the config write and the base write, a rerun against the same server succeeds. */
  lemma RerunAfterHalfWrite(files: Files, default: RepoConfig, server: RepoConfig, writes: nat)
    requires Prepare(files, default, server, true, writes).1.CutShort?
    requires Prepare(files, default, server, true, writes).0.config == Stored(server)
    ensures Prepare(Prepare(files, default, server, true, writes).0, default, server, true, 1).1 == Synced(server)
  {
  }

  /**
    Stopped after the default config file was created and before the server's config replaced it, a rerun
    sees the default as a local edit: it refuses, exactly when the default differs from the server's config
    and the recorded base is neither of them; with a base at the server's config it goes on with the default.
   */
  lemma RerunAfterAbandonedCreation(files: Files, default: RepoConfig, server: RepoConfig, writes: nat)
    requires files.config.NoConfig? && 2 <= writes
    ensures var abandoned := Prepare(files, default, server, false, 1).0;
            var (after, outcome) := Prepare(abandoned, default, server, true, writes);
            && Prepare(files, default, server, true, 1).0 == abandoned
            && (outcome == Failed(Conflict) <==>
                  default != server && files.base != Recorded(Fingerprint(server))
                  && files.base != Recorded(Fingerprint(default)))
            && (files.base == Recorded(Fingerprint(server)) ==> outcome == Synced(default))
            && (outcome.Synced? && files.base != Recorded(Fingerprint(server)) ==> outcome.config == server)
  {
  }

  // ----- Histories

  datatype State = State(files: Files, server: RepoConfig)

  /**
    `Publish(c)` is a push of config c: the server takes it only against a base that is its own config, and
    then the base is recorded.
   */
  datatype Event =
    | Edit(config: RepoConfig)
    | Delete
    | ServerChanges(config: RepoConfig)
    | PullSync(reached: bool, writes: nat)
    | PreparePush(reached: bool, writes: nat)
    | Publish(config: RepoConfig, writes: nat)

  function Happen(default: RepoConfig, s: State, e: Event): State {
    match e
    case Edit(c) => s.(files := s.files.(config := Stored(c)))
    case Delete => s.(files := s.files.(config := NoConfig))
    case ServerChanges(c) => s.(server := c)
    case PullSync(reached, writes) => s.(files := Pull(s.files, s.server, reached, writes).0)
    case PreparePush(reached, writes) => s.(files := Prepare(s.files, default, s.server, reached, writes).0)
    case Publish(c, writes) =>
      if s.files.base == Recorded(Fingerprint(s.server))
      then State(MarkSynced(s.files, c, writes).0, c)
      else s
  }

  function RunAll(default: RepoConfig, s: State, events: seq<Event>): State
    decreases |events|
  {
    if events == [] then s else RunAll(default, Happen(default, s, events[0]), events[1..])
  }

  /** A preparation that syncs, then the publication of what it agreed on: server, config and base are all that. */
  lemma PublishedIsInStep(default: RepoConfig, s: State, writes: nat)
    requires Prepare(s.files, default, s.server, true, writes).1.Synced?
    ensures var c := Prepare(s.files, default, s.server, true, writes).1.config;
            Happen(default, Happen(default, s, PreparePush(true, writes)), Publish(c, 1)) ==
            State(Files(Stored(c), Recorded(Fingerprint(c))), c)
  {
  }

  /** A publication against an outdated base changes nothing. */
  lemma OutdatedPublishIsRefused(default: RepoConfig, s: State, c: RepoConfig, writes: nat)
    requires s.files.base != Recorded(Fingerprint(s.server))
    ensures Happen(default, s, Publish(c, writes)) == s
  {
  }

  /** The server's config is never c in the course of these events. */
  predicate ServerNever(default: RepoConfig, s: State, events: seq<Event>, c: RepoConfig)
    decreases |events|
  {
    s.server != c && (events == [] || ServerNever(default, Happen(default, s, events[0]), events[1..], c))
  }

  predicate ByUser(e: Event) {
    e.Edit? || e.Delete?
  }

  /** The worktree holds an edit that is not what the base records. */
  predicate Unpublished(s: State, c: RepoConfig) {
    s.files.config == Stored(c) && s.files.base != Recorded(Fingerprint(c))
  }

  lemma SyncKeepsEdit(default: RepoConfig, s: State, e: Event, c: RepoConfig)
    requires Unpublished(s, c) && !ByUser(e)
    requires s.server != c && Happen(default, s, e).server != c
    ensures Unpublished(Happen(default, s, e), c)
  {
  }

  /**
    No lost edits: over any sequence of pulls, push preparations, publications and server changes, each cut
    short anywhere, a local edit that the base does not record survives as long as the server's config is
    never the edit itself.
   */
  lemma {:induction false} EditSurvives(default: RepoConfig, s: State, events: seq<Event>, c: RepoConfig)
    requires Unpublished(s, c)
    requires forall i :: 0 <= i < |events| ==> !ByUser(events[i])
    requires ServerNever(default, s, events, c)
    ensures Unpublished(RunAll(default, s, events), c)
    decreases |events|
  {
    if events != [] {
      SyncKeepsEdit(default, s, events[0], c);
      EditSurvives(default, Happen(default, s, events[0]), events[1..], c);
    }
  }

  /** A history of synchronisation alone in which the server never takes on the local config. */
  predicate SyncsAgainstOthers(default: RepoConfig, s: State, events: seq<Event>, c: RepoConfig) {
    (forall i :: 0 <= i < |events| ==> !ByUser(events[i])) && ServerNever(default, s, events, c)
  }

  /** A local config that is not the server's survives every such history exactly when the base does not record it. */
  lemma EditSurvivesIff(default: RepoConfig, s: State, c: RepoConfig)
    requires s.files.config == Stored(c) && s.server != c
    ensures (forall events :: SyncsAgainstOthers(default, s, events, c) ==>
               RunAll(default, s, events).files.config == Stored(c))
            <==> s.files.base != Recorded(Fingerprint(c))
  {
    if s.files.base == Recorded(Fingerprint(c)) {
      var events := [PreparePush(true, 2)];
      assert events[1..] == [];
      assert ServerNever(default, Happen(default, s, events[0]), [], c);
      assert SyncsAgainstOthers(default, s, events, c);
      assert RunAll(default, s, events) == Happen(default, s, events[0]);
    } else {
      forall events | SyncsAgainstOthers(default, s, events, c)
        ensures RunAll(default, s, events).files.config == Stored(c)
      {
        EditSurvives(default, s, events, c);
      }
    }
  }

  lemma ThreeEvents(default: RepoConfig, s: State, a: Event, b: Event, c: Event)
    ensures RunAll(default, s, [a, b, c]) == Happen(default, Happen(default, Happen(default, s, a), b), c)
  {
    var s1 := Happen(default, s, a);
    var s2 := Happen(default, s1, b);
    assert [c][1..] == [] && RunAll(default, s2, [c]) == Happen(default, s2, c);
    assert [b, c][1..] == [c] && RunAll(default, s1, [b, c]) == RunAll(default, s2, [c]);
    assert [a, b, c][1..] == [b, c] && RunAll(default, s, [a, b, c]) == RunAll(default, s1, [b, c]);
  }

  /**
    The base must not record the edit: a refresh cut short between its two writes leaves the old base
    behind, and an edit back to that content is then taken for an untouched copy and overwritten.
   */
  lemma StaleBaseLosesEdit(default: RepoConfig, before: RepoConfig, server: RepoConfig)
    requires before != server
    ensures var s := State(Files(Stored(before), Recorded(Fingerprint(before))), server);
            var end := RunAll(default, s, [PreparePush(true, 1), Edit(before), PreparePush(true, 2)]);
            end == State(Files(Stored(server), Recorded(Fingerprint(server))), server)
  {
    var s := State(Files(Stored(before), Recorded(Fingerprint(before))), server);
    ThreeEvents(default, s, PreparePush(true, 1), Edit(before), PreparePush(true, 2));
  }
}
