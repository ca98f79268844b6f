/** The helper's profile store: importing a profile and replacing one, as
    transactions over two directories whose every system call may fail.

    Directories are maps from entry names to files, with the calls of the storage
    layer as methods that either take effect or fail and change nothing. Other
    programs may change the configuration directory, journals and links up to the
    renaming call; from there on, and in the staging directory throughout, the
    helper is alone. What survives a power failure is not modelled: `fsync` only
    succeeds or fails. */
module HelperProfiles {
  import opened Amneziawg
  import DnsConfig
  import Config
  import Journal = RuntimeJournal
  import Links = LinkIdentity
  import QuickConfig

  datatype Exit =
    | Success | NotFound | FilesystemFailed | Active | InterfaceConflict | RuntimeFailed | InvalidConfig | TimedOut
    | ChildSignaled | AwgQuickFailed | AwgQuickUnavailable | ChildSetupFailed | InputFailed
    | ReplaceConfirmationRequired | RollbackFailed

  /** A file: its inode number, the rest of the metadata that identifies it, and
      what it holds. */
  datatype File = File(ino: nat, metadata: nat, secure: bool, contents: string)

  type Directory = map<string, File>

  predicate SameIdentity(a: File, b: File) {
    a.ino == b.ino && a.metadata == b.metadata && a.secure == b.secure
  }

  datatype MarkerEntry = MarkerMissing | MarkerValid(marker: Journal.RuntimeMarker) | MarkerInvalid

  datatype Errno = Eexist | OtherError

  datatype Area = ConfigArea | StagingArea

  /** One entry unlinked: from where, under what name, and the file it was. */
  datatype Removal = Removal(area: Area, name: string, file: File)

  // ------------------------------------------------------------------------
  // Storage calls
  // ------------------------------------------------------------------------

  /** What the calls of a transaction met: the configuration directory as others
      last left it, the candidate and its name, and the file found to be the one
      the caller confirmed. */
  datatype Trace = Trace(before: Directory, temp: string, candidate: Option<File>, confirmed: Option<File>)

  class Storage {
    var config: Directory
    var staging: Directory
    var journals: map<string, Option<Journal.RuntimeMarker>>  // `None` is a file that is not a valid journal
    var links: seq<Links.LinkRecord>
    ghost var removals: seq<Removal>
    ghost var trace: Trace

    constructor ()
      ensures config == map[] && staging == map[] && removals == [] && trace == Trace(map[], "", None, None)
    {
      config, staging, journals, links := map[], map[], map[], [];
      removals, trace := [], Trace(map[], "", None, None);
    }

    /** Anyone else with access to the configuration directory, to sessions and to
        links. */
    method Interfere()
      modifies this`config, this`journals, this`links, this`trace
      ensures trace == old(trace).(before := config)
    {
      config, journals, links := *, *, *;
      trace := trace.(before := config);
    }

    /** A file under a name no entry has, holding all of the contents on success and
        anything on failure. */
    method WriteCandidate(contents: string) returns (ok: bool, created: bool, temp: string)
      modifies this`staging, this`trace
      ensures created ==> temp !in old(staging) && temp in staging && staging == old(staging)[temp := staging[temp]]
      ensures trace == old(trace).(temp := temp, candidate := if created then Some(staging[temp]) else None)
      ensures !created ==> !ok && staging == old(staging)
      ensures ok ==> created && staging[temp].contents == contents
    {
      temp := *;
      created := *;
      trace := trace.(temp := temp, candidate := None);
      if temp in staging || !created {
        return false, false, temp;
      }
      var ino: nat, metadata: nat, partial: string := *, *, *;
      ok := *;
      staging := staging[temp := File(ino, metadata, true, if ok then contents else partial)];
      trace := trace.(candidate := Some(staging[temp]));
    }

    method RemoveStagingAndSync(name: string) returns (ok: bool)
      modifies this`staging, this`removals
      ensures staging == old(staging) || staging == old(staging) - {name}
      ensures ok ==> name !in staging
      ensures removals == old(removals)
              + if name in old(staging) && name !in staging then [Removal(StagingArea, name, old(staging)[name])]
                else []
    {
      ok := UnlinkStaging(name);
      if !ok && name in staging {
        return false;
      }
      ok := *;
    }

    method RemoveConfigAndSync(name: string) returns (ok: bool)
      modifies this`config, this`removals
      ensures config == old(config) || config == old(config) - {name}
      ensures ok ==> name !in config
      ensures removals == old(removals)
              + if name in old(config) && name !in config then [Removal(ConfigArea, name, old(config)[name])] else []
    {
      var works: bool := *;
      if name in config {
        if !works {
          return false;
        }
        removals := removals + [Removal(ConfigArea, name, config[name])];
        config := config - {name};
      }
      ok := *;
    }

    method UnlinkStaging(name: string) returns (ok: bool)
      modifies this`staging, this`removals
      ensures ok == (name in old(staging) && name !in staging)
      ensures staging == old(staging) || staging == old(staging) - {name}
      ensures removals == old(removals) + if ok then [Removal(StagingArea, name, old(staging)[name])] else []
    {
      ok := *;
      if name !in staging {
        ok := false;
      }
      if ok {
        removals := removals + [Removal(StagingArea, name, staging[name])];
        staging := staging - {name};
      }
    }

    /** The rename that refuses to replace. */
    method RenameNoReplace(temp: string, name: string) returns (error: Option<Errno>)
      modifies this`config, this`staging
      ensures error.None? ==> name !in old(config) && temp in old(staging)
                              && config == old(config)[name := old(staging)[temp]] && staging == old(staging) - {temp}
      ensures error.Some? ==> config == old(config) && staging == old(staging)
      ensures error == Some(Eexist) ==> name in config
    {
      var works: bool := *;
      if name in config {
        return Some(if works then Eexist else OtherError);
      }
      if !works || temp !in staging {
        return Some(OtherError);
      }
      config, staging := config[name := staging[temp]], staging - {temp};
      return None;
    }

    /** The rename that exchanges two entries. */
    method Exchange(temp: string, name: string) returns (ok: bool)
      modifies this`config, this`staging
      ensures ok ==> name in old(config) && temp in old(staging)
                     && config == old(config)[name := old(staging)[temp]]
                     && staging == old(staging)[temp := old(config)[name]]
      ensures !ok ==> config == old(config) && staging == old(staging)
    {
      ok := *;
      if name !in config || temp !in staging {
        ok := false;
      }
      if ok {
        config, staging := config[name := staging[temp]], staging[temp := config[name]];
      }
    }

    /** What identifies the file in a slot, from here on the confirmed one. */
    method ConfigIdentity(name: string) returns (identity: Option<File>)
      modifies this`trace
      ensures trace == old(trace).(confirmed := identity)
      ensures identity.Some? ==> name in config && identity.value == config[name] && identity.value.secure
    {
      var works: bool := *;
      identity := if works && name in config && config[name].secure then Some(config[name]) else None;
      trace := trace.(confirmed := identity);
    }

    /** Whether the file moved aside is the one confirmed before; failing to look
        counts as no. */
    method DisplacedMatches(temp: string, identity: File) returns (ok: bool)
      ensures ok ==> temp in staging && SameIdentity(staging[temp], identity)
    {
      var works: bool := *;
      ok := works && temp in staging && SameIdentity(staging[temp], identity);
    }

    method Sync() returns (ok: bool) {
      ok := *;
    }

    /** A journal that cannot be read counts as invalid. */
    method ReadMarker(name: string) returns (entry: MarkerEntry)
      ensures entry == MarkerMissing ==> name !in journals
      ensures entry.MarkerValid? ==> name in journals && journals[name] == Some(entry.marker)
    {
      var works: bool := *;
      if name !in journals && works {
        return MarkerMissing;
      }
      if name in journals && journals[name].Some? && works {
        return MarkerValid(journals[name].value);
      }
      return MarkerInvalid;
    }

    /** A new listing of the links, if there is one, and what it shows. */
    method ObserveLink(name: string, token: Option<string>) returns (observation: Option<Links.LinkObservation>)
      ensures observation.Some? ==> observation.value == Links.Observation(links, name, token)
    {
      var works: bool := *;
      observation := if works then Some(Links.Observation(links, name, token)) else None;
    }
  }

  /** Whether the phase's deadline or a termination signal has come. */
  method PhaseStop() returns (r: Exit)
    ensures r == Success || r == TimedOut || r == ChildSignaled
  {
    if * {
      r := Success;
    } else if * {
      r := TimedOut;
    } else {
      r := ChildSignaled;
    }
  }

  /** `awg-quick strip`, with whatever it prints. */
  method RunStrip() returns (status: Exit, protocol: string)
    ensures status in {Success, ChildSetupFailed, TimedOut, ChildSignaled, AwgQuickUnavailable, AwgQuickFailed}
  {
    protocol := *;
    status := *;
    if status !in {Success, TimedOut, ChildSignaled, AwgQuickUnavailable, AwgQuickFailed} {
      status := ChildSetupFailed;
    }
  }

  // ------------------------------------------------------------------------
  // Transactions
  // ------------------------------------------------------------------------

  /** Entries that one transaction on a slot may unlink: its own candidate, staged or
      in the slot, or the file moved aside, provided it is the one confirmed. */
  predicate MayRemove(t: Trace, slot: string, r: Removal) {
    || (t.candidate.Some? && r.file == t.candidate.value && r.name == if r.area == StagingArea then t.temp else slot)
    || (r.area == StagingArea && r.name == t.temp && t.confirmed.Some? && SameIdentity(r.file, t.confirmed.value))
  }

  predicate OnlyRemoved(t: Trace, slot: string, before: seq<Removal>, after: seq<Removal>) {
    before <= after && forall k | |before| <= k < |after| :: MayRemove(t, slot, after[k])
  }

  /** An exchange undone leaves both directories as they were. */
  lemma BackAgain(config: Directory, name: string, candidate: File, rest: Directory, temp: string)
    requires name in config && temp !in rest
    ensures config[name := candidate][name := config[name]] == config
    ensures rest[temp := config[name]][temp := candidate] == rest[temp := candidate]
    ensures rest[temp := config[name]] - {temp} == rest
  {
  }

  lemma RemovedAnyway(t: Trace, slot: string, a: seq<Removal>, b: seq<Removal>)
    requires OnlyRemoved(t.(confirmed := None), slot, a, b)
    ensures OnlyRemoved(t, slot, a, b)
  {
    forall k | |a| <= k < |b| ensures MayRemove(t, slot, b[k]) {
      assert MayRemove(t.(confirmed := None), slot, b[k]);
    }
  }

  /** An input that parses, and whose stripped form gave a snapshot. */
  ghost predicate Usable(pton: DnsConfig.Pton, input: string) {
    && Config.ParseEnvelope(pton, input).Ok?
    && exists protocol :: QuickConfig.HelperSnapshot(pton, protocol, Config.ParseEnvelope(pton, input).value).Ok?
  }

  /** The slot given to the candidate, which holds the whole input; every other
      entry as it was. */
  predicate Committed(t: Trace, after: Directory, name: string, input: string) {
    t.candidate.Some? && t.candidate.value.contents == input && after == t.before[name := t.candidate.value]
  }

  /** The staging directory with at most the candidate left behind. */
  predicate AtMostCandidate(t: Trace, before: Directory, after: Directory) {
    after == before || (t.candidate.Some? && t.temp !in before && after == before[t.temp := t.candidate.value])
  }

  /** The staging directory with the displaced file in the candidate's place. */
  predicate HoldsDisplaced(t: Trace, before: Directory, after: Directory, name: string) {
    name in t.before && t.temp !in before && after == before[t.temp := t.before[name]]
  }

  class Profiles {
    const storage: Storage
    const pton: DnsConfig.Pton

    constructor (storage: Storage, pton: DnsConfig.Pton)
      ensures this.storage == storage && this.pton == pton
    {
      this.storage, this.pton := storage, pton;
    }

    /** Which of its journal and its link a session has, unless they contradict each
        other. */
    method RuntimeState(name: string) returns (r: Exit, marker: bool, interface: bool)
      ensures r == Success || r == RuntimeFailed || r == InterfaceConflict
      ensures r == Success && !marker ==>
                name !in storage.journals && interface == Links.LastNamed(storage.links, name).Some?
      ensures (r == Success && marker) || r == InterfaceConflict ==>
                && name in storage.journals && storage.journals[name].Some?
                && var m := storage.journals[name].value;
                   Journal.OwnedLink(Some(m), Some(Links.Observation(storage.links, name, Some(m.token))))
                   == if r == InterfaceConflict then Journal.LinkConflict
                      else if interface then Journal.LinkPresent else Journal.LinkAbsent
    {
      marker, interface := false, false;
      var entry := storage.ReadMarker(name);
      match entry {
        case MarkerInvalid =>
          return RuntimeFailed, marker, interface;
        case MarkerMissing =>
          var observation := storage.ObserveLink(name, None);
          if observation.None? {
            return RuntimeFailed, marker, interface;
          }
          return Success, false, observation.value.namedExists;
        case MarkerValid(m) =>
          var observation := storage.ObserveLink(name, Some(m.token));
          match Journal.OwnedLink(Some(m), observation) {
            case LinkUnknown => return RuntimeFailed, marker, interface;
            case LinkConflict => return InterfaceConflict, marker, interface;
            case LinkAbsent => return Success, true, false;
            case LinkPresent => return Success, true, true;
          }
      }
    }

    /** Whether a profile is there to be replaced, with no session and no link in the
        way. */
    method TargetStatus(name: string, configName: string) returns (r: Exit)
      ensures r in {Success, NotFound, FilesystemFailed, RuntimeFailed, InterfaceConflict, Active}
      ensures r == NotFound ==> configName !in storage.config
      ensures r in {Success, RuntimeFailed, InterfaceConflict, Active} ==>
                configName in storage.config && storage.config[configName].secure
      ensures r == Success ==> name !in storage.journals && Links.LastNamed(storage.links, name).None?
      ensures r == Active ==> name in storage.journals
      ensures r == InterfaceConflict ==> name in storage.journals || Links.LastNamed(storage.links, name).Some?
    {
      var works: bool := *;
      if configName !in storage.config && works {
        return NotFound;
      }
      if !works || !storage.config[configName].secure {
        return FilesystemFailed;
      }
      var marker, interface;
      r, marker, interface := RuntimeState(name);
      if r != Success {
        return;
      }
      if marker {
        return Active;
      }
      if interface {
        return InterfaceConflict;
      }
    }

    /** The candidate, or at most a remnant of it when removing it failed. */
    method WriteCandidate(configName: string, input: string) returns (r: Exit, temp: string)
      modifies storage`staging, storage`removals, storage`trace
      ensures r != RollbackFailed
      ensures storage.trace.before == old(storage.trace.before)
      ensures storage.trace.confirmed == old(storage.trace.confirmed)
      ensures OnlyRemoved(storage.trace.(confirmed := None), configName, old(storage.removals), storage.removals)
      ensures AtMostCandidate(storage.trace, old(storage.staging), storage.staging)
      ensures var candidate := storage.trace.candidate;
              r == Success ==>
                candidate.Some? && candidate.value.contents == input && storage.trace.temp == temp
                && temp !in old(storage.staging)
                && storage.staging == old(storage.staging)[temp := candidate.value] && Usable(pton, input)
      ensures r == Success ==> storage.removals == old(storage.removals)
      ensures r != Success && r != FilesystemFailed ==> storage.staging == old(storage.staging)
    {
      hide Config.ParseEnvelope;
      temp := "";
      var envelope := Config.ParseConfigEnvelope(pton, input);
      if envelope.Err? {
        return InvalidConfig, temp;
      }
      var ok, created;
      ok, created, temp := storage.WriteCandidate(input);
      r := FilesystemFailed;
      if ok {
        var protocol, snapshot;
        r, protocol, snapshot := CheckCandidate(envelope.value);
        assert r == Success ==> QuickConfig.HelperSnapshot(pton, protocol, envelope.value).Ok?;
      }
      if r != Success && created {
        var removed := storage.RemoveStagingAndSync(temp);
        assert old(storage.staging)[temp := storage.trace.candidate.value] - {temp} == old(storage.staging);
        if !removed {
          r := FilesystemFailed;
        }
      }
    }

    /** Stripping the candidate and building its snapshot, whatever comes back. */
    method CheckCandidate(envelope: Config.Envelope) returns (r: Exit, protocol: string, snapshot: Option<string>)
      ensures r in {Success, ChildSetupFailed, TimedOut, ChildSignaled, AwgQuickUnavailable, InvalidConfig}
      ensures r == Success <==> snapshot.Some?
      ensures r == Success ==> QuickConfig.HelperSnapshot(pton, protocol, envelope) == Config.Ok(snapshot.value)
    {
      snapshot := None;
      r, protocol := RunStrip();
      if r == Success {
        var built := Config.BuildSnapshot(pton, protocol, envelope, QuickConfig.LINK_HOOK_RESERVE);
        if built.Ok? {
          snapshot := Some(built.value);
        } else {
          r := InvalidConfig;
        }
      } else if r == AwgQuickFailed {
        r := InvalidConfig;
      }
    }

    /** Gives up before the renaming call took effect, with a reason. `rest` is the
        staging directory without the candidate. */
    method Abandon(reason: Exit, temp: string, configName: string, ghost rest: Directory) returns (r: Exit)
      requires reason != Success && storage.trace.candidate.Some? && storage.trace.temp == temp
      requires temp !in rest && storage.staging == rest[temp := storage.trace.candidate.value]
      modifies storage`staging, storage`removals
      ensures r == reason || r == FilesystemFailed
      ensures storage.staging == rest || (r == FilesystemFailed && storage.staging == old(storage.staging))
      ensures storage.removals == old(storage.removals)
              + if storage.staging == rest then [Removal(StagingArea, temp, storage.trace.candidate.value)] else []
      ensures OnlyRemoved(storage.trace.(confirmed := None), configName, old(storage.removals), storage.removals)
    {
      assert rest[temp := storage.trace.candidate.value] - {temp} == rest;
      var removed := storage.RemoveStagingAndSync(temp);
      r := if removed then reason else FilesystemFailed;
    }

    /** Importing under a name not yet taken. */
    method Import(name: string, configName: string, input: string) returns (r: Exit)
      modifies storage
      ensures OnlyRemoved(storage.trace.(confirmed := None), configName, old(storage.removals), storage.removals)
      ensures AtMostCandidate(storage.trace, old(storage.staging), storage.staging)
      ensures r == Success ==>
                Committed(storage.trace, storage.config, configName, input) && configName !in storage.trace.before
                && Usable(pton, input)
      ensures r == TimedOut || r == ChildSignaled ==>
                || storage.config == storage.trace.before
                || (Committed(storage.trace, storage.config, configName, input) && configName !in storage.trace.before)
      ensures r == RollbackFailed ==>
                configName !in storage.trace.before
                && (storage.config == storage.trace.before
                    || Committed(storage.trace, storage.config, configName, input))
      ensures r !in {Success, TimedOut, ChildSignaled, RollbackFailed} ==> storage.config == storage.trace.before
      ensures r != FilesystemFailed ==> storage.staging == old(storage.staging)
    {
      hide Usable, Links.LastNamed, SameIdentity;
      storage.Interfere();
      r := TargetStatus(name, configName);
      if r == Success {
        return ReplaceConfirmationRequired;
      }
      if r != NotFound {
        return;
      }
      var temp;
      r, temp := WriteCandidate(configName, input);
      storage.Interfere();
      if r != Success {
        // A strip that reports these codes has changed nothing either.
        return;
      }
      r := PhaseStop();
      if r != Success {
        r := Abandon(r, temp, configName, old(storage.staging));
        return;
      }
      storage.Interfere();
      r := RenameCandidate(name, temp, configName, old(storage.staging));
    }

    /** The rename and everything after it. `rest` is the staging directory without
        the candidate. */
    method RenameCandidate(name: string, temp: string, configName: string, ghost rest: Directory) returns (r: Exit)
      requires storage.trace.before == storage.config && storage.trace.candidate.Some? && storage.trace.temp == temp
      requires temp !in rest && storage.staging == rest[temp := storage.trace.candidate.value]
      modifies storage`config, storage`staging, storage`removals
      ensures OnlyRemoved(storage.trace.(confirmed := None), configName, old(storage.removals), storage.removals)
      ensures var before, after := old(storage.config),
              old(storage.config)[configName := storage.trace.candidate.value];
              && (r in {Success, TimedOut, ChildSignaled} ==>
                    configName !in before && storage.config == after && storage.staging == rest)
              && (r == RollbackFailed ==>
                    configName !in before && (storage.config == before || storage.config == after)
                    && storage.staging == rest)
              && (r !in {Success, TimedOut, ChildSignaled, RollbackFailed} ==>
                    storage.config == before
                    && (storage.staging == rest || (r == FilesystemFailed && storage.staging == old(storage.staging))))
    {
      hide Links.LastNamed, SameIdentity;
      var renamed := storage.RenameNoReplace(temp, configName);
      if renamed.None? {
        assert rest[temp := storage.trace.candidate.value] - {temp} == rest;
        r := KeepRenamed(configName, old(storage.config));
        return;
      }
      r := FilesystemFailed;
      if renamed.value == Eexist {
        r := TargetStatus(name, configName);
      }
      if r == Success {
        r := ReplaceConfirmationRequired;
      } else if r == NotFound {
        r := FilesystemFailed;
      }
      r := Abandon(r, temp, configName, rest);
    }

    /** After the rename: makes the new profile last, or takes it back out. */
    method KeepRenamed(configName: string, ghost before: Directory) returns (r: Exit)
      requires storage.trace.candidate.Some? && configName !in before
      requires storage.config == before[configName := storage.trace.candidate.value]
      modifies storage`config, storage`removals
      ensures r in {Success, TimedOut, ChildSignaled, FilesystemFailed, RollbackFailed}
      ensures OnlyRemoved(storage.trace.(confirmed := None), configName, old(storage.removals), storage.removals)
      ensures r in {Success, TimedOut, ChildSignaled} ==> storage.config == old(storage.config)
      ensures r == FilesystemFailed ==> storage.config == before
      ensures storage.config == before || storage.config == old(storage.config)
    {
      var ok := storage.Sync();
      if ok {
        r := PhaseStop();
        return;
      }
      assert before[configName := storage.trace.candidate.value] - {configName} == before;
      var removed := storage.RemoveConfigAndSync(configName);
      r := if removed then FilesystemFailed else RollbackFailed;
    }

    /** Undoes the exchange, if it can. */
    method RollbackReplacement(temp: string, configName: string) returns (r: Exit)
      requires configName in storage.config && temp in storage.staging
      modifies storage`config, storage`staging, storage`removals
      ensures r == FilesystemFailed || r == RollbackFailed
      ensures r == FilesystemFailed ==>
                && storage.config == old(storage.config)[configName := old(storage.staging)[temp]]
                && (storage.staging == old(storage.staging)[temp := old(storage.config)[configName]]
                    || storage.staging == old(storage.staging) - {temp})
      ensures r == RollbackFailed ==>
                || (storage.config == old(storage.config) && storage.staging == old(storage.staging))
                || (storage.config == old(storage.config)[configName := old(storage.staging)[temp]]
                    && storage.staging == old(storage.staging)[temp := old(storage.config)[configName]])
      ensures storage.removals == old(storage.removals)
              || (storage.removals == old(storage.removals)
                                      + [Removal(StagingArea, temp, old(storage.config)[configName])]
                  && storage.staging == old(storage.staging) - {temp})
    {
      var ok := storage.Exchange(temp, configName);
      if ok {
        ok := storage.Sync();
      }
      if !ok {
        return RollbackFailed;
      }
      var removed := storage.RemoveStagingAndSync(temp);
      assert old(storage.staging)[temp := old(storage.config)[configName]] - {temp} == old(storage.staging) - {temp};
      return FilesystemFailed;
    }

    /** The exchange and everything after it. `rest` is the staging directory
        without the candidate. */
    method ExchangeCandidate(temp: string, configName: string, original: File, ghost rest: Directory) returns (r: Exit)
      requires storage.trace.before == storage.config && storage.trace.candidate.Some? && storage.trace.temp == temp
      requires storage.trace.confirmed == Some(original)
      requires temp !in rest && storage.staging == rest[temp := storage.trace.candidate.value]
      modifies storage`config, storage`staging, storage`removals
      ensures OnlyRemoved(storage.trace, configName, old(storage.removals), storage.removals)
      ensures r in {Success, TimedOut, ChildSignaled, FilesystemFailed, RollbackFailed}
      ensures var before, after := old(storage.config),
              old(storage.config)[configName := storage.trace.candidate.value];
              && (r in {Success, TimedOut, ChildSignaled} ==>
                    configName in before && SameIdentity(before[configName], original)
                    && storage.config == after && storage.staging == rest)
              && (r == FilesystemFailed ==>
                    storage.config == before && (storage.staging == rest || storage.staging == old(storage.staging)))
              && (r == RollbackFailed ==>
                    configName in before
                    && ((storage.config == before && storage.staging == old(storage.staging))
                        || (storage.config == after
                            && (storage.staging == rest[temp := before[configName]]
                                || (storage.staging == rest && SameIdentity(before[configName], original))))))
    {
      hide SameIdentity, MayRemove;
      var ok := storage.Exchange(temp, configName);
      if ok {
        assert storage.staging == rest[temp := old(storage.config)[configName]];
        r := KeepExchanged(temp, configName, original, old(storage.config), rest);
      } else {
        r := Abandon(FilesystemFailed, temp, configName, rest);
        RemovedAnyway(storage.trace, configName, old(storage.removals), storage.removals);
      }
    }

    /** After the exchange: discards the displaced file if it is the one confirmed, or
        puts it back. */
    method KeepExchanged(temp: string, configName: string, original: File, ghost before: Directory,
                         ghost rest: Directory)
      returns (r: Exit)
      requires storage.trace.candidate.Some? && storage.trace.temp == temp && storage.trace.confirmed == Some(original)
      requires configName in before && storage.config == before[configName := storage.trace.candidate.value]
      requires temp !in rest && storage.staging == rest[temp := before[configName]]
      modifies storage`config, storage`staging, storage`removals
      ensures OnlyRemoved(storage.trace, configName, old(storage.removals), storage.removals)
      ensures r in {Success, TimedOut, ChildSignaled, FilesystemFailed, RollbackFailed}
      ensures r in {Success, TimedOut, ChildSignaled} ==>
                SameIdentity(before[configName], original) && storage.config == old(storage.config)
                && storage.staging == rest
      ensures r == FilesystemFailed ==>
                storage.config == before
                && (storage.staging == rest || storage.staging == rest[temp := storage.trace.candidate.value])
      ensures r == RollbackFailed ==>
                || (storage.config == before && storage.staging == rest[temp := storage.trace.candidate.value])
                || (storage.config == old(storage.config)
                    && (storage.staging == old(storage.staging)
                        || (storage.staging == rest && SameIdentity(before[configName], original))))
    {
      var matches := storage.DisplacedMatches(temp, original);
      var synced := false;
      if matches {
        synced := storage.Sync();
      }
      var removed := false;
      if synced {
        assert rest[temp := before[configName]] - {temp} == rest;
        removed := storage.UnlinkStaging(temp);
      }
      if !removed {
        BackAgain(before, configName, storage.trace.candidate.value, rest, temp);
        r := RollbackReplacement(temp, configName);
        return;
      }
      synced := storage.Sync();
      if !synced {
        return RollbackFailed;
      }
      r := PhaseStop();
    }

    /** Replacing a profile the caller was asked about. */
    method Replace(name: string, configName: string, input: string) returns (r: Exit)
      modifies storage
      ensures OnlyRemoved(storage.trace, configName, old(storage.removals), storage.removals)
      ensures r == Success ==> Committed(storage.trace, storage.config, configName, input)
      ensures r == TimedOut || r == ChildSignaled ==>
                storage.config == storage.trace.before || Committed(storage.trace, storage.config, configName, input)
      ensures r !in {Success, TimedOut, ChildSignaled, RollbackFailed} ==>
                storage.config == storage.trace.before
                && AtMostCandidate(storage.trace, old(storage.staging), storage.staging)
      ensures r !in {FilesystemFailed, RollbackFailed} ==> storage.staging == old(storage.staging)
      ensures r == RollbackFailed ==>
                || (storage.config == storage.trace.before
                    && AtMostCandidate(storage.trace, old(storage.staging), storage.staging))
                || (Committed(storage.trace, storage.config, configName, input)
                    && (storage.staging == old(storage.staging)
                        || HoldsDisplaced(storage.trace, old(storage.staging), storage.staging, configName)))
      ensures storage.config != storage.trace.before && storage.staging == old(storage.staging) ==>
                configName in storage.trace.before && storage.trace.confirmed.Some?
                && SameIdentity(storage.trace.before[configName], storage.trace.confirmed.value)
      ensures storage.config != storage.trace.before ==> Usable(pton, input)
    {
      hide Usable, Links.LastNamed, SameIdentity;
      storage.Interfere();
      r := TargetStatus(name, configName);
      if r != Success {
        return;
      }
      storage.Interfere();
      var original := storage.ConfigIdentity(configName);
      if original.None? {
        return FilesystemFailed;
      }
      var temp;
      r, temp := WriteCandidate(configName, input);
      storage.Interfere();
      if r != Success {
        return;
      }
      r := TargetStatus(name, configName);
      if r == Success {
        r := PhaseStop();
      }
      if r != Success {
        r := Abandon(r, temp, configName, old(storage.staging));
        return;
      }
      storage.Interfere();
      r := ExchangeCandidate(temp, configName, original.value, old(storage.staging));
    }
  }
}
