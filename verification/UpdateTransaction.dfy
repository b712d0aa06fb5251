/**
 * The update, restore, backup and recover transactions of banana_ops/manager.py, class Manager.
 *
 * `Disk` is what survives a crash. Every durable change is one call of `Step` (an atomic replacement or
 * removal of one file or directory) or of a method that leaves arbitrary content when it is cut short.
 * Any of them can end in `Interrupted`: the process or the machine died, or the command failed and raised.
 * What then happens is always `Recover`, in the same process or in the next one.
 */
module UpdateTransaction {
  import opened Basics

  datatype Outcome = Done | Interrupted {
    predicate IsFailure() {
      Interrupted?
    }
    function PropagateFailure(): Outcome
      requires Interrupted?
    {
      Interrupted
    }
  }

  type Revision = string
  type PackageName = string
  /** A directory as its regular files, model weights and maintenance markers aside. */
  type Tree = map<string, string>
  type Environment = map<string, string>

  /** config/installation.json. */
  datatype Settings = Settings(revision: Revision, hosting: bool, other: string)

  /** config/transaction.json. */
  datatype Journal = Journal(settings: Settings, backup: Option<PackageName>, restoreSource: bool)

  datatype Package = Package(data: Tree, site: Tree, settings: Settings, env: Environment, sources: map<string, string>)

  /** `data` and `site` are None while a replacement has moved the old directory away. */
  datatype Disk = Disk(
    journal: Option<Journal>,
    maintenance: bool,
    data: Option<Tree>,
    site: Option<Tree>,
    settings: Settings,
    env: Environment,             // config/app.env
    sources: map<string, string>, // the update source's files in config
    current: Revision,            // the `current` link
    units: Settings,              // what the installed service units were made from
    releases: set<Revision>,      // prepared releases
    packages: map<PackageName, Package>)

  /** The parts of the tool and the applications that are not modelled. */
  datatype Host = Host(
    provision: (Settings, Tree) -> Tree,               // write_runtime's log directory and token files
    stopJobs: Tree -> Tree,                            // reset_restored_jobs on the application database
    complete: (Settings, Environment) -> Environment,  // profile.environment: defaults of this mode
    adapt: (Settings, Environment) -> Environment,     // apply_package's port and service name
    relink: (Settings, Environment) -> Environment,    // update's source link
    keepUpstream: (Environment, Environment) -> Environment, // restore: this machine's Ollama settings
    seed: Revision -> Tree)                            // the site a release ships

  const SOURCE_FILES: seq<string> := ["source.json", "repo.token", "repo.key", "repo.known_hosts", "repo.allowed_signers"]

  /** What services see when they start. */
  datatype Installation = Installation(
    data: Tree, site: Tree, settings: Settings, env: Environment, sources: map<string, string>, current: Revision,
    units: Settings)

  predicate Whole(d: Disk) {
    && d.data.Some? && d.site.Some?
    && d.current == d.settings.revision && d.current in d.releases
    && d.units == d.settings
    && forall name | name in d.sources :: name in SOURCE_FILES
  }

  function Installed(d: Disk): Installation
    requires d.data.Some? && d.site.Some?
  {
    Installation(d.data.value, d.site.value, d.settings, d.env, d.sources, d.current, d.units)
  }

  function Pack(d: Disk): Package
    requires d.data.Some? && d.site.Some?
  {
    Package(d.data.value, d.site.value, d.settings, d.env, d.sources)
  }

  /** write_runtime fills an empty hosting site from the release `current` names then. */
  predicate NeedsSeed(s: Settings, site: Tree) {
    s.hosting && site == map[]
  }

  function Seeded(h: Host, s: Settings, site: Tree, current: Revision): Tree {
    if NeedsSeed(s, site) then h.seed(current) else site
  }

  /** What a package becomes, installed with `s` while `current` named `at`. */
  function Unpacked(h: Host, p: Package, s: Settings, sources: map<string, string>, at: Revision): Installation {
    Installation(h.provision(s, h.stopJobs(p.data)), Seeded(h, s, p.site, at), s, h.complete(s, h.adapt(s, p.env)),
                 sources, s.revision, s)
  }

  /** The installation after a finished update to `s`. */
  function Updated(h: Host, was: Installation, s: Settings): Installation {
    Installation(h.provision(s, was.data), Seeded(h, s, was.site, s.revision), s,
                 h.complete(s, h.relink(s, was.env)), was.sources, s.revision, s)
  }

  /** The installation after a finished restore of `p` as `s` onto `was`. */
  function Restored(h: Host, was: Installation, p: Package, s: Settings, switched: bool): Installation {
    var sources := if "source.json" in was.sources then was.sources else p.sources;
    var unpacked := Unpacked(h, p, s, sources, was.current);
    if switched then unpacked.(env := h.complete(s, h.keepUpstream(was.env, unpacked.env))) else unpacked
  }

  /** Two installations that differ in nothing but what services wrote to data/. */
  predicate SameButData(a: Disk, b: Disk) {
    a.data.Some? && b.data.Some? && a.site.Some? && b.site.Some?
    && Installed(a) == Installed(b).(data := a.data.value)
  }

  /** What recovery may start services on: what the backup holds of `before`, unpacked while `current` named `at`, or
      else `was` with what services wrote to data/. */
  predicate Returns(h: Host, before: Disk, was: Disk, backed: bool, at: Revision, x: Installation) {
    if backed then before.data.Some? && before.site.Some? && x == Unpacked(h, Pack(before), before.settings, before.sources, at)
    else was.data.Some? && was.site.Some? && x == Installed(was).(data := x.data)
  }

  /** The old installation, whichever release `current` named. */
  ghost predicate IsOld(h: Host, before: Disk, was: Disk, backed: bool, x: Installation) {
    exists at :: Returns(h, before, was, backed, at, x)
  }

  /** Every one of some starts of services was on the old installation. */
  ghost predicate OnlyOld(h: Host, before: Disk, was: Disk, backed: bool, starts: seq<Installation>) {
    forall x | x in starts :: IsOld(h, before, was, backed, x)
  }

  /** One more start, by a recovery that found the disk as it was but for data/. */
  lemma OneMoreStart(h: Host, before: Disk, was: Disk, found: Disk, backed: bool, at: Revision, starts: seq<Installation>, x: Installation)
    requires OnlyOld(h, before, was, backed, starts) && Returns(h, before, found, backed, at, x)
    requires backed || SameButData(found, was)
    ensures OnlyOld(h, before, was, backed, starts + [x])
  {
    assert Returns(h, before, was, backed, at, x);
  }

  // ----- what an update and a restore keep --------------------------------------------------------

  /** Nothing but this tool's own steps changes anything: no defaults, no links, no log directories. */
  ghost predicate Passes(h: Host) {
    && (forall s, data: Tree :: h.provision(s, data) == data)
    && (forall data: Tree :: h.stopJobs(data) == data)
    && (forall s, env: Environment :: h.complete(s, env) == env && h.relink(s, env) == env && h.adapt(s, env) == env)
    && (forall machine: Environment, env: Environment :: h.keepUpstream(machine, env) == env)
  }

  /** What `write_runtime` does to data/: it makes what is missing and leaves every file as it is. */
  ghost predicate Adds(h: Host) {
    forall s, data: Tree, file | file in data :: file in h.provision(s, data) && h.provision(s, data)[file] == data[file]
  }

  /** An update loses no file of data/, and nothing of the site unless it was empty. */
  lemma UpdateKeepsFiles(h: Host, was: Installation, s: Settings)
    requires Adds(h)
    ensures forall file | file in was.data :: file in Updated(h, was, s).data && Updated(h, was, s).data[file] == was.data[file]
    ensures forall file | file in was.site :: file in Updated(h, was, s).site && Updated(h, was, s).site[file] == was.site[file]
    ensures Updated(h, was, s).sources == was.sources
  {
  }

  /** Of itself an update changes the settings, the release and the units, and fills an empty hosting site. */
  lemma UpdateChangesRelease(h: Host, was: Installation, s: Settings)
    requires Passes(h)
    ensures was.site != map[] || !s.hosting ==> Updated(h, was, s) == was.(settings := s, current := s.revision, units := s)
    ensures was.site == map[] && s.hosting ==>
      Updated(h, was, s) == was.(settings := s, current := s.revision, units := s, site := h.seed(s.revision))
  {
  }

  /** Of itself a restore gives back what was packed, whether the release is switched or not; a server's own update source
      stays. */
  lemma RestoreGivesBack(h: Host, packed: Disk, was: Installation, s: Settings, switched: bool)
    requires Passes(h) && packed.data.Some? && packed.site.Some? && (packed.site != Some(map[]) || !s.hosting)
    ensures var back := Restored(h, was, Pack(packed), s, switched);
      && back == Installed(packed).(sources := back.sources, settings := s, current := s.revision, units := s)
      && back.sources == (if "source.json" in was.sources then was.sources else packed.sources)
  {
  }

  /** What the machine's own settings decide in a restore is exactly the environment, and only when the release is
      switched. */
  lemma SwitchKeepsMachine(h: Host, was: Installation, p: Package, s: Settings)
    ensures var plain, moved := Restored(h, was, p, s, false), Restored(h, was, p, s, true);
      && moved == plain.(env := h.complete(s, h.keepUpstream(was.env, plain.env)))
      && plain.env == h.complete(s, h.adapt(s, p.env)) && plain.data == h.provision(s, h.stopJobs(p.data))
      && plain == Restored(h, was.(env := map[]), p, s, false)
  {
  }

  /** After a rollback everything but data/ and the added app.env defaults is what it was, if and only if
      the site did not need the release's site: recovery fills an empty hosting site from the release that
      `current` still names. */
  lemma RollbackRestores(h: Host, was: Disk, at: Revision)
    requires Whole(was)
    ensures var back := Unpacked(h, Pack(was), was.settings, was.sources, at);
      && back == Installed(was).(data := h.provision(was.settings, h.stopJobs(was.data.value)), site := back.site,
                                 env := h.complete(was.settings, h.adapt(was.settings, was.env)))
      && (back.site == was.site.value <==> !NeedsSeed(was.settings, was.site.value) || h.seed(at) == map[])
  {
    assert was.current == was.settings.revision;
  }

  /** A site served from an empty directory, because its release ships none. */
  const UNSEEDED := Disk(None, false, Some(map[]), Some(map[]), Settings("a", true, ""), map[], map[], "a", Settings("a", true, ""),
                         {"a", "b"}, map[])

  /** A host whose release "b" ships a site. */
  function Shipping(): Host {
    Host((s, data) => data, data => data, (s, env) => env, (s, env) => env, (s, env) => env, (machine, env) => env,
         revision => if revision == "b" then map["index.html" := "Welcome"] else map[])
  }

  /** Where that fails: an update to release "b", rolled back after `current` was switched, leaves the old release with
      the new one's site. */
  lemma RollbackMaySeed()
    ensures Whole(UNSEEDED) && Installed(UNSEEDED).site == map[]
    ensures Unpacked(Shipping(), Pack(UNSEEDED), UNSEEDED.settings, UNSEEDED.sources, "b")
      == Installed(UNSEEDED).(site := map["index.html" := "Welcome"])
  {
  }

  class Manager {
    const host: Host
    var disk: Disk
    ghost var before: Disk                     // what the transaction in progress must be able to return to
    ghost var starts: seq<Installation>        // the installations services were started on

    constructor (host: Host, disk: Disk)
      requires Whole(disk) && disk.journal.None?
      ensures Safe() && this.disk == disk && this.host == host && starts == []
    {
      this.host, this.disk, this.before, this.starts := host, disk, disk, [];
    }

    /** The key invariant: nothing has changed before the journal on disk names a finished backup. */
    ghost predicate Safe()
      reads this
    {
      match disk.journal
      case None => Whole(disk)
      case Some(j) =>
        match j.backup
        case None => Whole(disk) && j.settings == disk.settings
        case Some(name) =>
          && Whole(before) && j.settings == before.settings
          && name in disk.packages && disk.packages[name] == Pack(before)
          && before.current in disk.releases
          && (j.restoreSource || disk.sources == before.sources)
          && (forall file | file in disk.sources :: file in SOURCE_FILES)
    }

    // ----- durable steps -------------------------------------------------------------------------

    /** One atomic durable change; the crash may come before or after it. */
    method Step(next: Disk) returns (o: Outcome)
      modifies this`disk
      ensures o.Done? ==> disk == next
      ensures o.Interrupted? ==> disk == old(disk) || disk == next
    {
      if * {
        return Interrupted;
      }
      disk := next;
      if * {
        return Interrupted;
      }
      return Done;
    }

    /** Files under data/ changed in place: cut short, anything may be there. */
    method ChangeData(next: Tree) returns (o: Outcome)
      requires disk.data.Some?
      modifies this`disk
      ensures o.Done? ==> disk == old(disk).(data := Some(next))
      ensures o.Interrupted? ==> disk.data.Some? && disk == old(disk).(data := disk.data)
    {
      if * {
        var partial: Tree := *;
        disk := disk.(data := Some(partial));
        return Interrupted;
      }
      disk := disk.(data := Some(next));
      return Done;
    }

    method FillSite(next: Tree) returns (o: Outcome)
      requires disk.site.Some?
      modifies this`disk
      ensures o.Done? ==> disk == old(disk).(site := Some(next))
      ensures o.Interrupted? ==> disk.site.Some? && disk == old(disk).(site := disk.site)
    {
      if * {
        var partial: Tree := *;
        disk := disk.(site := Some(partial));
        return Interrupted;
      }
      disk := disk.(site := Some(next));
      return Done;
    }

    method InstallUnits(s: Settings) returns (o: Outcome)
      modifies this`disk
      ensures o.Done? ==> disk == old(disk).(units := s)
      ensures o.Interrupted? ==> disk == old(disk).(units := disk.units)
    {
      if * {
        var partial: Settings := *;
        disk := disk.(units := partial);
        return Interrupted;
      }
      disk := disk.(units := s);
      return Done;
    }

    /** Running services write to data/ as they like. */
    method ServicesWrite()
      modifies this`disk
      ensures disk == old(disk).(data := disk.data)
      ensures old(disk).data.Some? ==> disk.data.Some?
    {
      var data: Option<Tree> := *;
      if disk.data.None? || data.Some? {
        disk := disk.(data := data);
      }
    }

    /** Stopping: the services may write until the last of them is down; the command may fail. */
    method Stop() returns (o: Outcome)
      modifies this`disk
      ensures disk == old(disk).(data := disk.data)
      ensures old(disk).data.Some? ==> disk.data.Some?
    {
      ServicesWrite();
      if * {
        return Interrupted;
      }
      return Done;
    }

    /** Starting: only ever on a whole installation. Health checks may fail. */
    method Start() returns (o: Outcome)
      requires Whole(disk)
      modifies this`disk, this`starts
      ensures starts == old(starts) + [Installed(old(disk))]
      ensures disk == old(disk).(data := disk.data) && disk.data.Some?
    {
      starts := starts + [Installed(disk)];
      ServicesWrite();
      if * {
        return Interrupted;
      }
      return Done;
    }

    /** After a crash the machine may start the enabled services on whatever is there. */
    method Reboot()
      requires Safe()
      modifies this`disk
      ensures Safe() && disk == old(disk).(data := disk.data)
      ensures old(disk).data.Some? ==> disk.data.Some?
    {
      ServicesWrite();
    }

    // ----- the transaction -----------------------------------------------------------------------

    /** `quiesce`: journal first, then maintenance, then stop. From here `before` stays as it is. */
    method Quiesce(j: Journal) returns (o: Outcome)
      requires Safe() && disk.journal.None? && j.backup.None? && j.settings == disk.settings
      modifies this`disk, this`before
      ensures Safe() && SameButData(disk, old(disk))
      ensures disk.packages == old(disk).packages && disk.releases == old(disk).releases
      ensures disk.journal.None? || disk.journal == Some(j)
      ensures o.Done? ==> disk.journal == Some(j) && before == disk && disk.maintenance
    {
      o := Done;
      :- Step(disk.(journal := Some(j)));
      :- Step(disk.(maintenance := true));
      :- Stop();
      before := disk;
      return Done;
    }

    /** The package of the stopped installation, then the journal that names it. */
    method WriteBackup(j: Journal, name: PackageName) returns (o: Outcome)
      requires Safe() && disk.journal == Some(j) && j.backup.None? && before == disk
      modifies this`disk
      ensures Safe()
      ensures disk == old(disk).(journal := disk.journal, packages := disk.packages)
      ensures disk.journal == Some(j) || disk.journal == Some(j.(backup := Some(name)))
      ensures o.Done? ==> disk.journal == Some(j.(backup := Some(name)))
    {
      if name in disk.packages {
        return Interrupted; // existing packages are never overwritten
      }
      :- Step(disk.(packages := disk.packages[name := Pack(disk)]));
      :- Step(disk.(journal := Some(j.(backup := Some(name)))));
      return Done;
    }

    /** The part of `update` and `restore` before anything changes: a prepared release, a stopped
        installation, and a journal on disk that names its finished package. */
    method Begin(revision: Revision, restoreSource: bool, name: PackageName) returns (o: Outcome)
      requires Safe() && disk.journal.None?
      modifies this`disk, this`before
      ensures Safe() && SameButData(disk, old(disk))
      ensures disk.journal.Some? && disk.journal.value.backup.Some? ==> SameButData(before, old(disk))
      ensures o.Done? ==>
        && disk.journal == Some(Journal(before.settings, Some(name), restoreSource))
        && Installed(disk) == Installed(before) && SameButData(before, old(disk))
        && revision in disk.releases && disk.maintenance
    {
      var j := Journal(disk.settings, None, restoreSource);
      :- Step(disk.(releases := disk.releases + {revision}));
      :- Quiesce(j);
      :- WriteBackup(j, name);
      return Done;
    }

    /** `finish`: start, then end maintenance, then forget the journal: the commit point. */
    method Finish() returns (o: Outcome)
      requires Safe() && Whole(disk) && disk.journal.Some?
      modifies this
      ensures Safe() && before == old(before)
      ensures disk == old(disk).(data := disk.data, maintenance := disk.maintenance, journal := disk.journal)
      ensures disk.data.Some? && (disk.journal.None? || disk.journal == old(disk).journal)
      ensures starts == old(starts) + [Installed(old(disk))]
      ensures o.Done? ==> disk.journal.None? && !disk.maintenance
    {
      o := Done;
      :- Start();
      :- Step(disk.(maintenance := false));
      ServicesWrite();
      :- Step(disk.(journal := None));
      ServicesWrite();
      return Done;
    }

    /** One of data/ and site/ replaced: the old one moved away, the new one moved in. */
    method ReplaceData(next: Tree) returns (o: Outcome)
      modifies this`disk
      ensures disk == old(disk).(data := disk.data)
      ensures o.Done? ==> disk.data == Some(next)
    {
      if disk.data.Some? {
        :- Step(disk.(data := None));
      }
      :- Step(disk.(data := Some(next)));
      return Done;
    }

    method ReplaceSite(next: Tree) returns (o: Outcome)
      modifies this`disk
      ensures disk == old(disk).(site := disk.site)
      ensures o.Done? ==> disk.site == Some(next)
    {
      if disk.site.Some? {
        :- Step(disk.(site := None));
      }
      :- Step(disk.(site := Some(next)));
      return Done;
    }

    /** The update source's files, one after the other: written when the package has them, removed otherwise. */
    method CopySources(from: map<string, string>) returns (o: Outcome)
      requires forall file | file in disk.sources :: file in SOURCE_FILES
      requires forall file | file in from :: file in SOURCE_FILES
      modifies this`disk
      ensures disk == old(disk).(sources := disk.sources)
      ensures forall file | file in disk.sources :: file in SOURCE_FILES
      ensures o.Done? ==> disk.sources == from
    {
      for i := 0 to |SOURCE_FILES|
        invariant disk == old(disk).(sources := disk.sources)
        invariant forall file | file in disk.sources :: file in SOURCE_FILES
        invariant forall k | 0 <= k < i ::
            (SOURCE_FILES[k] in disk.sources <==> SOURCE_FILES[k] in from)
            && (SOURCE_FILES[k] in from ==> disk.sources[SOURCE_FILES[k]] == from[SOURCE_FILES[k]])
      {
        var file := SOURCE_FILES[i];
        assert file in SOURCE_FILES;
        if file in from {
          :- Step(disk.(sources := disk.sources[file := from[file]]));
        } else {
          :- Step(disk.(sources := disk.sources - {file}));
        }
      }
      assert forall file | file in SOURCE_FILES :: exists k :: 0 <= k < |SOURCE_FILES| && SOURCE_FILES[k] == file;
      assert disk.sources == from;
      return Done;
    }

    /** `write_runtime`. */
    method WriteRuntime(s: Settings, env: Environment) returns (o: Outcome)
      requires disk.data.Some? && disk.site.Some?
      modifies this`disk
      ensures disk == old(disk).(data := disk.data, site := disk.site, env := disk.env)
      ensures disk.data.Some? && disk.site.Some?
      ensures o.Done? ==>
        disk == old(disk).(env := host.complete(s, env), data := Some(host.provision(s, old(disk).data.value)),
                           site := Some(Seeded(host, s, old(disk).site.value, old(disk).current)))
    {
      o := Done;
      :- Step(disk.(env := host.complete(s, env)));
      :- ChangeData(host.provision(s, disk.data.value));
      if s.hosting && disk.site.value == map[] {
        :- FillSite(host.seed(disk.current));
      }
      return Done;
    }

    /** The first half of `apply_package`: the directories and the update source's files. */
    method ReplaceFiles(p: Package, copySource: bool) returns (o: Outcome)
      requires forall file | file in disk.sources :: file in SOURCE_FILES
      requires forall file | file in p.sources :: file in SOURCE_FILES
      modifies this`disk
      ensures disk == old(disk).(data := disk.data, site := disk.site, maintenance := disk.maintenance, sources := disk.sources)
      ensures forall file | file in disk.sources :: file in SOURCE_FILES
      ensures !copySource ==> disk.sources == old(disk).sources
      ensures o.Done? ==> disk.data == Some(p.data) && disk.site == Some(p.site) && disk.maintenance
      ensures o.Done? && copySource ==> disk.sources == p.sources
    {
      o := Done;
      :- ReplaceData(p.data);
      :- ReplaceSite(p.site);
      :- Step(disk.(maintenance := true));
      if copySource {
        :- CopySources(p.sources);
      }
      return Done;
    }

    /** The second half: interrupted work in the database, the runtime files, the settings. */
    method Configure(env: Environment, s: Settings) returns (o: Outcome)
      requires disk.data.Some? && disk.site.Some?
      modifies this`disk
      ensures disk == old(disk).(data := disk.data, site := disk.site, env := disk.env, settings := disk.settings)
      ensures o.Done? ==>
        disk == old(disk).(data := Some(host.provision(s, host.stopJobs(old(disk).data.value))),
                           site := Some(Seeded(host, s, old(disk).site.value, old(disk).current)),
                           env := host.complete(s, host.adapt(s, env)), settings := s)
    {
      o := Done;
      :- ChangeData(host.stopJobs(disk.data.value));
      :- WriteRuntime(s, host.adapt(s, env));
      :- Step(disk.(settings := s));
      return Done;
    }

    /** `apply_package`. */
    method ApplyPackage(p: Package, s: Settings, copySource: bool) returns (o: Outcome)
      requires forall file | file in disk.sources :: file in SOURCE_FILES
      requires forall file | file in p.sources :: file in SOURCE_FILES
      modifies this`disk
      ensures disk == old(disk).(data := disk.data, site := disk.site, maintenance := disk.maintenance,
                                 sources := disk.sources, env := disk.env, settings := disk.settings)
      ensures forall file | file in disk.sources :: file in SOURCE_FILES
      ensures !copySource ==> disk.sources == old(disk).sources
      ensures o.Done? ==>
        && disk.data == Some(host.provision(s, host.stopJobs(p.data)))
        && disk.site == Some(Seeded(host, s, p.site, disk.current))
        && disk.settings == s && disk.maintenance
        && disk.env == host.complete(s, host.adapt(s, p.env))
        && disk.sources == if copySource then p.sources else old(disk).sources
    {
      o := Done;
      :- ReplaceFiles(p, copySource);
      :- Configure(p.env, s);
      return Done;
    }

    ghost function Last(): Installation
      requires starts != []
      reads this
    {
      starts[|starts| - 1]
    }

    /**
     * `recover`. Interrupted, it can be run again with the same promise. It starts services at most once, and cut
     * short or not, only on the installation from before the transaction, whatever the disk held, if the journal
     * names a backup; without one, on the disk as it is.
     */
    method Recover() returns (o: Outcome)
      requires Safe()
      modifies this
      ensures Safe() && before == old(before)
      ensures old(disk).journal.None? ==> o.Done? && disk == old(disk) && starts == old(starts)
      ensures o.Done? ==> disk.journal.None?
      ensures disk.packages == old(disk).packages && disk.releases == old(disk).releases
      ensures disk.journal.Some? ==> disk.journal == old(disk).journal
      ensures old(disk).journal.Some? && old(disk).journal.value.backup.None? ==> SameButData(disk, old(disk))
      ensures starts == old(starts) || (
        && starts != [] && starts == old(starts) + [Last()] && old(disk).journal.Some?
        && Returns(host, before, old(disk), old(disk).journal.value.backup.Some?, old(disk).current, Last()))
      ensures old(disk).journal.Some? && (o.Done? || disk.journal.None?) ==>
        starts != old(starts) && Installed(disk) == Last().(data := disk.data.value)
    {
      if disk.journal.None? {
        return Done;
      }
      var j := disk.journal.value;
      :- Stop();
      if j.backup.Some? {
        var p := disk.packages[j.backup.value];
        :- ApplyPackage(p, j.settings, j.restoreSource);
        :- Step(disk.(current := j.settings.revision));
        :- InstallUnits(j.settings);
      }
      :- Finish();
      return Done;
    }

    /** `update`, from the prepared release to the commit. */
    method Update(candidate: Settings, name: PackageName) returns (o: Outcome)
      requires Safe() && disk.journal.None?
      modifies this
      ensures Safe()
      ensures InProgress(old(disk)) || Untouched(old(disk)) || UpdatedTo(candidate, old(disk))
      ensures starts == old(starts) || (Whole(before) && starts == old(starts) + [Updated(host, Installed(before), candidate)])
      ensures o.Done? ==> UpdatedTo(candidate, old(disk))
      ensures o.Done? ==> starts != [] && Whole(before)
      ensures o.Done? ==>
        var x, was := Last(), old(disk);
        && x.data == host.provision(candidate, before.data.value)
        && x.site == (if candidate.hosting && was.site == Some(map[]) then host.seed(candidate.revision) else was.site.value)
        && x.env == host.complete(candidate, host.relink(candidate, was.env)) && x.sources == was.sources
        && x.settings == candidate == x.units && x.current == candidate.revision
    {
      o := Done;
      :- Begin(candidate.revision, false, name);
      :- Step(disk.(journal := disk.journal)); // containers_removed
      :- Deploy(candidate);
      :- Finish();
      return Done;
    }

    /** What `update` changes, in its order. */
    method Deploy(s: Settings) returns (o: Outcome)
      requires disk.data.Some? && disk.site.Some?
      modifies this`disk
      ensures disk == old(disk).(data := disk.data, site := disk.site, env := disk.env, settings := disk.settings,
                                 current := disk.current, units := disk.units)
      ensures o.Done? ==> disk.data.Some? && disk.site.Some? && Installed(disk) == Updated(host, Installed(old(disk)), s)
      ensures o.Done? ==>
        && disk.data == Some(host.provision(s, old(disk).data.value))
        && disk.site == (if s.hosting && old(disk).site == Some(map[]) then Some(host.seed(s.revision)) else old(disk).site)
        && disk.env == host.complete(s, host.relink(s, old(disk).env)) && disk.sources == old(disk).sources
        && disk.settings == s == disk.units && disk.current == s.revision
    {
      o := Done;
      :- Step(disk.(current := s.revision));
      :- WriteRuntime(s, host.relink(s, disk.env));
      :- InstallUnits(s);
      :- Step(disk.(settings := s));
      return Done;
    }

    /** `restore` of a package onto this installation. */
    method Restore(p: Package, s: Settings, switched: bool, name: PackageName) returns (o: Outcome)
      requires Safe() && disk.journal.None?
      requires forall file | file in p.sources :: file in SOURCE_FILES
      modifies this
      ensures Safe()
      ensures InProgress(old(disk)) || Untouched(old(disk)) || RestoredTo(p, s, switched, old(disk))
      ensures starts == old(starts) || (Whole(before) && starts == old(starts) + [Restored(host, Installed(before), p, s, switched)])
      ensures o.Done? ==> RestoredTo(p, s, switched, old(disk))
      ensures o.Done? ==> starts != []
      ensures o.Done? ==>
        var x, was := Last(), old(disk);
        var env := host.complete(s, host.adapt(s, p.env));
        && x.data == host.provision(s, host.stopJobs(p.data))
        && x.site == (if s.hosting && p.site == map[] then host.seed(was.current) else p.site)
        && x.env == (if switched then host.complete(s, host.keepUpstream(was.env, env)) else env)
        && x.sources == (if "source.json" in was.sources then was.sources else p.sources)
        && x.settings == s == x.units && x.current == s.revision
    {
      var keepSource := "source.json" in disk.sources;
      :- Begin(s.revision, !keepSource, name);
      :- Overwrite(p, s, switched);
      :- Finish();
      return Done;
    }

    /** What `restore` changes, in its order. */
    method Overwrite(p: Package, s: Settings, switched: bool) returns (o: Outcome)
      requires Whole(disk)
      requires forall file | file in p.sources :: file in SOURCE_FILES
      modifies this`disk
      ensures disk == old(disk).(data := disk.data, site := disk.site, maintenance := disk.maintenance,
                                 sources := disk.sources, env := disk.env, settings := disk.settings,
                                 current := disk.current, units := disk.units)
      ensures forall file | file in disk.sources :: file in SOURCE_FILES
      ensures "source.json" in old(disk).sources ==> disk.sources == old(disk).sources
      ensures o.Done? ==> disk.data.Some? && disk.site.Some?
                          && Installed(disk) == Restored(host, Installed(old(disk)), p, s, switched)
      ensures o.Done? ==>
        var env := host.complete(s, host.adapt(s, p.env));
        && disk.data == Some(host.provision(s, host.stopJobs(p.data)))
        && disk.site == Some(if s.hosting && p.site == map[] then host.seed(old(disk).current) else p.site)
        && disk.env == (if switched then host.complete(s, host.keepUpstream(old(disk).env, env)) else env)
        && disk.sources == (if "source.json" in old(disk).sources then old(disk).sources else p.sources)
        && disk.settings == s == disk.units && disk.current == s.revision
    {
      var machine, keepSource := disk.env, "source.json" in disk.sources;
      :- ApplyPackage(p, s, !keepSource);
      :- SwitchOver(s, if switched then host.complete(s, host.keepUpstream(machine, disk.env)) else disk.env);
      return Done;
    }

    /** What `restore` changes after the package is applied. */
    method SwitchOver(s: Settings, env: Environment) returns (o: Outcome)
      modifies this`disk
      ensures disk == old(disk).(env := disk.env, current := disk.current, units := disk.units)
      ensures o.Done? ==> disk == old(disk).(env := env, current := s.revision, units := s)
    {
      if env != disk.env {
        :- Step(disk.(env := env));
      }
      :- Step(disk.(current := s.revision));
      :- InstallUnits(s);
      return Done;
    }

    /** `backup`: the installation is stopped, packed and started again. */
    method Backup(name: PackageName) returns (o: Outcome)
      requires Safe() && disk.journal.None?
      modifies this
      ensures Safe() && SameButData(disk, old(disk))
      ensures disk.journal.Some? ==> disk.journal.value.backup.None?
      ensures o.Done? ==>
        && disk.journal.None? && SameButData(before, old(disk))
        && disk.packages == old(disk).packages[name := Pack(before)]
        && starts == old(starts) + [Installed(before)]
    {
      o := Done;
      :- Quiesce(Journal(disk.settings, None, false));
      if name in disk.packages {
        return Interrupted;
      }
      :- Step(disk.(packages := disk.packages[name := Pack(disk)]));
      :- Finish();
      return Done;
    }

    // ----- what a crash leaves, and what recovery makes of it ------------------------------------

    /** The journal is on disk: `was` is what recovery must return to. */
    ghost predicate InProgress(was: Disk)
      reads this
    {
      && disk.journal.Some?
      && (if disk.journal.value.backup.Some? then SameButData(before, was) else SameButData(disk, was))
    }

    /** No journal, and nothing but data/ has changed, by services. */
    ghost predicate Untouched(was: Disk)
      reads this
    {
      disk.journal.None? && SameButData(disk, was)
    }

    /** No journal, and services started last on exactly `installation`. */
    ghost predicate Committed(installation: Installation)
      reads this
    {
      && disk.journal.None? && Whole(disk) && starts != [] && Last() == installation
      && Installed(disk) == installation.(data := disk.data.value)
    }

    ghost predicate UpdatedTo(s: Settings, was: Disk)
      reads this
    {
      SameButData(before, was) && Committed(Updated(host, Installed(before), s))
    }

    ghost predicate RestoredTo(p: Package, s: Settings, switched: bool, was: Disk)
      reads this
    {
      SameButData(before, was) && Committed(Restored(host, Installed(before), p, s, switched))
    }

    /** Services started on `was` again: unpacked from its backup while `current` named `at` if the journal named one,
        and else as the disk was. */
    ghost predicate RolledBack(was: Disk, backed: bool, at: Revision)
      reads this
    {
      if backed then
        SameButData(before, was) && Committed(Unpacked(host, Pack(before), before.settings, before.sources, at))
      else
        starts != [] && SameButData(disk, was) && Committed(Last())
    }

    /** After a crash in a transaction: recovery, itself cut short any number of times, each time with
        services started by a reboot writing to data/. Once it gets through, `was` is back. */
    method Settle(crashes: nat, ghost was: Disk) returns (ghost at: Revision)
      requires Safe() && InProgress(was)
      modifies this
      ensures Safe() && before == old(before)
      ensures disk.journal.Some? ==> disk.journal == old(disk).journal && InProgress(was)
      ensures disk.journal.None? ==> RolledBack(was, old(disk).journal.value.backup.Some?, at)
      ensures old(starts) <= starts
      ensures OnlyOld(host, before, was, old(disk).journal.value.backup.Some?, starts[|old(starts)|..])
    {
      at := disk.current;
      ghost var backed := disk.journal.value.backup.Some?;
      for k := 0 to crashes
        invariant Safe() && before == old(before)
        invariant disk.journal.Some? ==> disk.journal == old(disk).journal && InProgress(was)
        invariant disk.journal.None? ==> RolledBack(was, old(disk).journal.value.backup.Some?, at)
        invariant old(starts) <= starts
        invariant OnlyOld(host, before, was, backed, starts[|old(starts)|..])
      {
        if disk.journal.None? {
          return;
        }
        Reboot();
        at := disk.current;
        ghost var found, since := disk, starts;
        var _ := Recover();
        if starts != since {
          OneMoreStart(host, before, was, found, backed, at, since[|old(starts)|..], Last());
          assert starts[|old(starts)|..] == since[|old(starts)|..] + [Last()];
        }
      }
    }

    /** An update and every crash after it. What decides is `left`, what was in transaction.json when the update
        ended. Nothing: the update had not begun, or services started on the whole new installation. A journal:
        the old installation is back before services start, from the backup if it names one. Services are never
        started on anything else: at most once on the whole new installation (`tried`), by the update itself, and
        then only on the old one, however often recovery is cut short. */
    method UpdateThroughCrashes(candidate: Settings, name: PackageName, crashes: nat)
      returns (left: Option<Journal>, ghost at: Revision, ghost tried: seq<Installation>)
      requires Safe() && disk.journal.None?
      modifies this
      ensures Safe()
      ensures left.None? ==> Untouched(old(disk)) || UpdatedTo(candidate, old(disk))
      ensures left.Some? && disk.journal.None? ==> RolledBack(old(disk), left.value.backup.Some?, at)
      ensures left.Some? && disk.journal.Some? ==> disk.journal == left && InProgress(old(disk))
      ensures old(starts) + tried <= starts && (tried == [] || (Whole(before) && tried == [Updated(host, Installed(before), candidate)]))
      ensures if left.None? then starts == old(starts) + tried
        else OnlyOld(host, before, old(disk), left.value.backup.Some?, starts[|old(starts) + tried|..])
    {
      var _ := Update(candidate, name);
      left := disk.journal;
      tried := starts[|old(starts)|..];
      at := disk.current;
      if left.Some? {
        at := Settle(crashes, old(disk));
      }
    }

    method RestoreThroughCrashes(p: Package, s: Settings, switched: bool, name: PackageName, crashes: nat)
      returns (left: Option<Journal>, ghost at: Revision, ghost tried: seq<Installation>)
      requires Safe() && disk.journal.None?
      requires forall file | file in p.sources :: file in SOURCE_FILES
      modifies this
      ensures Safe()
      ensures left.None? ==> Untouched(old(disk)) || RestoredTo(p, s, switched, old(disk))
      ensures left.Some? && disk.journal.None? ==> RolledBack(old(disk), left.value.backup.Some?, at)
      ensures left.Some? && disk.journal.Some? ==> disk.journal == left && InProgress(old(disk))
      ensures old(starts) + tried <= starts && (tried == [] || (Whole(before) && tried == [Restored(host, Installed(before), p, s, switched)]))
      ensures if left.None? then starts == old(starts) + tried
        else OnlyOld(host, before, old(disk), left.value.backup.Some?, starts[|old(starts) + tried|..])
    {
      var _ := Restore(p, s, switched, name);
      left := disk.journal;
      tried := starts[|old(starts)|..];
      at := disk.current;
      if left.Some? {
        at := Settle(crashes, old(disk));
      }
    }
  }
}
