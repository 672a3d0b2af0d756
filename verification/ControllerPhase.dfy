/**
 Replacing the controller container and rolling it back.  A phase may die between any two changes;
 while a controller runs it may rewrite its own files at any time.
 */
module ControllerPhase {
  import opened Basics

  type Bytes(==, !new)

  datatype FileKey = Config | Env | Database | Wal | Shm

  type Files = map<FileKey, Bytes>   // the controller's files; a missing key is a missing file

  /** The baseline container, or the one this plan creates and labels as its own. */
  datatype Owner = Baseline | Plan

  datatype Container = Container(owner: Owner, running: bool)

  datatype Outcome = Completed | Refused | Died

  class Host {
    const present: bool         // whether the baseline had a controller
    const backup: Files

    var canonical: Option<Container>
    var hidden: Option<Container>
    var files: Files
    var fuel: int               // changes left before this attempt dies
    var noise: seq<Files>       // what running controllers will make of the files
    ghost var touchedWhileRunning: bool
    ghost var launched: Files   // the files as the plan's controller was last started on

    constructor (present: bool, running: bool, backup: Files, files: Files, noise: seq<Files>)
      ensures Safe() && this.present == present && this.backup == backup && !touchedWhileRunning
      ensures canonical == if present then Some(Container(Baseline, running)) else None
    {
      this.present, this.backup, this.files, this.noise := present, backup, files, noise;
      canonical := if present then Some(Container(Baseline, running)) else None;
      hidden, fuel, touchedWhileRunning, launched := None, 0, false, files;
    }

    predicate Running()
      reads this
    {
      (canonical.Some? && canonical.value.running) || (hidden.Some? && hidden.value.running)
    }

    /** The baseline container is there exactly once, under one of the two names; only a stopped one
        is ever put aside; and no step so far changed a file under a running controller. */
    ghost predicate Safe()
      reads this
    {
      && !touchedWhileRunning
      && (hidden.Some? ==> present && hidden == Some(Container(Baseline, false)))
      && (canonical.Some? ==> canonical.value.owner.Plan? || (present && hidden.None?))
      && (present && hidden.None? ==> canonical.Some? && canonical.value.owner.Baseline?)
    }

    /** What a completed rollback promises. */
    ghost predicate AtBaseline()
      reads this
    {
      && files == backup && hidden.None?
      && canonical == if present then Some(Container(Baseline, false)) else None
    }

    /** One more change may follow; before it, whatever runs has had its way with the files. */
    method Spend() returns (alive: bool)
      modifies this`fuel, this`files, this`noise
      ensures alive == (old(fuel) > 0) && fuel == if alive then old(fuel) - 1 else old(fuel)
      ensures !Running() ==> files == old(files)
      ensures old(noise) == [] ==> files == old(files) && noise == []
    {
      if noise != [] && Running() {
        files := noise[0];
        noise := noise[1..];
      }
      if fuel <= 0 {
        return false;
      }
      fuel := fuel - 1;
      return true;
    }

    /** Write or unlink one file. */
    method Put(key: FileKey, bytes: Option<Bytes>) returns (alive: bool)
      modifies this`fuel, this`files, this`noise, this`touchedWhileRunning
      ensures alive == (old(fuel) > 0) && fuel == if alive then old(fuel) - 1 else old(fuel)
      ensures touchedWhileRunning == (old(touchedWhileRunning) || (alive && Running()))
      ensures old(noise) == [] ==> noise == []
      ensures !Running() ==>
                files == if !alive then old(files)
                         else if bytes.Some? then old(files)[key := bytes.value]
                         else old(files) - {key}
    {
      alive := Spend();
      if alive {
        touchedWhileRunning := touchedWhileRunning || Running();
        files := if bytes.Some? then files[key := bytes.value] else files - {key};
      }
    }

    method RestoreFile(key: FileKey) returns (alive: bool)
      requires !Running()
      modifies this`fuel, this`files, this`noise, this`touchedWhileRunning
      ensures alive == (old(fuel) > 0) && fuel == if alive then old(fuel) - 1 else old(fuel)
      ensures touchedWhileRunning == old(touchedWhileRunning)
      ensures alive ==> forall k :: (k in files <==> if k == key then k in backup else k in old(files))
      ensures alive ==> forall k :: k in files ==> files[k] == if k == key then backup[k] else old(files)[k]
      ensures !alive ==> files == old(files)
    {
      alive := Put(key, if key in backup then Some(backup[key]) else None);
    }

    method RestoreFiles() returns (alive: bool)
      requires !Running()
      modifies this`fuel, this`files, this`noise, this`touchedWhileRunning
      ensures alive == (old(fuel) >= 5) && (alive ==> files == backup && fuel == old(fuel) - 5)
      ensures touchedWhileRunning == old(touchedWhileRunning)
    {
      alive := RestoreFile(Config);
      if !alive { return; }
      alive := RestoreFile(Env);
      if !alive { return; }
      alive := RestoreFile(Database);
      if !alive { return; }
      alive := RestoreFile(Wal);
      if !alive { return; }
      alive := RestoreFile(Shm);
      if !alive { return; }
      assert forall k: FileKey :: k.Config? || k.Env? || k.Database? || k.Wal? || k.Shm?;
      assert forall k :: k in files <==> k in backup;
    }

    /** The file and image comparisons are the environment's to answer. */
    method Apply(matchBefore: bool, matchAfterStop: bool, image: bool, config: Bytes, env: Bytes,
                 createdMatches: bool, healthy: bool) returns (r: Outcome)
      requires Safe()
      modifies this
      ensures Safe()
      ensures r.Completed? ==>
                && old(hidden).None? && canonical == Some(Container(Plan, true))
                && hidden == if present then Some(Container(Baseline, false)) else None
      ensures r.Completed? ==>
                Config in launched && launched[Config] == config && Env in launched && launched[Env] == env
      ensures r.Completed? && old(noise) == [] ==> files == launched == old(files)[Config := config][Env := env]
      ensures old(fuel) >= 7 ==>
                (r.Completed? <==>
                   && old(hidden).None? && present == old(canonical).Some? && matchBefore && image
                   && (present ==> matchAfterStop) && createdMatches && healthy)
    {
      if hidden.Some? || present != canonical.Some? || (canonical.Some? && !canonical.value.owner.Baseline?) {
        return Refused;
      }
      if !matchBefore || !image {
        return Refused;
      }
      var alive: bool;
      if canonical.Some? {
        if canonical.value.running {
          alive := Spend();
          if !alive { return Died; }
          canonical := Some(Container(Baseline, false));
        }
        if !matchAfterStop { return Refused; }
        alive := Spend();
        if !alive { return Died; }
        hidden, canonical := canonical, None;
      }
      alive := Put(Config, Some(config));
      if !alive { return Died; }
      alive := Put(Env, Some(env));
      if !alive { return Died; }
      alive := Spend();
      if !alive { return Died; }
      canonical := Some(Container(Plan, false));
      if !createdMatches { return Refused; }
      alive := Spend();
      if !alive { return Died; }
      canonical, launched := Some(Container(Plan, true)), files;
      alive := Spend();
      return if !alive then Died else if healthy then Completed else Refused;
    }

    /** Take the plan's own controller away, or stop the baseline one. */
    method Quiesce() returns (alive: bool)
      requires Safe()
      modifies this`canonical, this`fuel, this`files, this`noise
      ensures Safe() && (old(fuel) >= 2 ==> alive && fuel >= old(fuel) - 2)
      ensures alive ==> !Running() && (canonical.Some? ==> canonical.value.owner.Baseline?)
    {
      if canonical.None? {
        return true;
      }
      if canonical.value.running {
        alive := Spend();
        if !alive { return; }
        canonical := Some(canonical.value.(running := false));
      }
      if canonical.value.owner.Plan? {
        alive := Spend();
        if !alive { return; }
        canonical := None;
      }
      return true;
    }

    /** From any state that apply or rollback may leave, this ends at the baseline, stopped, or dies
        for lack of changes; eight are always enough. */
    method Rollback() returns (r: Outcome)
      requires Safe()
      modifies this
      ensures Safe()
      ensures r.Completed? ==> AtBaseline()
      ensures old(fuel) >= 8 ==> r.Completed?
    {
      var alive := Quiesce();
      if !alive { return Died; }
      alive := RestoreFiles();
      if !alive { return Died; }
      if present {
        if hidden.Some? {
          alive := Spend();
          if !alive { return Died; }
          canonical, hidden := hidden, None;
        }
        if canonical.None? || !canonical.value.owner.Baseline? {
          return Refused;
        }
        // The last stop of the rollback: stopped or put aside stopped, it is never running here.
        if canonical.value.running {
          assert false;
        }
      } else if hidden.Some? {
        return Refused;
      }
      return Completed;
    }

    /** After the transaction is committed: only the retained baseline goes. */
    method Cleanup() returns (r: Outcome)
      requires Safe()
      modifies this
      ensures canonical == old(canonical) && !touchedWhileRunning
      ensures r.Completed? ==> canonical == Some(Container(Plan, true)) && hidden.None?
      ensures !r.Completed? ==> hidden == old(hidden)
      ensures old(canonical) == Some(Container(Plan, true)) && old(fuel) >= 1 ==> r.Completed?
    {
      if canonical.None? || !canonical.value.owner.Plan? || !canonical.value.running {
        return Refused;
      }
      if hidden.Some? {
        if !present || !hidden.value.owner.Baseline? || hidden.value.running {
          return Refused;
        }
        var alive := Spend();
        if !alive { return Died; }
        hidden := None;
      }
      return Completed;
    }
  }

  datatype Attempt =
    | Applying(fuel: int, matchBefore: bool, matchAfterStop: bool, image: bool, config: Bytes, env: Bytes,
               createdMatches: bool, healthy: bool)
    | RollingBack(fuel: int)

  /** Any sequence of attempts before cleanup, each dying anywhere, then one rollback left alone: the
      baseline container is back under its name and stopped, or none is there if none was; the files
      are the backup's; and no file was ever changed while a controller ran. */
  method AnyHistory(host: Host, attempts: seq<Attempt>) returns (r: Outcome)
    requires host.Safe()
    modifies host
    ensures r.Completed? && host.AtBaseline() && !host.touchedWhileRunning
  {
    var i := 0;
    while i < |attempts|
      invariant host.Safe()
    {
      var a := attempts[i];
      host.fuel := a.fuel;
      if a.Applying? {
        var _ := host.Apply(a.matchBefore, a.matchAfterStop, a.image, a.config, a.env, a.createdMatches, a.healthy);
      } else {
        var _ := host.Rollback();
      }
      i := i + 1;
    }
    host.fuel := 8;
    r := host.Rollback();
  }
}
