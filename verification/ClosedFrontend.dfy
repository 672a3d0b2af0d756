/**
 Publishing the closed frontend and rolling it back: three live objects - the Caddyfile, the
 snippet, the active config - and three transaction files written ahead of them.  A phase may die
 between any two writes and, through the outcome of a request, around any admin request.
 */
module ClosedFrontend {
  import opened Basics
  import opened CaddyCommit
  import opened CaddyTransform
  import CaddyEditor

  datatype Baseline = Baseline(caddyfile: string, snippet: Option<string>, active: Config)

  datatype Plan = Plan(hydroDomain: string, snippetPath: string, closed: string)

  datatype Outcome = Completed | Refused | Died

  function Candidate(b: Baseline, p: Plan): Option<string> {
    var r := Harden(b.caddyfile, p.hydroDomain, p.snippetPath);
    if r.Ok? then Some(r.text) else None
  }

  class Host {
    const baseline: Baseline
    const plan: Plan
    const admin: Admin

    var caddyfile: string
    var snippet: Option<string>
    var candidateFile: Option<string>
    var closedFile: Option<string>
    var desiredFile: Option<Config>
    var fuel: int               // writes left before this attempt dies

    constructor (baseline: Baseline, plan: Plan, admin: Admin)
      requires ConfigOk(plan.hydroDomain, plan.snippetPath)
      requires admin.active == baseline.active && NoForeign(admin.script)
      ensures this.baseline == baseline && this.plan == plan && this.admin == admin && Safe() && AtBaseline()
    {
      this.baseline, this.plan, this.admin := baseline, plan, admin;
      caddyfile, snippet := baseline.caddyfile, baseline.snippet;
      candidateFile, closedFile, desiredFile, fuel := None, None, None, 0;
    }

    /** Each live object is as it was, or as a transaction file on disk says it was made. */
    ghost predicate Safe()
      reads this, admin
    {
      && ConfigOk(plan.hydroDomain, plan.snippetPath) && NoForeign(admin.script)
      && (candidateFile.Some? ==> candidateFile == Candidate(baseline, plan))
      && (closedFile.Some? ==> closedFile == Some(plan.closed))
      && (caddyfile == baseline.caddyfile || candidateFile == Some(caddyfile))
      && (snippet == baseline.snippet || (snippet.Some? && closedFile == snippet))
      && (admin.active == baseline.active || desiredFile == Some(admin.active))
    }

    ghost predicate AtBaseline()
      reads this, admin
    {
      caddyfile == baseline.caddyfile && snippet == baseline.snippet && admin.active == baseline.active
    }

    /** One write may follow. */
    method Spend() returns (alive: bool)
      modifies this`fuel
      ensures alive == (old(fuel) > 0) && fuel == if alive then old(fuel) - 1 else old(fuel)
    {
      if fuel <= 0 {
        return false;
      }
      fuel := fuel - 1;
      return true;
    }

    /** The two transaction files that do not need Caddy. */
    method WriteAhead(candidate: string) returns (alive: bool)
      requires Safe() && Candidate(baseline, plan) == Some(candidate)
      modifies this`candidateFile, this`closedFile, this`fuel
      ensures Safe() && (alive ==> candidateFile == Some(candidate) && closedFile == Some(plan.closed))
      ensures old(fuel) >= 2 ==> alive && fuel >= old(fuel) - 2
    {
      hide Candidate, ConfigOk, NoForeign;
      if candidateFile.None? {
        alive := Spend();
        if !alive {
          return;
        }
        candidateFile := Some(candidate);
      }
      if closedFile.None? {
        alive := Spend();
        if !alive {
          return;
        }
        closedFile := Some(plan.closed);
      }
      return true;
    }

    /** What Caddy adapts a file to is its answer to this call, or a refusal. */
    method Apply(adaptedBaseline: Option<Config>, adaptedCandidate: Option<Config>) returns (r: Outcome)
      requires Safe()
      modifies this, admin
      ensures Safe()
      ensures r.Completed? ==>
                && Some(caddyfile) == Candidate(baseline, plan) && snippet == Some(plan.closed)
                && Some(admin.active) == desiredFile == adaptedCandidate
      ensures r.Completed? ==> old(caddyfile == baseline.caddyfile && admin.active == baseline.active)
      ensures r.Completed? ==> adaptedBaseline == Some(baseline.active)
      ensures old(fuel) >= 5 && AllNormal(old(admin.script)) ==>
                (r.Completed? <==>
                   && Candidate(baseline, plan).Some?
                   && old(caddyfile == baseline.caddyfile && admin.active == baseline.active)
                   && adaptedBaseline == Some(baseline.active) && adaptedCandidate.Some?
                   && (old(desiredFile).None? || old(desiredFile) == adaptedCandidate))
      ensures Candidate(baseline, plan).None? ==>
                && r.Refused? && caddyfile == old(caddyfile) && snippet == old(snippet)
                && candidateFile == old(candidateFile) && closedFile == old(closedFile)
                && desiredFile == old(desiredFile) && admin.active == old(admin.active)
    {
      hide ConfigOk, NoForeign, Harden;
      var hardened := CaddyEditor.HardenCaddyfile(baseline.caddyfile, plan.hydroDomain, plan.snippetPath);
      if hardened.Err? {
        return Refused;
      }
      var candidate := hardened.text;
      var alive := WriteAhead(candidate);
      if !alive {
        return Died;
      }
      if caddyfile != baseline.caddyfile {
        return Refused;
      }
      var ok, live, _ := admin.Get();
      if !ok || live != baseline.active || adaptedBaseline != Some(baseline.active) {
        return Refused;
      }
      r := Publish(candidate, adaptedCandidate);
    }

    /** Snippet first, since the candidate imports it; then the desired config, the file, the commit. */
    method Publish(candidate: string, adapted: Option<Config>) returns (r: Outcome)
      requires Safe() && Candidate(baseline, plan) == Some(candidate) == candidateFile
      requires closedFile == Some(plan.closed)
      requires caddyfile == baseline.caddyfile && admin.active == baseline.active
      modifies this, admin
      ensures Safe()
      ensures r.Completed? ==>
                && caddyfile == candidate && snippet == Some(plan.closed)
                && Some(admin.active) == desiredFile == adapted
      ensures old(fuel) >= 3 && AllNormal(old(admin.script)) ==>
                (r.Completed? <==> adapted.Some? && (old(desiredFile).None? || old(desiredFile) == adapted))
    {
      hide Candidate, ConfigOk, NoForeign, OnlyReplaces, Chained, AllNormal;
      var alive := Spend();
      if !alive {
        return Died;
      }
      snippet := Some(plan.closed);
      if adapted.None? || (desiredFile.Some? && desiredFile != adapted) {
        return Refused;
      }
      if desiredFile.None? {
        alive := Spend();
        if !alive {
          return Died;
        }
        desiredFile := adapted;
      }
      alive := Spend();
      if !alive {
        return Died;
      }
      caddyfile := candidate;
      var committed := admin.Commit(baseline.active, adapted.value, caddyfile == candidate);
      return if committed.Failed? then Refused else Completed;
    }

    /** From any state an apply or a rollback may leave, this ends at the baseline or dies trying;
        it dies only for lack of writes or answers. */
    method Rollback() returns (r: Outcome)
      requires Safe()
      modifies this, admin
      ensures Safe()
      ensures r.Completed? ==> AtBaseline()
      ensures old(fuel) >= 2 && AllNormal(old(admin.script)) ==> r.Completed?
      ensures candidateFile == old(candidateFile) && closedFile == old(closedFile) && desiredFile == old(desiredFile)
    {
      hide Candidate, ConfigOk, NoForeign, OnlyReplaces, Chained, AllNormal;
      if !(caddyfile == baseline.caddyfile || candidateFile == Some(caddyfile))
         || !(snippet == baseline.snippet || (closedFile.Some? && snippet == closedFile)) {
        return Refused;
      }
      if caddyfile != baseline.caddyfile {
        var alive := Spend();
        if !alive {
          return Died;
        }
        caddyfile := baseline.caddyfile;
      }
      if snippet != baseline.snippet {
        var alive := Spend();
        if !alive {
          return Died;
        }
        if baseline.snippet.None? {
          var closed := if closedFile.Some? then closedFile.value else "";
          if snippet.Some? && snippet != Some(closed) {
            return Refused;
          }
          snippet := None;
        } else {
          snippet := baseline.snippet;
        }
      }
      if desiredFile.Some? {
        var restored := admin.Restore(desiredFile.value, baseline.active);
        if restored.Failed? {
          return Refused;
        }
      } else {
        var ok, live, _ := admin.Get();
        if !ok || live != baseline.active {
          return Refused;
        }
      }
      var ok, live, _ := admin.Get();
      if !ok || live != baseline.active || caddyfile != baseline.caddyfile || snippet != baseline.snippet {
        return Refused;
      }
      return Completed;
    }
  }

  datatype Attempt = Applying(fuel: int, before: Option<Config>, after: Option<Config>) | RollingBack(fuel: int)

  method OneAttempt(host: Host, attempt: Attempt)
    requires host.Safe()
    modifies host, host.admin
    ensures host.Safe()
  {
    hide Candidate, ConfigOk, NoForeign, AllNormal;
    host.fuel := attempt.fuel;
    if attempt.Applying? {
      var _ := host.Apply(attempt.before, attempt.after);
    } else {
      var _ := host.Rollback();
    }
  }

  /** Any sequence of attempts, each dying wherever its fuel and the admin's answers let it, then
      one undisturbed rollback: Caddyfile, snippet (or its absence) and active config are the baseline. */
  method AnyHistory(host: Host, attempts: seq<Attempt>) returns (r: Outcome)
    requires host.Safe()
    modifies host, host.admin
    ensures r.Completed? && host.AtBaseline()
  {
    for i := 0 to |attempts|
      invariant host.Safe()
    {
      OneAttempt(host, attempts[i]);
    }
    hide Candidate, ConfigOk;
    host.fuel := 2;
    host.admin.script := [];
    r := host.Rollback();
  }
}
