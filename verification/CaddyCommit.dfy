/**
 Conditional replacement of Caddy's active config over its admin API, while another client may
 write between any two requests.  An If-Match POST takes effect only on the config its ETag names
 (RFC 9110 section 13.1.1), and is answered 412 otherwise (section 15.5.13).
 */
module CaddyCommit {
  import opened Basics

  type Config(==, !new)   // up to key order, as `canonical` prints it

  /** Equal tags mean equal configs. */
  datatype ETag = ETag(config: Config)

  datatype Outcome = Normal | Broken | Lost   // Lost: the request took effect, its answer did not arrive

  /** What happens around one request: foreign writes before it, and how it goes. */
  datatype Turn = Turn(writes: seq<Config>, outcome: Outcome)

  datatype Change = Foreign(after: Config) | Own(before: Config, after: Config)

  datatype Error = Unreachable | Differs | DiskChanged | LostRace | Unverified

  datatype Result = Done(already: bool) | Failed(error: Error)

  /** From entry `start` on, own changes replaced only `from`, and only by `to`. */
  ghost predicate OnlyReplaces(log: seq<Change>, start: int, from: Config, to: Config) {
    forall i :: 0 <= start <= i < |log| && log[i].Own? ==> log[i].before == from && log[i].after == to
  }

  /** An own change is recorded with the config that was really there. */
  ghost predicate Chained(log: seq<Change>, start: int, before: Config) {
    forall i :: 0 <= start <= i < |log| && log[i].Own? ==>
        log[i].before == if i == start then before else log[i - 1].after
  }

  ghost predicate NoForeign(script: seq<Turn>) {
    forall i :: 0 <= i < |script| ==> script[i].writes == []
  }

  ghost predicate AllNormal(script: seq<Turn>) {
    forall i :: 0 <= i < |script| ==> script[i].outcome.Normal?
  }

  class Admin {
    var active: Config
    var script: seq<Turn>      // the turns to come; beyond them nothing interferes
    ghost var log: seq<Change>
    ghost var requests: nat             // how many requests there were
    ghost var read: Option<Config>      // what the last request read, if it was answered and a read

    constructor (active: Config, script: seq<Turn>)
      ensures this.active == active && this.script == script && log == []
    {
      this.active, this.script, log, requests, read := active, script, [], 0, None;
    }

    /** The log tells how the config came to be what it is. */
    ghost predicate Tells(before: Config, start: int)
      reads this
    {
      && (|log| == start ==> active == before)
      && (|log| > start >= 0 ==> log[|log| - 1].after == active)
    }

    /** The foreign writes of a turn, then how the request goes. */
    method Interleave() returns (outcome: Outcome)
      modifies this
      ensures old(log) <= log && forall i :: |old(log)| <= i < |log| ==> log[i].Foreign?
      ensures Tells(old(active), |old(log)|) && requests == old(requests) + 1 && read.None?
      ensures old(script) == [] ==> outcome.Normal? && script == []
      ensures old(script) != [] ==> outcome == old(script)[0].outcome && script == old(script)[1..]
      ensures NoForeign(old(script)) ==> NoForeign(script) && log == old(log) && active == old(active)
      ensures AllNormal(old(script)) ==> AllNormal(script) && outcome.Normal?
    {
      requests, read := requests + 1, None;
      if script == [] {
        return Normal;
      }
      var turn := script[0];
      script := script[1..];
      var i := 0;
      while i < |turn.writes|
        invariant 0 <= i <= |turn.writes| && script == old(script)[1..]
        invariant old(log) <= log && forall k :: |old(log)| <= k < |log| ==> log[k].Foreign?
        invariant |log| == |old(log)| + i && Tells(old(active), |old(log)|)
        invariant requests == old(requests) + 1 && read.None?
      {
        active := turn.writes[i];
        log := log + [Foreign(turn.writes[i])];
        i := i + 1;
      }
      return turn.outcome;
    }

    method Get() returns (ok: bool, config: Config, etag: ETag)
      modifies this
      ensures old(log) <= log && forall i :: |old(log)| <= i < |log| ==> log[i].Foreign?
      ensures Tells(old(active), |old(log)|)
      ensures ok ==> config == active && etag == ETag(active)
      ensures requests == old(requests) + 1 && read == if ok then Some(config) else None
      ensures NoForeign(old(script)) ==> NoForeign(script) && log == old(log) && active == old(active)
      ensures AllNormal(old(script)) ==> AllNormal(script) && ok
    {
      var outcome := Interleave();
      read := if outcome.Normal? then Some(active) else None;
      return outcome.Normal?, active, ETag(active);
    }

    /** At most one own change, of exactly the config the tag names. */
    method Post(body: Config, ifMatch: ETag) returns (ok: bool, status: int)
      modifies this
      ensures old(log) <= log && OnlyReplaces(log, |old(log)|, ifMatch.config, body)
      ensures Tells(old(active), |old(log)|) && Chained(log, |old(log)|, old(active))
      ensures requests == old(requests) + 1 && read.None?
      ensures ok ==> status in {200, 412} && (status == 200 ==> active == body)
      ensures NoForeign(old(script)) ==>
                NoForeign(script) && (active == old(active) || (old(active) == ifMatch.config && active == body))
      ensures NoForeign(old(script)) && old(active) == ifMatch.config && ok ==> status == 200
      ensures AllNormal(old(script)) ==> AllNormal(script) && ok
    {
      var outcome := Interleave();
      if outcome.Broken? {
        return false, 0;
      }
      if ETag(active) != ifMatch {
        return outcome.Normal?, 412;
      }
      log := log + [Own(active, body)];
      active := body;
      return outcome.Normal?, 200;
    }

    /** However the other client writes: whatever this replaces is the expected config, and what it
        puts is the desired one; success means that, after the post, a read found it in place. */
    method Commit(expected: Config, desired: Config, diskSame: bool) returns (r: Result)
      modifies this
      ensures old(log) <= log && OnlyReplaces(log, |old(log)|, expected, desired)
      ensures Tells(old(active), |old(log)|) && Chained(log, |old(log)|, old(active))
      ensures r.Done? ==> diskSame && active == desired
      ensures r.Done? ==> !r.already && requests == old(requests) + 3 && read == Some(desired)
      ensures NoForeign(old(script)) ==>
                NoForeign(script) && (active == old(active) || (old(active) == expected && active == desired))
      ensures NoForeign(old(script)) && AllNormal(old(script)) ==>
                AllNormal(script) && (r.Done? <==> old(active) == expected && diskSame)
    {
      var ok, live, etag := Get();
      if !ok {
        return Failed(Unreachable);
      }
      if live != expected {
        return Failed(Differs);
      }
      if !diskSame {
        return Failed(DiskChanged);
      }
      var posted, status := Post(desired, etag);
      if !posted {
        return Failed(Unreachable);
      }
      if status == 412 {
        return Failed(LostRace);
      }
      var again, actual, _ := Get();
      if !again || actual != desired {
        return Failed(Unverified);
      }
      return Done(false);
    }

    /** The same for the way back; a config that is neither is left alone. */
    method Restore(desired: Config, baseline: Config) returns (r: Result)
      modifies this
      ensures old(log) <= log && OnlyReplaces(log, |old(log)|, desired, baseline)
      ensures Tells(old(active), |old(log)|) && Chained(log, |old(log)|, old(active))
      ensures r.Done? ==> active == baseline && read == Some(baseline)
      ensures r.Done? ==> requests == old(requests) + if r.already then 1 else 3
      ensures NoForeign(old(script)) ==>
                NoForeign(script) && (active == old(active) || (old(active) == desired && active == baseline))
      ensures NoForeign(old(script)) && AllNormal(old(script)) ==>
                AllNormal(script) && (r.Done? <==> old(active) == baseline || old(active) == desired)
    {
      var ok, live, etag := Get();
      if !ok {
        return Failed(Unreachable);
      }
      if live == baseline {
        return Done(true);
      }
      if live != desired {
        return Failed(Differs);
      }
      var posted, status := Post(baseline, etag);
      if !posted {
        return Failed(Unreachable);
      }
      if status == 412 {
        return Failed(LostRace);
      }
      var again, actual, _ := Get();
      if !again || actual != baseline {
        return Failed(Unverified);
      }
      return Done(false);
    }
  }
}
