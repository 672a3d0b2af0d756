/** The capacity session: an append-only chain of samples, and the two files that seal it. */
module SamplingChain {
  import opened Basics

  type Digest(==, !new)

  const TICKS := 1000000      // clock ticks per second

  datatype Telemetry = Telemetry(sequence: int, sha256: Digest)

  /** What is measured, but for the reconnects, which are counted. */
  datatype Metric =
    | HostCpu | HostMemory | ContainerMemory | Egress | Rtt | PacketLoss | KeyToFrameP50 | KeyToFrameP95

  /** `ordinaryAt` and `healthy` are the ordinary judge's own time and state at this measurement. */
  datatype Measurement = Measurement(
    at: int, browser: Telemetry, ordinary: Telemetry, ordinaryAt: int, healthy: bool, pm2: Digest, marker: Digest,
    values: map<Metric, real>, reconnects: int)

  /** `probe` is the trusted probe's digest; samples entered by hand have none. */
  datatype Sample = Sample(sequence: int, measurement: Measurement, probe: Option<Digest>)

  datatype Plan = Plan(createdAt: int, interval: int, duration: int, probe: Digest)

  datatype FactKind = SeatInventory | WorkloadEvents | FaultEvents | OrdinaryJudge | Shutdown

  /** A fact file: `sound` if its identity and payload have the right form, `clean` if its counters
      are all zero. */
  datatype Fact = Fact(at: int, trusted: bool, sound: bool, clean: bool, restarts: int, recoveries: int)

  datatype Evidence = Evidence(
    startedAt: int, endedAt: int, duration: int, count: int, peaks: map<Metric, real>, reconnects: int,
    facts: map<FactKind, Fact>, series: seq<Sample>)

  datatype Outcome = Sealed(evidence: Evidence) | Refused | Died

  // ----- one measurement -----

  /** Every metric is there and in range, and the ordinary judge was healthy within a minute of it. */
  predicate Measurable(m: Measurement) {
    && m.browser.sequence >= 1 && m.ordinary.sequence >= 1 && m.healthy && m.reconnects >= 0
    && -60 * TICKS <= m.at - m.ordinaryAt <= 60 * TICKS
    && HostCpu in m.values && 0.0 <= m.values[HostCpu] <= 100.0
    && HostMemory in m.values && 0.0 <= m.values[HostMemory] <= 100.0
    && PacketLoss in m.values && 0.0 <= m.values[PacketLoss] <= 100.0
    && ContainerMemory in m.values && m.values[ContainerMemory] > 0.0
    && Egress in m.values && m.values[Egress] >= 0.0
    && Rtt in m.values && m.values[Rtt] > 0.0
    && KeyToFrameP50 in m.values && m.values[KeyToFrameP50] > 0.0
    && KeyToFrameP95 in m.values && m.values[KeyToFrameP95] >= m.values[KeyToFrameP50]
  }

  // ----- the chain -----

  predicate Follows(previous: Measurement, m: Measurement, interval: int) {
    && 0 < m.at - previous.at <= (interval + 2) * TICKS
    && m.browser.sequence > previous.browser.sequence && m.browser.sha256 != previous.browser.sha256
    && m.ordinary.sequence > previous.ordinary.sequence && m.ordinary.sha256 != previous.ordinary.sha256
    && m.pm2 == previous.pm2
  }

  /** A sample by a trusted probe must be by the one the session was frozen with. */
  predicate Accepts(samples: seq<Sample>, plan: Plan, m: Measurement, probe: Option<Digest>) {
    && (probe.Some? ==> probe.value == plan.probe) && Measurable(m)
    && if samples == [] then m.at >= plan.createdAt
       else Follows(samples[|samples| - 1].measurement, m, plan.interval)
  }

  ghost predicate Chain(samples: seq<Sample>, plan: Plan) {
    && (samples != [] ==> samples[0].measurement.at >= plan.createdAt)
    && (forall i :: 0 <= i < |samples| ==>
          samples[i].sequence == i + 1 && Measurable(samples[i].measurement)
          && (samples[i].probe.Some? ==> samples[i].probe.value == plan.probe))
    && forall i :: 0 < i < |samples| ==> Follows(samples[i - 1].measurement, samples[i].measurement, plan.interval)
  }

  /** Over any stretch of the chain: time and both sequences move forward, the PM2 identity stays. */
  lemma {:induction false} ChainOrder(samples: seq<Sample>, plan: Plan, i: nat, j: nat)
    requires Chain(samples, plan) && i < j < |samples|
    ensures var a, b := samples[i].measurement, samples[j].measurement;
            && a.at < b.at <= a.at + (j - i) * ((plan.interval + 2) * TICKS)
            && a.browser.sequence < b.browser.sequence && a.ordinary.sequence < b.ordinary.sequence && a.pm2 == b.pm2
    decreases j
  {
    assert Follows(samples[j - 1].measurement, samples[j].measurement, plan.interval);
    var gap := (plan.interval + 2) * TICKS;
    if i < j - 1 {
      ChainOrder(samples, plan, i, j - 1);
      OneMore(j - 1 - i, gap);
    }
  }

  lemma OneMore(n: int, gap: int)
    ensures (n + 1) * gap == n * gap + gap
  {}

  // ----- sealing -----

  function Peak(samples: seq<Sample>, metric: Metric): real
    requires samples != [] && forall i :: 0 <= i < |samples| ==> metric in samples[i].measurement.values
  {
    var last := samples[|samples| - 1].measurement.values[metric];
    if |samples| == 1 then last
    else
      var before := Peak(samples[..|samples| - 1], metric);
      if before < last then last else before
  }

  function Reconnects(samples: seq<Sample>): int {
    if samples == [] then 0 else Reconnects(samples[..|samples| - 1]) + samples[|samples| - 1].measurement.reconnects
  }

  /** derive_metrics: every metric's peak is one of its values and none is larger. */
  lemma {:induction false} PeakIsMaximum(samples: seq<Sample>, metric: Metric)
    requires samples != [] && forall i :: 0 <= i < |samples| ==> metric in samples[i].measurement.values
    ensures forall i :: 0 <= i < |samples| ==> samples[i].measurement.values[metric] <= Peak(samples, metric)
    ensures exists i :: 0 <= i < |samples| && samples[i].measurement.values[metric] == Peak(samples, metric)
  {
    var front := samples[..|samples| - 1];
    if |samples| > 1 {
      PeakIsMaximum(front, metric);
      var i :| 0 <= i < |front| && front[i].measurement.values[metric] == Peak(front, metric);
      assert samples[i] == front[i];
      forall k | 0 <= k < |samples| ensures samples[k].measurement.values[metric] <= Peak(samples, metric) {
        assert k < |front| ==> samples[k] == front[k];
      }
    }
    assert samples[|samples| - 1].measurement.values[metric] <= Peak(samples, metric);
  }

  /** Of a recorded chain every metric has a peak, and it is the maximum of its values. */
  lemma PeaksAreMaxima(samples: seq<Sample>, plan: Plan, metric: Metric)
    requires Chain(samples, plan) && samples != []
    ensures metric in Peaks(samples)
    ensures forall i :: 0 <= i < |samples| ==>
              metric in samples[i].measurement.values && samples[i].measurement.values[metric] <= Peaks(samples)[metric]
    ensures exists i :: 0 <= i < |samples| && samples[i].measurement.values[metric] == Peaks(samples)[metric]
  {
    forall i | 0 <= i < |samples| ensures metric in samples[i].measurement.values {
      assert Measurable(samples[i].measurement);
    }
    hide Chain, Measurable;
    PeakIsMaximum(samples, metric);
  }

  /** The reconnects are a sum: those of two stretches add up, and a single sample counts its own. */
  lemma {:induction false} ReconnectsAdd(a: seq<Sample>, b: seq<Sample>)
    ensures Reconnects(a + b) == Reconnects(a) + Reconnects(b)
    ensures |b| == 1 ==> Reconnects(b) == b[0].measurement.reconnects
  {
    if b == [] {
      assert a + b == a;
    } else {
      var front := b[..|b| - 1];
      ReconnectsAdd(a, front);
      assert (a + b)[..|a + b| - 1] == a + front;
      assert |b| == 1 ==> front == [];
    }
  }

  /** Whole seconds between two increasing times. */
  function Seconds(from: int, to: int): int
    requires from <= to
  {
    (to - from) / TICKS
  }

  ghost predicate AllDifferent(samples: seq<Sample>) {
    forall i, j :: 0 <= i < j < |samples| ==>
      samples[i].measurement.browser.sha256 != samples[j].measurement.browser.sha256
      && samples[i].measurement.ordinary.sha256 != samples[j].measurement.ordinary.sha256
  }

  ghost predicate OneProbe(samples: seq<Sample>) {
    forall i :: 0 <= i < |samples| ==>
      && samples[i].probe.Some? && samples[i].probe == samples[0].probe
      && samples[i].measurement.marker == samples[0].measurement.marker
  }

  function Window(samples: seq<Sample>): int
    requires samples != [] && samples[0].measurement.at <= samples[|samples| - 1].measurement.at
  {
    Seconds(samples[0].measurement.at, samples[|samples| - 1].measurement.at)
  }

  /** The planned duration was covered, densely enough, by distinct samples of one trusted probe. */
  ghost predicate Sealable(samples: seq<Sample>, plan: Plan)
    requires plan.interval > 0
  {
    && samples != [] && samples[0].measurement.at <= samples[|samples| - 1].measurement.at
    && Window(samples) >= plan.duration && |samples| >= Window(samples) / plan.interval + 1
    && OneProbe(samples) && AllDifferent(samples)
  }

  function Peaks(samples: seq<Sample>): map<Metric, real> {
    map metric: Metric | samples != [] && forall i :: 0 <= i < |samples| ==> metric in samples[i].measurement.values
      :: Peak(samples, metric)
  }

  function Derive(samples: seq<Sample>, facts: map<FactKind, Fact>): Evidence
    requires samples != [] && samples[0].measurement.at <= samples[|samples| - 1].measurement.at
  {
    Evidence(samples[0].measurement.at, samples[|samples| - 1].measurement.at, Window(samples), |samples|,
             Peaks(samples), Reconnects(samples), facts, samples)
  }

  // ----- the facts beside the samples -----

  const KINDS := [SeatInventory, WorkloadEvents, FaultEvents, OrdinaryJudge, Shutdown]

  function Place(kind: FactKind): (i: int)
    ensures 0 <= i < |KINDS| && KINDS[i] == kind
  {
    match kind
    case SeatInventory => 0
    case WorkloadEvents => 1
    case FaultEvents => 2
    case OrdinaryJudge => 3
    case Shutdown => 4
  }

  /** Seconds after the last sample by which a fact must be observed. */
  function Deadline(kind: FactKind): int {
    if kind.SeatInventory? || kind.FaultEvents? then 300 else 2700
  }

  predicate Timely(kind: FactKind, fact: Fact, started: int, ended: int) {
    fact.sound && fact.trusted && fact.at >= started && 0 <= fact.at - ended <= Deadline(kind) * TICKS
  }

  /** All five are there, of the right form, by trusted probes, in time; the ordinary judge stayed clean. */
  ghost predicate FactsPass(facts: map<FactKind, Fact>, started: int, ended: int) {
    && (forall kind: FactKind :: kind in facts && Timely(kind, facts[kind], started, ended))
    && facts[OrdinaryJudge].clean
  }

  /** The planned restart happened once, recovered once, and both accounts of it agree. */
  predicate RestartsAgree(facts: map<FactKind, Fact>)
    requires SeatInventory in facts && FaultEvents in facts
  {
    var seat, fault := facts[SeatInventory], facts[FaultEvents];
    seat.restarts == 1 && seat.recoveries == 1 && fault.restarts == seat.restarts && fault.recoveries == seat.recoveries
  }

  /** The facts pass exactly when all five are sound, by trusted probes, not before the samples, and late by
      at most five minutes - seat inventory and faults - or three quarters of an hour, and the ordinary judge's
      is clean. */
  lemma FactsPassExactly(facts: map<FactKind, Fact>, started: int, ended: int)
    ensures FactsPass(facts, started, ended)
            <==> && (forall kind: FactKind :: kind in facts && facts[kind].sound && facts[kind].trusted
                       && started <= facts[kind].at && ended <= facts[kind].at <= ended + 2700000000)
                 && facts[SeatInventory].at <= ended + 300000000 && facts[FaultEvents].at <= ended + 300000000
                 && facts[OrdinaryJudge].clean
  {
    if FactsPass(facts, started, ended) {
      assert Timely(SeatInventory, facts[SeatInventory], started, ended);
      assert Timely(FaultEvents, facts[FaultEvents], started, ended);
    }
  }

  function Total(xs: seq<int>): int {
    if xs == [] then 0 else xs[0] + Total(xs[1..])
  }

  lemma {:induction false} ReconnectsTotal(samples: seq<Sample>)
    ensures Reconnects(samples)
            == Total(seq(|samples|, i requires 0 <= i < |samples| => samples[i].measurement.reconnects))
  {
    if samples != [] {
      var rest := samples[1..];
      ReconnectsTotal(rest);
      ReconnectsAdd([samples[0]], rest);
      assert [samples[0]] + rest == samples;
      assert seq(|samples|, i requires 0 <= i < |samples| => samples[i].measurement.reconnects)[1..]
             == seq(|rest|, i requires 0 <= i < |rest| => rest[i].measurement.reconnects);
    }
  }

  /** Every recorded sample is in range: percentages up to 100, sizes and latencies positive, the slower
      latency not below the faster, and a healthy ordinary judge seen within a minute. */
  lemma SamplesInRange(samples: seq<Sample>, plan: Plan, i: nat)
    requires Chain(samples, plan) && i < |samples|
    ensures forall metric: Metric :: metric in samples[i].measurement.values
    ensures var m := samples[i].measurement;
            && 0.0 <= m.values[HostCpu] <= 100.0 && 0.0 <= m.values[HostMemory] <= 100.0
            && 0.0 <= m.values[PacketLoss] <= 100.0 && m.values[ContainerMemory] > 0.0 && m.values[Egress] >= 0.0
            && m.values[Rtt] > 0.0 && 0.0 < m.values[KeyToFrameP50] <= m.values[KeyToFrameP95]
            && m.healthy && m.ordinaryAt - 60000000 <= m.at <= m.ordinaryAt + 60000000
            && m.browser.sequence >= 1 && m.ordinary.sequence >= 1 && m.reconnects >= 0
  {
    assert Measurable(samples[i].measurement);
    forall metric: Metric ensures metric in samples[i].measurement.values {
      match metric
      case HostCpu =>
      case HostMemory =>
      case ContainerMemory =>
      case Egress =>
      case Rtt =>
      case PacketLoss =>
      case KeyToFrameP50 =>
      case KeyToFrameP95 =>
    }
  }

  /** What the evidence says of the samples: their number, first and last time, whole seconds between, the
      sum of all reconnects, and for every metric its largest value. */
  lemma EvidenceReads(samples: seq<Sample>, plan: Plan, facts: map<FactKind, Fact>, metric: Metric)
    requires Chain(samples, plan) && samples != []
    requires samples[0].measurement.at <= samples[|samples| - 1].measurement.at
    ensures var e := Derive(samples, facts);
            && e.count == |samples| && e.series == samples && e.facts == facts
            && e.startedAt == samples[0].measurement.at && e.endedAt == samples[|samples| - 1].measurement.at
            && e.duration * 1000000 <= e.endedAt - e.startedAt < (e.duration + 1) * 1000000
            && e.reconnects == Total(seq(|samples|, i requires 0 <= i < |samples| => samples[i].measurement.reconnects))
            && metric in e.peaks
            && (forall i :: 0 <= i < |samples| ==>
                  metric in samples[i].measurement.values && samples[i].measurement.values[metric] <= e.peaks[metric])
            && exists i :: 0 <= i < |samples| && samples[i].measurement.values[metric] == e.peaks[metric]
  {
    PeaksAreMaxima(samples, plan, metric);
    ReconnectsTotal(samples);
    hide Chain, Peaks, Reconnects, Total;
  }

  /** A sealed window of D seconds with n samples at interval I has D < n * I. */
  lemma SealedIsDense(samples: seq<Sample>, plan: Plan)
    requires plan.interval > 0 && Sealable(samples, plan)
    ensures Window(samples) < |samples| * plan.interval
  {
    Dense(Window(samples), plan.interval, |samples|);
  }

  /** A sealed chain spans the planned duration, by the clock; all its samples are by the probe the session
      was frozen with, under one marker; and no telemetry of either kind occurs twice. */
  lemma SealedCovers(samples: seq<Sample>, plan: Plan)
    requires plan.interval > 0 && Chain(samples, plan) && Sealable(samples, plan)
    ensures samples != []
    ensures samples[|samples| - 1].measurement.at - samples[0].measurement.at >= plan.duration * 1000000
    ensures forall i :: 0 <= i < |samples| ==>
              samples[i].probe == Some(plan.probe) && samples[i].measurement.marker == samples[0].measurement.marker
    ensures forall i, j :: 0 <= i < |samples| && 0 <= j < |samples| && i != j ==>
              && samples[i].measurement.browser.sha256 != samples[j].measurement.browser.sha256
              && samples[i].measurement.ordinary.sha256 != samples[j].measurement.ordinary.sha256
  {
    hide Measurable, Follows;
    assert Window(samples) * TICKS <= samples[|samples| - 1].measurement.at - samples[0].measurement.at;
    forall i, j | 0 <= i < |samples| && 0 <= j < |samples| && i != j
      ensures && samples[i].measurement.browser.sha256 != samples[j].measurement.browser.sha256
              && samples[i].measurement.ordinary.sha256 != samples[j].measurement.ordinary.sha256
    {
      var a, b := if i < j then i else j, if i < j then j else i;
      assert a < b && samples[a].measurement.browser.sha256 != samples[b].measurement.browser.sha256;
    }
  }

  lemma Dense(d: int, interval: int, n: int)
    requires interval > 0 && n >= d / interval + 1
    ensures d < n * interval
  {
    var q := d / interval;
    assert d == q * interval + d % interval;
    assert n == (q + 1) + (n - q - 1);
    Product(n, q + 1, interval);
    assert (q + 1) * interval == q * interval + interval;
  }

  lemma Product(a: int, b: int, c: int)
    requires a >= b && c > 0
    ensures a * c >= b * c
  {}

  class Session {
    const plan: Plan
    var samples: seq<Sample>
    var series: Option<seq<Sample>>    // raw/sample_series.json
    var evidence: Option<Evidence>     // capacity-evidence.json
    var fuel: int                      // files this attempt may still write

    ghost predicate Valid()
      reads this
    {
      && plan.interval > 0 && Chain(samples, plan)
      && (series.Some? ==> Sealable(series.value, plan) && series.value <= samples)
      && (evidence.Some? ==> series.Some? && evidence == Some(Derive(series.value, evidence.value.facts)))
    }

    constructor (plan: Plan)
      requires plan.interval > 0
      ensures Valid() && this.plan == plan && samples == [] && series.None? && evidence.None?
    {
      this.plan, samples, series, evidence, fuel := plan, [], None, None, 0;
    }

    method RecordSample(m: Measurement, probe: Option<Digest>) returns (ok: bool)
      requires Valid()
      modifies this`samples
      ensures Valid()
      ensures ok <==> evidence.None? && Accepts(old(samples), plan, m, probe)
      ensures samples == if ok then old(samples) + [Sample(|old(samples)| + 1, m, probe)] else old(samples)
    {
      hide Measurable;
      if evidence.Some? || (probe.Some? && probe.value != plan.probe) || !Measurable(m) {
        return false;
      }
      if samples != [] {
        var previous := samples[|samples| - 1].measurement;
        var delta := m.at - previous.at;
        if delta <= 0 || delta > (plan.interval + 2) * TICKS {
          return false;
        }
        if m.browser.sequence <= previous.browser.sequence || m.browser.sha256 == previous.browser.sha256 {
          return false;
        }
        if m.ordinary.sequence <= previous.ordinary.sequence || m.ordinary.sha256 == previous.ordinary.sha256 {
          return false;
        }
        if m.pm2 != previous.pm2 {
          return false;
        }
      } else if m.at < plan.createdAt {
        return false;
      }
      samples := samples + [Sample(|samples| + 1, m, probe)];
      return true;
    }

    /** Whether the samples may be sealed, checked in the collector's order. */
    method CheckSamples() returns (ok: bool)
      requires Valid()
      ensures ok == Sealable(samples, plan)
    {
      if samples == [] {
        return false;
      }
      if |samples| > 1 {
        ChainOrder(samples, plan, 0, |samples| - 1);
      }
      hide Chain;
      var duration := Window(samples);
      if duration < plan.duration || |samples| < duration / plan.interval + 1 {
        return false;
      }
      ok := CheckSeries();
    }

    /** One trusted probe and one marker, and no telemetry twice. */
    method CheckSeries() returns (ok: bool)
      requires samples != []
      ensures ok == (OneProbe(samples) && AllDifferent(samples))
    {
      var browser, ordinary: set<Digest> := {}, {};
      var i := 0;
      while i < |samples|
        invariant 0 <= i <= |samples| && OneProbe(samples[..i]) && AllDifferent(samples[..i])
        invariant forall d :: d in browser <==> exists k :: 0 <= k < i && samples[k].measurement.browser.sha256 == d
        invariant forall d :: d in ordinary <==> exists k :: 0 <= k < i && samples[k].measurement.ordinary.sha256 == d
      {
        var m := samples[i].measurement;
        if samples[i].probe.None? || samples[i].probe != samples[0].probe || m.marker != samples[0].measurement.marker {
          return false;
        }
        if m.browser.sha256 in browser {
          return false;
        }
        if m.ordinary.sha256 in ordinary {
          return false;
        }
        browser, ordinary := browser + {m.browser.sha256}, ordinary + {m.ordinary.sha256};
        i := i + 1;
      }
      assert samples[..|samples|] == samples;
      return true;
    }

    /** The fact files, one kind after the other. */
    method CheckFacts(facts: map<FactKind, Fact>) returns (ok: bool)
      requires Valid() && samples != []
      ensures ok <==> FactsPass(facts, samples[0].measurement.at, samples[|samples| - 1].measurement.at)
    {
      hide Chain, Timely, Place;
      var started, ended := samples[0].measurement.at, samples[|samples| - 1].measurement.at;
      var i := 0;
      while i < |KINDS|
        invariant 0 <= i <= |KINDS|
        invariant forall j :: 0 <= j < i ==> KINDS[j] in facts && Timely(KINDS[j], facts[KINDS[j]], started, ended)
      {
        if KINDS[i] !in facts || !Timely(KINDS[i], facts[KINDS[i]], started, ended) {
          return false;
        }
        i := i + 1;
      }
      forall kind: FactKind ensures kind in facts && Timely(kind, facts[kind], started, ended) {
        assert KINDS[Place(kind)] == kind;
      }
      return facts[OrdinaryJudge].clean;
    }

    /** Series first, then the evidence; an existing file must say the same.  The restarts are compared
        between the two.  Dying between the writes changes nothing a later attempt would write.
        `accepted` is the answer of the evidence verifier. */
    method Finalize(facts: map<FactKind, Fact>, accepted: bool) returns (r: Outcome)
      requires Valid()
      modifies this`series, this`evidence, this`fuel
      ensures Valid() && (old(series).Some? ==> series == old(series))
      ensures old(evidence).Some? ==> evidence == old(evidence)
      ensures r.Sealed? ==> evidence == Some(r.evidence)
      ensures old(evidence).Some? ==> (r.Sealed? <==> accepted)
      ensures r.Sealed? && old(evidence).None? ==>
                && Sealable(samples, plan) && series == Some(samples) && r.evidence == Derive(samples, facts)
                && FactsPass(facts, r.evidence.startedAt, r.evidence.endedAt) && RestartsAgree(facts)
                && facts[SeatInventory].restarts == facts[SeatInventory].recoveries == 1
                && facts[FaultEvents].restarts == facts[FaultEvents].recoveries == 1
      ensures !r.Sealed? ==> evidence == old(evidence)
      ensures series == old(series) || series == Some(samples)
      ensures old(evidence).None? && old(fuel) >= 2 && accepted && Sealable(samples, plan)
              && FactsPass(facts, samples[0].measurement.at, samples[|samples| - 1].measurement.at)
              && RestartsAgree(facts) ==>
                (r.Sealed? <==> old(series).None? || old(series) == Some(samples))
    {
      hide Chain, OneProbe, AllDifferent, Peaks;
      if evidence.Some? {
        return if accepted then Sealed(evidence.value) else Refused;
      }
      var ok := CheckSamples();
      if !ok {
        return Refused;
      }
      ok := CheckFacts(facts);
      if !ok {
        return Refused;
      }
      if series.None? {
        if fuel <= 0 { return Died; }
        fuel := fuel - 1;
        series := Some(samples);
      } else if series.value != samples {
        return Refused;
      }
      if !RestartsAgree(facts) || !accepted {
        return Refused;
      }
      if fuel <= 0 { return Died; }
      fuel := fuel - 1;
      evidence := Some(Derive(samples, facts));
      return Sealed(evidence.value);
    }
  }

  /** However often sealing dies, a last attempt on the same samples and facts yields the evidence that
      an undisturbed first one would have. */
  method SealAfterCrashes(session: Session, facts: map<FactKind, Fact>, fuels: seq<int>) returns (r: Outcome)
    requires session.Valid() && session.series.None? && session.evidence.None?
    requires Sealable(session.samples, session.plan)
    requires var samples := session.samples;
             FactsPass(facts, samples[0].measurement.at, samples[|samples| - 1].measurement.at) && RestartsAgree(facts)
    modifies session
    ensures r.Sealed? && session.samples == old(session.samples) && r.evidence == Derive(old(session.samples), facts)
    ensures session.evidence == Some(r.evidence)
  {
    hide OneProbe, AllDifferent, Chain, Derive, Window, Timely, RestartsAgree;
    var i := 0;
    while i < |fuels|
      invariant session.Valid() && session.samples == old(session.samples) && Sealable(session.samples, session.plan)
      invariant session.series.None? || session.series == Some(session.samples)
      invariant session.evidence.None? || session.evidence == Some(Derive(session.samples, facts))
    {
      session.fuel := fuels[i];
      var _ := session.Finalize(facts, true);
      i := i + 1;
    }
    session.fuel := 2;
    r := session.Finalize(facts, true);
  }
}
