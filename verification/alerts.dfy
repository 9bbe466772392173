/**
 * The threshold loop of `check_alerts`: every listed container is judged
 * against the CPU and memory thresholds, and the firing alerts are rendered
 * as warning lines, or replaced by one "nominal" line when none fire.
 */
module Alerts {
  import opened Wrappers
  import opened Text
  import opened Metrics

  /** The warning marker that opens every alert line ("⚠️": U+26A0 U+FE0F). */
  const Warning: string := "\U{26A0}\U{FE0F}"

  /**
   * The single line reported when no alert fires ("✅" is U+2705). It is written as
   * two shorter literals: Dafny reasons about the characters of short literals
   * only, and `NominalHasNoWarning` needs them.
   */
  const Nominal: string := "\U{2705} All containers are" + " running within normal parameters"

  /** The prefix the source puts on the message of a failed check. */
  const CheckFailedPrefix: string := "Failed to check alerts: "

  /** The two thresholds, fixed for the lifetime of the process. */
  datatype Thresholds = Thresholds(cpu: real, memory: real)

  datatype Kind = Cpu | Memory

  /** One threshold violation: which container, which metric, the observed percentage. */
  datatype Alert = Alert(container: string, kind: Kind, value: real)

  /** A listed container; `stats` is `None` when fetching or reading its stats raised. */
  datatype Container = Container(name: string, stats: Option<RawStats>)

  /**
   * The alerts for one container's derived usage: a CPU alert exactly when CPU is
   * strictly above its threshold, a memory alert exactly when memory is, and CPU first.
   */
  function Judge(name: string, u: Usage, th: Thresholds): (r: seq<Alert>)
    ensures Alert(name, Cpu, u.cpu) in r <==> u.cpu > th.cpu
    ensures Alert(name, Memory, u.memory) in r <==> u.memory > th.memory
    ensures forall a :: a in r ==> a == Alert(name, Cpu, u.cpu) || a == Alert(name, Memory, u.memory)
    ensures |r| == (if u.cpu > th.cpu then 1 else 0) + (if u.memory > th.memory then 1 else 0)
    ensures |r| == 2 ==> r[0].kind == Cpu && r[1].kind == Memory
  {
    (if u.cpu > th.cpu then [Alert(name, Cpu, u.cpu)] else [])
    + (if u.memory > th.memory then [Alert(name, Memory, u.memory)] else [])
  }

  /**
   * The alerts one container contributes: none when its stats or their derivation
   * fail (the bare `except: continue`), otherwise the alerts for its derived usage.
   */
  function ContainerAlerts(c: Container, th: Thresholds): (r: seq<Alert>)
    ensures c.stats.None? || c.stats.value.memoryLimit == 0 ==> r == []
    ensures c.stats.Some? && c.stats.value.memoryLimit != 0 ==>
      r == Judge(c.name, Usage(CpuPercent(c.stats.value), MemoryPercent(c.stats.value).value), th)
    ensures forall a :: a in r ==> a.container == c.name
  {
    match c.stats
    case None => []
    case Some(s) =>
      match Derive(s)
      case None => []
      case Some(u) => Judge(c.name, u, th)
  }

  /** The alerts of every container, in listing order. */
  function Evaluate(cs: seq<Container>, th: Thresholds): (r: seq<Alert>)
    ensures |r| <= 2 * |cs|
    decreases |cs|
  {
    if |cs| == 0 then [] else ContainerAlerts(cs[0], th) + Evaluate(cs[1..], th)
  }

  /** Evaluation distributes over concatenation of listings: earlier containers' alerts come first. */
  lemma {:induction false} EvaluateAppend(xs: seq<Container>, ys: seq<Container>, th: Thresholds)
    ensures Evaluate(xs + ys, th) == Evaluate(xs, th) + Evaluate(ys, th)
    decreases |xs|
  {
    if |xs| == 0 {
      assert xs + ys == ys;
    } else {
      assert (xs + ys)[1..] == xs[1..] + ys;
      EvaluateAppend(xs[1..], ys, th);
    }
  }

  /** An alert is reported exactly when some listed container raises it. */
  lemma {:induction false} EvaluateMembership(cs: seq<Container>, th: Thresholds, a: Alert)
    ensures a in Evaluate(cs, th) <==> exists i :: 0 <= i < |cs| && a in ContainerAlerts(cs[i], th)
    decreases |cs|
  {
    if |cs| > 0 {
      EvaluateMembership(cs[1..], th, a);
      if a in Evaluate(cs[1..], th) {
        var j :| 0 <= j < |cs[1..]| && a in ContainerAlerts(cs[1..][j], th);
        assert a in ContainerAlerts(cs[j + 1], th);
      }
      if exists i :: 0 <= i < |cs| && a in ContainerAlerts(cs[i], th) {
        var i :| 0 <= i < |cs| && a in ContainerAlerts(cs[i], th);
        if i > 0 {
          assert a in ContainerAlerts(cs[1..][i - 1], th);
        }
      }
    }
  }

  /**
   * A container whose stats fail, or whose memory limit is zero, is skipped: the
   * rest of the listing is evaluated exactly as if it were absent.
   */
  lemma FailedContainerIsSkipped(xs: seq<Container>, c: Container, ys: seq<Container>, th: Thresholds)
    requires c.stats.None? || c.stats.value.memoryLimit == 0
    ensures Evaluate(xs + [c] + ys, th) == Evaluate(xs + ys, th)
  {
    EvaluateAppend(xs + [c], ys, th);
    EvaluateAppend(xs, [c], th);
    EvaluateAppend(xs, ys, th);
    EvaluateSingle(c, th);
  }

  lemma EvaluateSingle(c: Container, th: Thresholds)
    ensures Evaluate([c], th) == ContainerAlerts(c, th)
  {
  }

  /** The line for one alert; `fmt` renders a percentage (`:.1f` in the source). */
  function RenderAlert(a: Alert, fmt: real -> string): (line: string)
    ensures Warning <= line
  {
    match a.kind
    case Cpu => Warning + " High CPU usage in " + a.container + ": " + fmt(a.value) + "%"
    case Memory => Warning + " High memory usage in " + a.container + ": " + fmt(a.value) + "%"
  }

  function RenderAlerts(alerts: seq<Alert>, fmt: real -> string): (lines: seq<string>)
    ensures |lines| == |alerts|
    ensures forall i :: 0 <= i < |alerts| ==> lines[i] == RenderAlert(alerts[i], fmt)
  {
    seq(|alerts|, i requires 0 <= i < |alerts| => RenderAlert(alerts[i], fmt))
  }

  /** Python's `any(marker in line for line in lines)`. */
  predicate AnyContains(lines: seq<string>, marker: string)
  {
    exists i :: 0 <= i < |lines| && Contains(lines[i], marker)
  }

  /** The nominal line carries no warning marker. */
  lemma NominalHasNoWarning()
    ensures !Contains(Nominal, Warning)
  {
    assert forall i :: 0 <= i < |Nominal| ==> Nominal[i] != Warning[0];
    if Contains(Nominal, Warning) {
      ContainsFirstChar(Nominal, Warning);
    }
  }

  /**
   * `check_alerts`: a failed listing is reported with the source's prefix; otherwise
   * the result is never empty, is the single nominal line exactly when no alert
   * fired, and otherwise is one warning line per alert in evaluation order.
   */
  function CheckAlerts(listing: Result<seq<Container>, string>, th: Thresholds, fmt: real -> string)
    : (r: Result<seq<string>, string>)
    ensures r.Failure? <==> listing.Failure?
    ensures r.Failure? ==> r.error == CheckFailedPrefix + listing.error
    ensures r.Success? ==> |r.value| >= 1
    ensures r.Success? ==> (r.value == [Nominal] <==> Evaluate(listing.value, th) == [])
    ensures r.Success? ==> (AnyContains(r.value, Warning) <==> Evaluate(listing.value, th) != [])
    ensures r.Success? && Evaluate(listing.value, th) != [] ==>
      r.value == RenderAlerts(Evaluate(listing.value, th), fmt)
  {
    match listing
    case Failure(e) => Failure(CheckFailedPrefix + e)
    case Success(cs) =>
      var alerts := Evaluate(cs, th);
      if |alerts| == 0 then
        NominalHasNoWarning();
        Success([Nominal])
      else
        var lines := RenderAlerts(alerts, fmt);
        ContainsPrefix(Warning, lines[0][|Warning|..]);
        assert lines[0] == Warning + lines[0][|Warning|..];
        assert lines[0][0] != Nominal[0];
        Success(lines)
  }
}
