/**
 * One cycle of the background alert monitor (`_monitor_alerts`) as a pure step
 * function. The outside world of a cycle — the guild lookup, the container
 * listing with its stats, and whether the channel accepts the message — is an
 * input; the cached channel is the only state carried between cycles. The sleep
 * is returned as a duration in seconds instead of being performed.
 */
module Monitor {
  import opened Wrappers
  import opened Text
  import opened Alerts
  import Metrics

  /** Seconds slept after a cycle that completed. */
  const NormalSleep: nat := 300

  /** Seconds slept after a cycle that raised. */
  const BackoffSleep: nat := 60

  /** The name of the preferred alert channel. */
  const AlertsChannelName: string := "alerts"

  datatype Channel = Channel(id: nat, name: string)

  /** A guild as far as the monitor sees it: its text channels, in order. */
  datatype Guild = Guild(textChannels: seq<Channel>)

  /**
   * What the outside world supplies to one cycle: the guild (absent when it is not
   * cached yet), the container listing with each container's stats, and the
   * exception the channel raises on `send`, if any.
   */
  datatype CycleInput = CycleInput(
    guild: Option<Guild>,
    listing: Result<seq<Container>, string>,
    sendError: Option<string>)

  /** Why a cycle raised: no text channel to fall back on, a failed check, a failed send. */
  datatype Fault = NoTextChannels | CheckFailed(message: string) | SendFailed(message: string)

  datatype Outcome = Completed | Raised(fault: Fault)

  /** One message handed to a channel. */
  datatype Delivery = Delivery(channel: Channel, text: string)

  /**
   * The state after a cycle: the cached channel, how the cycle ended, the message
   * it sent (if any), and how long the loop then sleeps.
   */
  datatype MonitorState = MonitorState(
    channel: Option<Channel>,
    outcome: Outcome,
    sent: Option<Delivery>,
    sleep: nat)

  /** The first channel named `name`, as `discord.utils.get` returns it. */
  function FirstNamed(channels: seq<Channel>, name: string): (r: Option<Channel>)
    ensures r.None? <==> forall i :: 0 <= i < |channels| ==> channels[i].name != name
    ensures r.Some? ==> exists i ::
      && 0 <= i < |channels|
      && channels[i] == r.value
      && r.value.name == name
      && forall j :: 0 <= j < i ==> channels[j].name != name
    decreases |channels|
  {
    if |channels| == 0 then None
    else if channels[0].name == name then Some(channels[0])
    else
      var r := FirstNamed(channels[1..], name);
      if r.Some? then
        var i :| 0 <= i < |channels[1..]| && channels[1..][i] == r.value && r.value.name == name
          && forall j :: 0 <= j < i ==> channels[1..][j].name != name;
        assert channels[i + 1] == r.value;
        assert forall j :: 0 <= j < i + 1 ==> channels[j].name != name by {
          forall j | 0 < j < i + 1 ensures channels[j].name != name {
            assert channels[j] == channels[1..][j - 1];
          }
        }
        r
      else
        r
  }

  /**
   * Resolving the alert channel: unresolved when the guild is absent; otherwise the
   * first text channel named "alerts", else the first text channel; and a fault
   * (the source's index error) when the guild has no text channel at all.
   */
  function Resolve(guild: Option<Guild>): (r: Result<Option<Channel>, Fault>)
    ensures guild.None? ==> r == Success(None)
    ensures r.Failure? <==> guild.Some? && |guild.value.textChannels| == 0
    ensures r.Failure? ==> r.error == NoTextChannels
    ensures guild.Some? && r.Success? ==> r.value.Some? && r.value.value in guild.value.textChannels
    ensures guild.Some? && r.Success? && r.value.value.name != AlertsChannelName ==>
      r.value.value == guild.value.textChannels[0]
      && forall c :: c in guild.value.textChannels ==> c.name != AlertsChannelName
    ensures guild.Some? && r.Success? && r.value.value.name == AlertsChannelName ==>
      r.value == FirstNamed(guild.value.textChannels, AlertsChannelName)
  {
    match guild
    case None => Success(None)
    case Some(g) =>
      match FirstNamed(g.textChannels, AlertsChannelName)
      case Some(c) => Success(Some(c))
      case None =>
        if |g.textChannels| == 0 then Failure(NoTextChannels)
        else Success(Some(g.textChannels[0]))
  }

  /** The sleep that follows a cycle with this outcome. */
  function SleepAfter(outcome: Outcome): nat
  {
    if outcome.Completed? then NormalSleep else BackoffSleep
  }

  /**
   * One cycle. A cached channel is kept as it is; otherwise resolution is tried.
   * With no channel nothing is checked or sent. With a channel, the alerts are
   * checked and sent, joined by newlines, exactly when one carries the warning
   * marker — that is, exactly when some container crossed a threshold. The loop
   * sleeps 300 seconds after a completed cycle and 60 after one that raised.
   */
  function Step(cached: Option<Channel>, input: CycleInput, th: Thresholds, fmt: real -> string)
    : (st: MonitorState)
    ensures cached.Some? ==> st.channel == cached
    ensures cached.None? && Resolve(input.guild).Success? ==> st.channel == Resolve(input.guild).value
    ensures cached.None? && Resolve(input.guild).Failure? ==>
      st.channel.None? && st.outcome == Raised(NoTextChannels)
    ensures st.sleep == SleepAfter(st.outcome)
    ensures st.channel.None? ==> st.sent.None?
    ensures st.sent.Some? <==>
      st.channel.Some? && input.listing.Success? && Evaluate(input.listing.value, th) != []
    ensures st.sent.Some? ==>
      st.sent.value == Delivery(st.channel.value, Join("\n", RenderAlerts(Evaluate(input.listing.value, th), fmt)))
    ensures st.outcome.Raised? && st.channel.Some? ==>
      st.outcome.fault.CheckFailed? || st.outcome.fault.SendFailed?
    ensures st.outcome.Raised? && st.outcome.fault.SendFailed? ==> st.sent.Some?
    ensures st.channel.None? ==> (st.outcome.Completed? <==> cached.None? && input.guild.None?)
    ensures st.channel.Some? && input.listing.Failure? ==>
      st.outcome == Raised(CheckFailed(CheckFailedPrefix + input.listing.error))
    ensures st.sent.Some? ==>
      st.outcome == (if input.sendError.Some? then Raised(SendFailed(input.sendError.value)) else Completed)
    ensures st.channel.Some? && input.listing.Success? && st.sent.None? ==> st.outcome == Completed
  {
    var resolved: Result<Option<Channel>, Fault> := if cached.Some? then Success(cached) else Resolve(input.guild);
    match resolved
    case Failure(fault) => MonitorState(None, Raised(fault), None, BackoffSleep)
    case Success(None) => MonitorState(None, Completed, None, NormalSleep)
    case Success(Some(channel)) =>
      match CheckAlerts(input.listing, th, fmt)
      case Failure(e) => MonitorState(Some(channel), Raised(CheckFailed(e)), None, BackoffSleep)
      case Success(lines) =>
        if AnyContains(lines, Warning) then
          var d := Delivery(channel, Join("\n", lines));
          match input.sendError
          case Some(e) => MonitorState(Some(channel), Raised(SendFailed(e)), Some(d), BackoffSleep)
          case None => MonitorState(Some(channel), Completed, Some(d), NormalSleep)
        else
          MonitorState(Some(channel), Completed, None, NormalSleep)
  }

  /**
   * The loop over a finite prefix of its cycles, from a given cached channel: one
   * state per cycle input. No input ends the loop early.
   */
  function Run(cached: Option<Channel>, inputs: seq<CycleInput>, th: Thresholds, fmt: real -> string)
    : (trace: seq<MonitorState>)
    ensures |trace| == |inputs|
    ensures forall k :: 0 <= k < |trace| ==> trace[k].sleep == SleepAfter(trace[k].outcome)
    ensures forall k :: 0 <= k < |trace| && trace[k].channel.None? ==> trace[k].sent.None?
    ensures |trace| > 0 ==> trace[0] == Step(cached, inputs[0], th, fmt)
    ensures forall k :: 0 < k < |trace| ==> trace[k] == Step(trace[k - 1].channel, inputs[k], th, fmt)
    decreases |inputs|
  {
    if |inputs| == 0 then []
    else
      var st := Step(cached, inputs[0], th, fmt);
      [st] + Run(st.channel, inputs[1..], th, fmt)
  }

  /**
   * The loop as `setup_hook` starts it, with no channel cached: the first cycle
   * resolves from its own guild, and until a cycle sees the guild present the
   * channel stays unresolved, nothing is sent and every cycle completes.
   */
  function MonitorAlerts(inputs: seq<CycleInput>, th: Thresholds, fmt: real -> string)
    : (trace: seq<MonitorState>)
    ensures |trace| == |inputs|
    ensures |trace| > 0 && Resolve(inputs[0].guild).Success? ==>
      trace[0].channel == Resolve(inputs[0].guild).value
    ensures |trace| > 0 && Resolve(inputs[0].guild).Failure? ==>
      trace[0].channel.None? && trace[0].outcome == Raised(NoTextChannels)
    ensures forall k :: 0 <= k < |trace| && GuildAbsentThrough(inputs, k) ==>
      trace[k].channel.None? && trace[k].sent.None? && trace[k].sleep == NormalSleep
  {
    var trace := Run(None, inputs, th, fmt);
    forall k | 0 <= k < |trace| && GuildAbsentThrough(inputs, k)
      ensures trace[k].channel.None? && trace[k].sent.None? && trace[k].sleep == NormalSleep
    {
      UnresolvedWhileGuildAbsent(inputs, th, fmt, k);
    }
    trace
  }

  /** No cycle up to and including `k` found the guild. */
  ghost predicate GuildAbsentThrough(inputs: seq<CycleInput>, k: nat)
    requires k < |inputs|
  {
    forall j :: 0 <= j <= k ==> inputs[j].guild.None?
  }

  /** From a cold start, every cycle before the guild appears completes without a channel or a send. */
  lemma {:induction false} UnresolvedWhileGuildAbsent(
    inputs: seq<CycleInput>, th: Thresholds, fmt: real -> string, k: nat)
    requires k < |inputs| && GuildAbsentThrough(inputs, k)
    ensures Run(None, inputs, th, fmt)[k].channel.None?
    ensures Run(None, inputs, th, fmt)[k].outcome == Completed
    decreases k
  {
    if k > 0 {
      assert GuildAbsentThrough(inputs, k - 1);
      UnresolvedWhileGuildAbsent(inputs, th, fmt, k - 1);
    }
  }

  /** Starting from a cached channel, every cycle keeps that very channel. */
  lemma {:induction false} CachedChannelIsKept(
    cached: Option<Channel>, inputs: seq<CycleInput>, th: Thresholds, fmt: real -> string)
    requires cached.Some?
    ensures forall k :: 0 <= k < |inputs| ==> Run(cached, inputs, th, fmt)[k].channel == cached
    decreases |inputs|
  {
    if |inputs| > 0 {
      CachedChannelIsKept(cached, inputs[1..], th, fmt);
    }
  }

  /** A channel cached after one cycle is the channel of the next. */
  lemma ChannelCarriesOver(
    cached: Option<Channel>, inputs: seq<CycleInput>, th: Thresholds, fmt: real -> string, k: nat)
    requires 0 < k < |inputs|
    requires Run(cached, inputs, th, fmt)[k - 1].channel.Some?
    ensures Run(cached, inputs, th, fmt)[k].channel == Run(cached, inputs, th, fmt)[k - 1].channel
  {
  }

  /** Once a cycle has resolved the channel, no later cycle re-resolves or replaces it. */
  lemma {:induction false} ResolvedChannelIsStable(
    cached: Option<Channel>, inputs: seq<CycleInput>, th: Thresholds, fmt: real -> string, i: nat, j: nat)
    requires i <= j < |inputs|
    requires Run(cached, inputs, th, fmt)[i].channel.Some?
    ensures Run(cached, inputs, th, fmt)[j].channel == Run(cached, inputs, th, fmt)[i].channel
    decreases j
  {
    if i < j {
      ResolvedChannelIsStable(cached, inputs, th, fmt, i, j - 1);
      ChannelCarriesOver(cached, inputs, th, fmt, j);
    }
  }

  /**
   * A worked cycle: container "web" used 92% of one CPU and 40% of its memory
   * against thresholds of 80%; with the channel cached, the cycle sends exactly
   * the one CPU warning line and sleeps the normal interval.
   */
  lemma WebContainerCycle(channel: Channel, fmt: real -> string)
    ensures
      var stats := Metrics.RawStats(
        Metrics.CpuCounters(1092, 10100), Metrics.CpuCounters(1000, 10000),
        Some(1), None, 40, 100);
      var input := CycleInput(None, Success([Container("web", Some(stats))]), None);
      var st := Step(Some(channel), input, Thresholds(80.0, 80.0), fmt);
      && st.sent == Some(Delivery(channel, RenderAlert(Alert("web", Cpu, 92.0), fmt)))
      && st.outcome == Completed
      && st.sleep == NormalSleep
  {
  }
}
