# Saturn bot container monitoring, modelled in Dafny

This project models the container-monitoring core of the Saturn Discord bot.
Everything else in the bot is thin plumbing around the Docker SDK, Discord, boto3 and Prometheus.
The core has three parts:

- **Metric derivation and the threshold check** (`DockerManager.check_alerts`,
  `_calculate_cpu_percent`, `_calculate_memory_percent`). CPU percent comes from two cumulative counter
  readings. It is zero when the host counter did not advance. Memory percent is usage over limit.
  A container raises a CPU alert and/or a memory alert when a value is strictly above its threshold.
  A container whose stats cannot be read or derived is skipped. When nothing fires, one nominal line is
  reported.
- **The log chunker** (the loop in `get_container_logs`). It packs formatted log lines greedily into
  chunks. Each chunk is a fenced block that opens with a "Part N" header. A running size counter is kept
  against a budget of 1900. The model keeps two behaviours of the code as written:
  - The counter reserves 6 characters for the fences, but the fences add 8. A rendered chunk is therefore
    2 characters longer than its counter (`Chunker.RenderChunk`).
  - When the first line overflows a fresh chunk, Part 1 is sealed holding only its header.
- **The alert-monitor loop** (`SaturnBot._monitor_alerts`). It is modelled as a pure step function. The
  only state it carries between cycles is the cached alert channel. The channel is resolved lazily:
  the text channel named "alerts", else the first text channel. Once resolved, it is kept for good.
  A message goes out only when an alert line carries the "⚠️" warning marker. The loop sleeps 300 s after
  a completed cycle and 60 s after one that raised. The project also models the error report of
  `handle_command_error` and the order in which the logs command sends its chunks.

Modules: `Wrappers` (Option/Result), `Text` (join, substring, decimal rendering), `Metrics`, `Alerts`,
`Chunker`, `Logs`, `Monitor`, `Commands`.

External inputs are parameters:
- The Docker listing and stats come in as `Result<seq<Container>, string>`. A container's stats are
  `None` when fetching or reading them raised.
- The formatted log lines come in as `Logs.LogFetch`.
- The guild, and whether the channel's `send` raises, come in as `Monitor.CycleInput`.
- The `:.1f` number formatter is an abstract `fmt: real -> string`.
- Percentages are `real`. Counters and byte counts are `int`. Strings are sequences of Unicode scalar
  values, so their lengths are the code-point counts that Python's `len` gives.

Three behaviours of the code are kept as written:
- Memory percent has no guard for a zero limit. The `ZeroDivisionError` is caught by the per-container
  `except`, so the whole container is skipped, including a CPU alert it would have raised
  (`Metrics.Derive`, `Alerts.FailedContainerIsSkipped`).
- A rendered chunk can be up to 2 characters over the 1900 budget, because the counter reserves
  6 characters for 8 characters of fences (`Chunker.RenderChunk`).
- Channel resolution is retried on every cycle, forever; no number of failed resolutions stops the loop
  (`Monitor.Run`, `Monitor.MonitorAlerts`).

## Model

| member | source | states |
|---|---|---|
| Metrics.CpuCount | saturn_bot/src/tools/docker_manager.py:170 | The CPU count is `online_cpus` when that key is present. Otherwise it is the length of `percpu_usage`. Otherwise it is 1, the length of the default list. |
| Metrics.CpuPercent | saturn_bot/src/tools/docker_manager.py:164-174 | When the system delta is positive, percent × system delta = CPU delta × CPU count × 100. Otherwise the result is exactly 0, whatever the CPU delta is. It is non-negative when the CPU delta and count are. |
| Metrics.CpuPercentAtMostAllCpus | saturn_bot/src/tools/docker_manager.py:166-174 | When the container's CPU time did not outgrow the host's, the percentage is at most 100 per CPU. |
| Metrics.MemoryPercent | saturn_bot/src/tools/docker_manager.py:176-180 | Undefined (the division raises) exactly when the limit is 0. Otherwise percent × limit = usage × 100, so 50 of 100 gives 50. |
| Metrics.MemoryPercentWithinLimit | saturn_bot/src/tools/docker_manager.py:176-180 | Usage between 0 and a positive limit gives a percentage between 0 and 100. |
| Metrics.Derive | saturn_bot/src/tools/docker_manager.py:149-150 | A container's metrics exist exactly when its memory limit is non-zero. They are then its CPU and memory percentages. |
| Alerts.Judge | saturn_bot/src/tools/docker_manager.py:153-156 | There is a CPU alert iff CPU > threshold and a memory alert iff memory > threshold; the comparison is strict. Nothing else is reported. There are at most two alerts, and CPU comes before memory. |
| Alerts.ContainerAlerts | saturn_bot/src/tools/docker_manager.py:144-158 | A container whose stats fail or whose limit is zero contributes nothing. Otherwise it contributes the alerts for its CPU and memory percentages. All of them name the container. |
| Alerts.Evaluate | saturn_bot/src/tools/docker_manager.py:143-158 | A listing of n containers yields at most 2n alerts. |
| Alerts.EvaluateAppend | saturn_bot/src/tools/docker_manager.py:143-156 | Evaluation respects listing order: evaluating xs + ys gives xs's alerts followed by ys's. |
| Alerts.EvaluateMembership | saturn_bot/src/tools/docker_manager.py:143-156 | An alert is reported iff some listed container raises it. |
| Alerts.FailedContainerIsSkipped | saturn_bot/src/tools/docker_manager.py:144-158 | A container whose stats fail, or whose limit is zero, changes nothing. The rest of the listing is evaluated as if it were absent. |
| Alerts.RenderAlert | saturn_bot/src/tools/docker_manager.py:154-156 | Every alert line starts with the "⚠️" warning marker. |
| Alerts.NominalHasNoWarning | saturn_bot/src/tools/docker_manager.py:160 | The nominal "✅" line does not contain the warning marker. |
| Alerts.CheckAlerts | saturn_bot/src/tools/docker_manager.py:137-162 | A failed listing becomes "Failed to check alerts: …". Otherwise the result is never empty. It is the single nominal line iff no alert fired. It contains the warning marker iff an alert fired. Otherwise it is one rendered line per alert, in order. |
| Chunker.PushStep | saturn_bot/src/tools/docker_manager.py:112-124 | One loop iteration keeps the chunk list framed. It appends exactly the pushed line to the concatenated content. |
| Chunker.Push | saturn_bot/src/tools/docker_manager.py:114-124 | The open chunk is sealed iff the line would take the counter over 1900. Either way the line ends the open chunk. The counter grows by the line's cost, from the fresh size of the next part after a seal. |
| Chunker.Pack | saturn_bot/src/tools/docker_manager.py:112-124 | Sealed chunks are never changed again, and at most one chunk is sealed per line. |
| Chunker.PackStep | saturn_bot/src/tools/docker_manager.py:112-124 | The whole loop keeps the chunk list framed. It appends the input lines, in order, to the content. |
| Chunker.ChunkLines | saturn_bot/src/tools/docker_manager.py:107-128 | The chunks' content lines, concatenated in order, are exactly the input, so no line is split, lost or reordered. There is at least one chunk, and chunk i is Part i + 1. Every chunk after the first holds a line. A chunk over the 1900 budget holds at most one line, the one that overflowed. Packing is greedy. Part 1 holds the first line only if it fits a fresh chunk; otherwise Part 1 is sealed empty. Empty input gives one Part 1 chunk with no lines. |
| Chunker.RenderChunk | saturn_bot/src/tools/docker_manager.py:110-128 | A rendered chunk opens with "```\n" and its header and closes with "\n```". Its length is the tracked size + 2. |
| Logs.LogHeader | saturn_bot/src/tools/docker_manager.py:109-120 | A part header opens with "📜 Logs for {name} (Part " and closes with "):". The part number it states reads back as the part. |
| Logs.HeaderPart | saturn_bot/src/tools/docker_manager.py:109-120 | Reads the part number back from a header of the container's logs; none for text not shaped like one. |
| Logs.LogHeaderInjective | saturn_bot/src/tools/docker_manager.py:109-120 | Headers of different parts of the same container's logs differ. |
| Text.NatToString | saturn_bot/src/tools/docker_manager.py:120 | The part number is rendered as decimal digits with no leading zero, and they read back as the number. |
| Logs.ContainerLogs | saturn_bot/src/tools/docker_manager.py:86-135 | The result is never empty. An unknown container, a failed fetch and an empty log each give a single message. Otherwise the result is one fenced message per chunk of a framed chunking whose content is the input lines. Message i opens with the Part i + 1 header. |
| Monitor.FirstNamed | saturn_bot/src/bot/saturn_bot.py:73 | The result is the first channel with the given name, or none iff no channel has that name. |
| Monitor.Resolve | saturn_bot/src/bot/saturn_bot.py:69-75 | An absent guild leaves the channel unresolved. Otherwise the result is the first channel named "alerts" if there is one, else the first text channel. A guild with no text channel makes the cycle raise. |
| Monitor.Step | saturn_bot/src/bot/saturn_bot.py:64-85 | A cached channel is kept as it is. With no channel, nothing is sent, and the cycle completes unless resolution raised for lack of text channels. A failed listing raises "Failed to check alerts: …". A message is sent iff a container crossed a threshold, and it is the alert lines joined with "\n". The cycle then raises iff the send raises. A cycle with a channel and nothing to send completes. Sleep is 300 s after a completed cycle and 60 s after one that raised. |
| Monitor.Run | saturn_bot/src/bot/saturn_bot.py:67-85 | There is one state per cycle input; no input ends the loop. Each cycle is the step taken from the channel the previous cycle left. Every cycle sleeps according to its outcome, and sends nothing while unresolved. |
| Monitor.MonitorAlerts | saturn_bot/src/bot/saturn_bot.py:64-85 | Starting with no channel, the first cycle resolves from its own guild. Until a cycle sees the guild, the channel stays unresolved, nothing is sent and each cycle sleeps 300 s. |
| Monitor.UnresolvedWhileGuildAbsent | saturn_bot/src/bot/saturn_bot.py:66-71 | From a cold start, every cycle up to the first one that sees the guild completes with no channel. |
| Monitor.CachedChannelIsKept | saturn_bot/src/bot/saturn_bot.py:69 | Starting from a cached channel, every later cycle keeps that very channel. |
| Monitor.ChannelCarriesOver | saturn_bot/src/bot/saturn_bot.py:66-69 | A channel resolved by one cycle is the channel of the next cycle. |
| Monitor.ResolvedChannelIsStable | saturn_bot/src/bot/saturn_bot.py:66-69 | Once a cycle has resolved the channel, no later cycle re-resolves or replaces it. |
| Monitor.WebContainerCycle | saturn_bot/src/bot/saturn_bot.py:77-82 | Example cycle: "web" at 92% CPU and 40% memory, with thresholds of 80%. The cycle sends exactly the one CPU warning line and sleeps 300 s. |
| Commands.HandleCommandError | saturn_bot/src/bot/saturn_bot.py:87-96 | The report is "❌ " followed by the logged "Failed to execute {command}: {error}" line. It goes as the first response while there is none, else as a followup. The error can be read back from the report. |
| Commands.ParseCommandError | saturn_bot/src/bot/saturn_bot.py:89-96 | This inverts the report text. Any error it recovers yields exactly that report. |
| Commands.ChannelSends | saturn_bot/src/bot/saturn_bot.py:188-189 | Each chunk after the first goes to the channel, in order. |
| Commands.DeliverLogs | saturn_bot/src/bot/saturn_bot.py:184-189 | Every chunk is sent exactly once, in list order. The first goes as a followup and the rest to the channel. An empty list sends nothing. |

## Left out

- Docker SDK calls are inputs, not operations: listing, stats fetch, start/stop and log fetch/decoding (saturn_bot/src/tools/docker_manager.py:16, 25, 49, 63-84, 89-90).
- Timestamp reformatting of log lines (saturn_bot/src/tools/docker_manager.py:97-105) depends on `datetime` parsing. Formatted lines are opaque input. An empty log text corresponds to an empty line list, because `splitlines` of non-empty text is never empty.
- The non-string container-name branch (`container.name[0].lstrip('/')`) is left out. Names are plain strings.
- `:.1f` float formatting and IEEE float semantics are not modelled: percentages are exact reals, and the formatter is an abstract parameter.
- The `.env` loading and `float()` parsing of the thresholds are left out. The thresholds are a parameter.
- `list_containers`, `start_container` and `stop_container` are presentation around SDK calls.
- Discord plumbing is not modelled: command registration and sync, intents, the other slash commands, the `print` logging, the real `asyncio.sleep` and task creation. The sleep is a returned duration. The loop is modelled over any finite sequence of cycles, since it never ends on its own.
- In the logs command, a send that raises partway through the chunks hands over to the error handler. That path is not modelled; `Commands.DeliverLogs` describes the sends when none fail.
- Commands.HandleCommandError: a failure of the error send itself is only logged by the source, so the model returns the message that is attempted.
- The AWS manager and the Prometheus metrics manager are not part of this model. They are thin wrappers over boto3 and HTTP.
