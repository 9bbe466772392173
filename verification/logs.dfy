/**
 * `get_container_logs` around the chunking loop: the outcome of fetching a
 * container's logs becomes the list of messages the logs command delivers.
 * Fetching, UTF-8 decoding and the timestamp reformatting happen before this
 * point; the formatted lines arrive as opaque input.
 */
module Logs {
  import opened Wrappers
  import opened Text
  import opened Chunker

  /**
   * The outcome of fetching and formatting a container's log tail: the formatted
   * lines (none when the daemon returned no text), an unknown container, or any
   * other failure with its message.
   */
  datatype LogFetch = Fetched(lines: seq<string>) | NotFound | FetchFailed(reason: string)

  /** What a part header says before the part number ("📜" is U+1F4DC). */
  function HeaderLead(name: string): string
  {
    "\U{1F4DC} Logs for " + name + " (Part "
  }

  /** The header of part `part` of a container's logs. */
  function LogHeader(name: string, part: nat): (h: string)
    ensures HeaderLead(name) <= h
    ensures h[|h| - 2..] == "):"
    ensures HeaderPart(name, h) == Some(part)
  {
    var digits := NatToString(part);
    var h := HeaderLead(name) + digits + "):";
    assert h[|HeaderLead(name)|..|h| - 2] == digits;
    h
  }

  /**
   * The part number a header of `name`'s logs states: the decimal number between
   * the lead and the closing "):", or `None` when `h` is not shaped like a header.
   */
  function HeaderPart(name: string, h: string): (part: Option<nat>)
  {
    var lead := HeaderLead(name);
    if lead <= h && |h| >= |lead| + 3 && h[|h| - 2..] == "):" then
      var digits := h[|lead|..|h| - 2];
      if forall i :: 0 <= i < |digits| ==> '0' <= digits[i] <= '9' then
        assert DecimalValue(digits) >= 0 by { DecimalValueNonNegative(digits); }
        Some(DecimalValue(digits))
      else None
    else None
  }

  /** Headers of different parts of the same container's logs differ. */
  lemma LogHeaderInjective(name: string, p: nat, q: nat)
    requires LogHeader(name, p) == LogHeader(name, q)
    ensures p == q
  {
  }

  function NoLogsMessage(name: string): string
  {
    "No logs found for container '" + name + "'"
  }

  function NotFoundMessage(name: string): string
  {
    "Container '" + name + "' not found"
  }

  const FetchFailedPrefix: string := "Failed to get container logs: "

  /**
   * The messages for one logs request: never empty; a single explanatory message
   * when the container is unknown, the fetch failed or there are no lines; and
   * otherwise one fenced message per chunk, the i-th opened by the header of
   * Part i + 1, whose content lines reproduce the input lines in order.
   */
  function ContainerLogs(name: string, fetch: LogFetch): (msgs: seq<string>)
    ensures |msgs| >= 1
    ensures fetch.NotFound? ==> msgs == [NotFoundMessage(name)]
    ensures fetch.FetchFailed? ==> msgs == [FetchFailedPrefix + fetch.reason]
    ensures fetch.Fetched? && fetch.lines == [] ==> msgs == [NoLogsMessage(name)]
    ensures fetch.Fetched? && fetch.lines != [] ==>
      var header := (n: nat) => LogHeader(name, n);
      exists cs ::
        && Flatten(cs) == fetch.lines
        && Framed(header, cs)
        && msgs == RenderChunks(header, cs)
    ensures fetch.Fetched? && fetch.lines != [] ==>
      forall i :: 0 <= i < |msgs| ==> OpenFence + LogHeader(name, i + 1) <= msgs[i]
  {
    match fetch
    case NotFound => [NotFoundMessage(name)]
    case FetchFailed(reason) => [FetchFailedPrefix + reason]
    case Fetched(lines) =>
      if |lines| == 0 then [NoLogsMessage(name)]
      else
        var header := (n: nat) => LogHeader(name, n);
        var cs := ChunkLines(header, lines);
        var msgs := RenderChunks(header, cs);
        assert forall i :: 0 <= i < |cs| ==> header(cs[i].part) == LogHeader(name, i + 1);
        msgs
  }
}
