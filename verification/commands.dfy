/**
 * The two pieces of command handling with behaviour of their own: the
 * user-facing error report of `handle_command_error`, and the order in which
 * the logs command delivers its chunks.
 */
module Commands {
  import opened Wrappers

  /** The prefix the error report starts with ("❌" is U+274C). */
  const ErrorMarker: string := "\U{274C} "

  const FailedPrefix: string := "Failed to execute "

  /** How a message reaches the user. */
  datatype Route = InitialResponse | Followup | ChannelMessage

  datatype Message = Message(route: Route, text: string)

  /** The line the handler logs for a failed command. */
  function ErrorLine(command: string, error: string): string
  {
    FailedPrefix + command + ": " + error
  }

  /**
   * The report for a failed command: the logged line behind the error marker,
   * sent as the interaction's first response while it has none, else as a
   * followup.
   */
  function HandleCommandError(responseDone: bool, command: string, error: string): (m: Message)
    ensures m.route == (if responseDone then Followup else InitialResponse)
    ensures m.text == ErrorMarker + ErrorLine(command, error)
    ensures ParseCommandError(command, m.text) == Some(error)
  {
    var text := ErrorMarker + ErrorLine(command, error);
    var prefix := ErrorMarker + FailedPrefix + command + ": ";
    assert text == prefix + error;
    assert prefix <= text && text[|prefix|..] == error;
    Message(if responseDone then Followup else InitialResponse, text)
  }

  /**
   * Recovers the error from a report about `command`: the inverse of the report
   * text, `None` for text that is not such a report.
   */
  function ParseCommandError(command: string, text: string): (error: Option<string>)
    ensures error.Some? ==> text == ErrorMarker + ErrorLine(command, error.value)
  {
    var prefix := ErrorMarker + FailedPrefix + command + ": ";
    if prefix <= text then
      assert text == prefix + text[|prefix|..];
      Some(text[|prefix|..])
    else
      None
  }

  /** The chunks after the first, each sent to the channel, in order. */
  function ChannelSends(chunks: seq<string>): (ms: seq<Message>)
    ensures |ms| == |chunks|
    ensures forall i :: 0 <= i < |ms| ==> ms[i] == Message(ChannelMessage, chunks[i])
    decreases |chunks|
  {
    if |chunks| == 0 then [] else [Message(ChannelMessage, chunks[0])] + ChannelSends(chunks[1..])
  }

  /**
   * The sends of the logs command: every chunk exactly once and in list order,
   * the first as the followup to the deferred response and the rest to the
   * channel; nothing for an empty list.
   */
  function DeliverLogs(chunks: seq<string>): (ms: seq<Message>)
    ensures |ms| == |chunks|
    ensures forall i :: 0 <= i < |ms| ==> ms[i].text == chunks[i]
    ensures forall i :: 0 <= i < |ms| ==> ms[i].route == (if i == 0 then Followup else ChannelMessage)
  {
    if |chunks| == 0 then [] else [Message(Followup, chunks[0])] + ChannelSends(chunks[1..])
  }
}
