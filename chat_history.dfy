/** The history text both chat variants put into their prompts: one `role: content` line per message, oldest first. */
module ChatHistory {
  import opened Text
  import opened ConversationSchema

  function HistoryLine(m: Message): string {
    m.role + ": " + m.content
  }

  function HistoryLines(messages: seq<Message>): (lines: seq<string>)
    ensures |lines| == |messages|
    ensures forall i :: 0 <= i < |messages| ==> lines[i] == HistoryLine(messages[i])
  {
    seq(|messages|, i requires 0 <= i < |messages| => HistoryLine(messages[i]))
  }

  /** `"\n".join(f"{msg.role}: {msg.content}" for msg in messages)`. */
  function HistoryString(messages: seq<Message>): string {
    Join("\n", HistoryLines(messages))
  }

  /** The history grows at its end: the newest message is the last line. */
  lemma HistoryStringAppend(messages: seq<Message>, m: Message)
    ensures HistoryString(messages + [m])
         == if messages == [] then HistoryLine(m) else HistoryString(messages) + "\n" + HistoryLine(m)
  {
    assert HistoryLines(messages + [m]) == HistoryLines(messages) + [HistoryLine(m)];
    if messages != [] {
      JoinSnoc("\n", HistoryLines(messages), HistoryLine(m));
    }
  }

  /** Every message of the conversation appears in the history text. */
  lemma HistoryMentionsEveryMessage(messages: seq<Message>, k: nat)
    requires k < |messages|
    ensures IsSubstring(HistoryLine(messages[k]), HistoryString(messages))
  {
    PartInJoin("\n", HistoryLines(messages), k);
  }
}
