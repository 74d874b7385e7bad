/**
 * The chat screen: the message list with delete and edit-and-resend, the prompt with its
 * selected files, and the one-shot send of the message carried over from the landing page.
 */
module ChatInterface {
  import opened Wrappers
  import opened Text
  import opened Lists

  /** The chat hook's `status`. */
  datatype ChatStatus = Submitted | Streaming | Ready | Error

  /** A message of the conversation; only its id matters to the list operations. */
  datatype Message = Message(id: string, text: string)

  /** One call of `sendMessage({ text, files })`. */
  datatype Outgoing = Outgoing(text: string, files: Option<seq<File>>)

  /** `findIndex(m => m.id === id)`: the first message carrying `id`, or -1. */
  function IndexOfId(messages: seq<Message>, id: string): (i: int)
    ensures -1 <= i < |messages|
    ensures i >= 0 ==> messages[i].id == id && forall j :: 0 <= j < i ==> messages[j].id != id
    ensures i == -1 <==> forall j :: 0 <= j < |messages| ==> messages[j].id != id
  {
    if messages == [] then -1
    else if messages[0].id == id then 0
    else
      var k := IndexOfId(messages[1..], id);
      if k == -1 then -1 else k + 1
  }

  /**
   * The updater given to `setMessages` by delete and save-edit: keep the messages strictly
   * before the first one with `id`; an unknown id keeps them all.
   */
  function TruncateAt(messages: seq<Message>, id: string): (r: seq<Message>)
    ensures |r| <= |messages| && r == messages[..|r|]
    ensures forall j :: 0 <= j < |r| ==> r[j].id != id
    ensures |r| < |messages| ==> messages[|r|].id == id
    ensures (forall j :: 0 <= j < |messages| ==> messages[j].id != id) ==> r == messages
  {
    var i := IndexOfId(messages, id);
    if i == -1 then messages else messages[..i]
  }

  /** Truncating twice at the same id changes nothing more. */
  lemma TruncateIdempotent(messages: seq<Message>, id: string)
    ensures TruncateAt(TruncateAt(messages, id), id) == TruncateAt(messages, id)
  {
    var r := TruncateAt(messages, id);
    assert forall j :: 0 <= j < |r| ==> r[j].id != id;
  }

  /** Truncation is the longest prefix without `id`: anything longer would contain it. */
  lemma TruncateIsLongestPrefix(messages: seq<Message>, id: string, n: nat)
    requires |TruncateAt(messages, id)| < n <= |messages|
    ensures exists j :: 0 <= j < n && messages[..n][j].id == id
  {
    var k := |TruncateAt(messages, id)|;
    assert messages[..n][k].id == id;
  }

  /** `removeFile(index)`: every other file in order; no file left means no selection. */
  function RemoveFileAt(files: Option<seq<File>>, index: int): (r: Option<seq<File>>)
    ensures files.None? ==> r.None?
    ensures r.Some? ==> |r.value| > 0
    ensures files.Some? && 0 <= index < |files.value| && |files.value| > 1 ==> r == Some(files.value[..index] + files.value[index + 1..])
    ensures files.Some? && !(0 <= index < |files.value|) && |files.value| > 0 ==> r == files
    ensures files.Some? && |files.value| <= 1 && (|files.value| == 0 || 0 <= index < |files.value|) ==> r.None?
  {
    match files
    case None => None
    case Some(list) =>
      WithoutIndexSplices(list, index);
      var kept := WithoutIndex(list, index);
      if |kept| > 0 then Some(kept) else None
  }

  /** Whether a run of the initial-message effect sends: a non-blank message, not sent before, chat ready. */
  predicate InitialSendDue(alreadySent: bool, initialMessage: string, status: ChatStatus) {
    !alreadySent && Sendable(EffectRun(initialMessage, status))
  }

  /** The dependencies seen by one run of the initial-message effect. */
  datatype EffectRun = EffectRun(initialMessage: string, status: ChatStatus)

  /**
   * A run that would send if nothing had been sent yet: a message that is not all whitespace
   * (by `TrimEmptyIff`, one whose trim is non-empty) with the chat ready.
   */
  predicate Sendable(run: EffectRun) {
    !AllWhitespace(run.initialMessage) && run.status == Ready
  }

  /** How many sends a sequence of effect runs makes, starting from the `hasInitialMessageSent` flag `sent`. */
  function InitialSends(sent: bool, runs: seq<EffectRun>): nat
    decreases |runs|
  {
    if runs == [] then 0
    else
      var due := !sent && Sendable(runs[0]);
      (if due then 1 else 0) + InitialSends(sent || due, runs[1..])
  }

  /** Once the flag is set no run sends again. */
  lemma {:induction false} NoSendAfterFlag(runs: seq<EffectRun>)
    ensures InitialSends(true, runs) == 0
  {
    if runs != [] {
      NoSendAfterFlag(runs[1..]);
    }
  }

  /** Over any sequence of effect runs the initial message goes out at most once. */
  lemma {:induction false} InitialMessageSentAtMostOnce(runs: seq<EffectRun>)
    ensures InitialSends(false, runs) <= 1
    decreases |runs|
  {
    if runs != [] {
      if Sendable(runs[0]) {
        NoSendAfterFlag(runs[1..]);
      } else {
        InitialMessageSentAtMostOnce(runs[1..]);
      }
    }
  }

  /** A run that sees a non-blank message with the chat ready makes the message go out. */
  lemma {:induction false} SendableRunSends(runs: seq<EffectRun>, k: nat)
    requires k < |runs| && Sendable(runs[k])
    ensures InitialSends(false, runs) == 1
  {
    InitialMessageSentAtMostOnce(runs);
    if !Sendable(runs[0]) {
      assert runs[1..][k - 1] == runs[k];
      SendableRunSends(runs[1..], k - 1);
    }
  }

  /** When the message goes out, the run that sent it is the first one that saw a sendable state. */
  lemma {:induction false} SendingRun(runs: seq<EffectRun>) returns (k: nat)
    requires InitialSends(false, runs) > 0
    ensures k < |runs| && Sendable(runs[k])
    ensures forall j :: 0 <= j < k ==> !Sendable(runs[j])
  {
    if runs == [] {
      assert false;
    } else if Sendable(runs[0]) {
      k := 0;
    } else {
      var j := SendingRun(runs[1..]);
      k := j + 1;
      assert runs[k] == runs[1..][j];
      forall i | 0 <= i < k ensures !Sendable(runs[i]) {
        if i > 0 { assert runs[i] == runs[1..][i - 1]; }
      }
    }
  }

  /** The initial message goes out exactly when some run sees a non-blank message with the chat ready. */
  lemma InitialMessageSentIff(runs: seq<EffectRun>)
    ensures InitialSends(false, runs) > 0 <==> exists k :: 0 <= k < |runs| && Sendable(runs[k])
  {
    if InitialSends(false, runs) > 0 {
      var k := SendingRun(runs);
    }
    if exists k :: 0 <= k < |runs| && Sendable(runs[k]) {
      var k :| 0 <= k < |runs| && Sendable(runs[k]);
      SendableRunSends(runs, k);
    }
  }

  /** The component's state: the message list it edits through `setMessages`, and its own fields. */
  class ChatScreen {
    var messages: seq<Message>
    var input: string
    var files: Option<seq<File>>
    var editingMessageId: Option<string>
    var editingText: string
    var hasInitialMessageSent: bool
    /** Whether the parent passed `setMessages`. */
    const canSetMessages: bool

    constructor (messages: seq<Message>, initialFiles: Option<seq<File>>, canSetMessages: bool)
      ensures this.messages == messages && this.canSetMessages == canSetMessages
      ensures input == "" && files == initialFiles && editingMessageId.None? && editingText == ""
      ensures !hasInitialMessageSent
    {
      this.messages := messages;
      this.canSetMessages := canSetMessages;
      input, files, editingMessageId, editingText := "", initialFiles, None, "";
      hasInitialMessageSent := false;
    }

    /** `deleteMessage(id)`: drop the message and everything after it, when the list can be edited. */
    method DeleteMessage(id: string)
      modifies this`messages
      ensures messages == if canSetMessages then TruncateAt(old(messages), id) else old(messages)
    {
      if canSetMessages {
        messages := TruncateAt(messages, id);
      }
    }

    /** `startEditMessage(id, text)`. */
    method StartEditMessage(id: string, currentText: string)
      modifies this`editingMessageId, this`editingText
      ensures editingMessageId == Some(id) && editingText == currentText
    {
      editingMessageId, editingText := Some(id), currentText;
    }

    /** `cancelEditMessage()`: no message under edit, empty edit text. */
    method CancelEditMessage()
      modifies this`editingMessageId, this`editingText
      ensures editingMessageId.None? && editingText == ""
    {
      editingMessageId, editingText := None, "";
    }

    /**
     * `saveEditMessage(id)`: with a non-blank edit and an editable list, cut the list at the
     * edited message, leave editing, and send the trimmed edit as a new message.
     */
    method SaveEditMessage(id: string) returns (sent: Option<Outgoing>)
      modifies this`messages, this`editingMessageId, this`editingText
      ensures sent.Some? <==> canSetMessages && Trim(old(editingText)) != ""
      ensures sent.Some? ==>
        sent.value == Outgoing(Trim(old(editingText)), None)
        && messages == TruncateAt(old(messages), id)
        && editingMessageId.None? && editingText == ""
      ensures sent.None? ==> messages == old(messages) && editingMessageId == old(editingMessageId) && editingText == old(editingText)
    {
      if !canSetMessages || Trim(editingText) == "" {
        return None;
      }
      var text := Trim(editingText);
      messages := TruncateAt(messages, id);
      editingMessageId, editingText := None, "";
      sent := Some(Outgoing(text, None));
    }

    /**
     * `handleFileSelect`: the picker's file list replaces the selection. The list object is
     * always truthy, so even an empty pick is stored as a (empty) selection rather than cleared.
     */
    method SelectFiles(picked: seq<File>)
      modifies this`files
      ensures files == Some(picked)
    {
      files := Some(picked);
    }

    /** `removeFile(index)`. */
    method RemoveFile(index: int)
      modifies this`files
      ensures files == RemoveFileAt(old(files), index)
    {
      files := RemoveFileAt(files, index);
    }

    /**
     * `handleSubmit`: when the input is non-blank and the chat is ready, send the input as typed
     * with the selected files, then clear both; otherwise nothing happens.
     */
    method HandleSubmit(status: ChatStatus) returns (sent: Option<Outgoing>)
      modifies this`input, this`files
      ensures sent.Some? <==> Trim(old(input)) != "" && status == Ready
      ensures sent.Some? ==> sent.value == Outgoing(old(input), old(files)) && input == "" && files.None?
      ensures sent.None? ==> input == old(input) && files == old(files)
    {
      sent := None;
      if Trim(input) != "" && status == Ready {
        sent := Some(Outgoing(input, files));
        input, files := "", None;
      }
    }

    /** `handleVoiceTranscription(text)`: a non-blank transcription replaces the input, trimmed. */
    method VoiceTranscribed(text: string)
      modifies this`input
      ensures input == if Trim(text) != "" then Trim(text) else old(input)
    {
      if Trim(text) != "" {
        input := Trim(text);
      }
    }

    /** One run of the initial-message effect: send at most once, and only a non-blank message while ready. */
    method InitialMessageEffect(initialMessage: string, initialFiles: Option<seq<File>>, status: ChatStatus)
      returns (sent: Option<Outgoing>)
      modifies this`hasInitialMessageSent
      ensures sent.Some? <==> InitialSendDue(old(hasInitialMessageSent), initialMessage, status)
      ensures sent.Some? ==> sent.value == Outgoing(initialMessage, initialFiles)
      ensures hasInitialMessageSent == (old(hasInitialMessageSent) || sent.Some?)
    {
      sent := None;
      TrimEmptyIff(initialMessage);
      if Trim(initialMessage) != "" && !hasInitialMessageSent && status == Ready {
        hasInitialMessageSent := true;
        sent := Some(Outgoing(initialMessage, initialFiles));
      }
    }
  }
}
