/**
 * The landing-page composer: an auto-growing textarea, a command palette of four suggestions
 * driven by the typed text and the arrow keys, and a list of attachments.
 */
module AnimatedChat {
  import opened Wrappers
  import opened Text
  import opened Lists

  /** The `prefix` of each command suggestion, in display order. */
  const CommandPrefixes: seq<string> := ["/find", "/analyze", "/validate", "/pivot"]
  const MinHeight := 60
  const MaxHeight := 200

  datatype Key = ArrowDown | ArrowUp | Tab | Enter | Escape | OtherKey

  /** One call of `onSendMessage(message, files)`. */
  datatype Sent = Sent(message: string, files: Option<seq<File>>)

  /**
   * `adjustHeight()`: the content height clamped to `[minHeight, maxHeight]`, with no upper
   * bound when `maxHeight` is absent; the lower bound wins when the bounds cross.
   */
  function ClampHeight(scrollHeight: int, minHeight: int, maxHeight: Option<int>): (h: int)
    ensures h >= minHeight
    ensures maxHeight.Some? && maxHeight.value >= minHeight ==> h <= maxHeight.value
    ensures minHeight <= scrollHeight && (maxHeight.None? || scrollHeight <= maxHeight.value) ==> h == scrollHeight
    ensures h == scrollHeight || h == minHeight || (maxHeight.Some? && h == maxHeight.value)
    ensures scrollHeight <= minHeight ==> h == minHeight
    ensures maxHeight.Some? && scrollHeight >= maxHeight.value ==>
      h == if maxHeight.value > minHeight then maxHeight.value else minHeight
  {
    var capped := if maxHeight.Some? && maxHeight.value < scrollHeight then maxHeight.value else scrollHeight;
    if capped < minHeight then minHeight else capped
  }

  /** The palette opens for a single slash-word: text that starts with "/" and has no space. */
  predicate ShowsPalette(value: string) {
    StartsWith(value, "/") && !Contains(value, " ")
  }

  /** `findIndex(cmd => cmd.prefix.startsWith(value))`: the first prefix that extends `value`, or -1. */
  function MatchIndex(prefixes: seq<string>, value: string): (i: int)
    ensures -1 <= i < |prefixes|
    ensures i >= 0 ==> StartsWith(prefixes[i], value) && forall j :: 0 <= j < i ==> !StartsWith(prefixes[j], value)
    ensures i == -1 <==> forall j :: 0 <= j < |prefixes| ==> !StartsWith(prefixes[j], value)
  {
    if prefixes == [] then -1
    else if StartsWith(prefixes[0], value) then 0
    else
      var k := MatchIndex(prefixes[1..], value);
      if k == -1 then -1 else k + 1
  }

  /** Typing "/" alone highlights the first command; "/p" highlights "/pivot". */
  lemma MatchExamples()
    ensures MatchIndex(CommandPrefixes, "/") == 0
    ensures MatchIndex(CommandPrefixes, "/p") == 3
    ensures MatchIndex(CommandPrefixes, "/x") == -1
  {
    var p := CommandPrefixes;
    assert StartsWith(p[0], "/");
    assert p[0][..2][1] != 'p' && p[1][..2][1] != 'p' && p[2][..2][1] != 'p';
    assert StartsWith(p[3], "/p");
    assert p[0][..2][1] != 'x' && p[1][..2][1] != 'x' && p[2][..2][1] != 'x' && p[3][..2][1] != 'x';
  }

  /** ArrowDown: the next suggestion, wrapping from the last (or beyond) to the first. */
  function NextDown(prev: int, count: int): (r: int)
    ensures count > 0 && -1 <= prev < count ==> 0 <= r < count
    ensures prev < count - 1 ==> r == prev + 1
    ensures prev >= count - 1 ==> r == 0
  {
    if prev < count - 1 then prev + 1 else 0
  }

  /** ArrowUp: the previous suggestion, wrapping from the first (or from none, -1) to the last. */
  function NextUp(prev: int, count: int): (r: int)
    ensures count > 0 && -1 <= prev < count ==> 0 <= r < count
    ensures prev > 0 ==> r == prev - 1
    ensures prev <= 0 ==> r == count - 1
  {
    if prev > 0 then prev - 1 else count - 1
  }

  /** On a highlighted suggestion, ArrowDown and ArrowUp undo each other. */
  lemma ArrowsAreInverse(i: int, count: int)
    requires 0 <= i < count
    ensures NextUp(NextDown(i, count), count) == i
    ensures NextDown(NextUp(i, count), count) == i
  {
  }

  /** The composer's state: the fields of the component that its handlers update. */
  class ChatComposer {
    var value: string
    var attachments: seq<File>
    var isTyping: bool
    var activeSuggestion: int
    var showCommandPalette: bool
    var height: int
    /** Whether the parent passed an `onSendMessage` callback. */
    const hasSendHandler: bool

    ghost predicate Valid()
      reads this
    {
      -1 <= activeSuggestion < |CommandPrefixes| && MinHeight <= height <= MaxHeight
    }

    constructor (hasSendHandler: bool)
      ensures Valid() && this.hasSendHandler == hasSendHandler
      ensures value == "" && attachments == [] && !isTyping
      ensures activeSuggestion == -1 && !showCommandPalette && height == MinHeight
    {
      this.hasSendHandler := hasSendHandler;
      value, attachments, isTyping := "", [], false;
      activeSuggestion, showCommandPalette, height := -1, false, MinHeight;
    }

    /** The effect that runs whenever `value` changes: open the palette on a slash-word and highlight its first match. */
    method ValueChanged()
      requires Valid()
      modifies this`showCommandPalette, this`activeSuggestion
      ensures Valid()
      ensures showCommandPalette == ShowsPalette(value)
      ensures activeSuggestion == if ShowsPalette(value) then MatchIndex(CommandPrefixes, value) else old(activeSuggestion)
    {
      if StartsWith(value, "/") && !Contains(value, " ") {
        showCommandPalette := true;
        var matching := MatchIndex(CommandPrefixes, value);
        if matching >= 0 {
          activeSuggestion := matching;
        } else {
          activeSuggestion := -1;
        }
      } else {
        showCommandPalette := false;
      }
    }

    /** The textarea's `onChange`: store the text, resize to the measured content height, run the palette effect. */
    method Change(newValue: string, scrollHeight: int)
      requires Valid()
      modifies this
      ensures Valid()
      ensures value == newValue && attachments == old(attachments) && isTyping == old(isTyping)
      ensures height == ClampHeight(scrollHeight, MinHeight, Some(MaxHeight))
      ensures newValue != old(value) ==>
        showCommandPalette == ShowsPalette(newValue)
        && activeSuggestion == if ShowsPalette(newValue) then MatchIndex(CommandPrefixes, newValue) else old(activeSuggestion)
      ensures newValue == old(value) ==>
        showCommandPalette == old(showCommandPalette) && activeSuggestion == old(activeSuggestion)
    {
      var changed := newValue != value;
      value := newValue;
      height := ClampHeight(scrollHeight, MinHeight, Some(MaxHeight));
      if changed {
        ValueChanged();
      }
    }

    /** Replaces the text with a command and a space, which closes the palette. */
    method ApplySuggestion(index: int)
      requires Valid() && 0 <= index < |CommandPrefixes|
      modifies this`value, this`showCommandPalette
      ensures Valid()
      ensures value == CommandPrefixes[index] + " " && !showCommandPalette
    {
      value := CommandPrefixes[index] + " ";
      showCommandPalette := false;
    }

    /** `selectCommandSuggestion(index)`, called with the index of a rendered suggestion. */
    method SelectCommandSuggestion(index: int)
      requires Valid() && 0 <= index < |CommandPrefixes|
      modifies this`value, this`showCommandPalette
      ensures Valid()
      ensures value == CommandPrefixes[index] + " " && !showCommandPalette
      ensures activeSuggestion == old(activeSuggestion) && attachments == old(attachments)
      ensures isTyping == old(isTyping) && height == old(height)
    {
      ApplySuggestion(index);
    }

    /** The command button: toggles the palette without touching the text. */
    method ToggleCommandPalette()
      requires Valid()
      modifies this`showCommandPalette
      ensures Valid() && showCommandPalette == !old(showCommandPalette)
    {
      showCommandPalette := !showCommandPalette;
    }

    /** `handleSendMessage`: a non-blank text goes out trimmed, with the attachments when there are any. */
    method Send() returns (sent: Option<Sent>)
      requires Valid()
      modifies this`isTyping
      ensures Valid()
      ensures sent.Some? <==> Trim(value) != "" && hasSendHandler
      ensures sent.Some? ==> sent.value == Sent(Trim(value), if |attachments| > 0 then Some(attachments) else None)
      ensures isTyping == (old(isTyping) || (Trim(value) != "" && !hasSendHandler))
    {
      sent := None;
      if Trim(value) != "" {
        if hasSendHandler {
          sent := Some(Sent(Trim(value), if |attachments| > 0 then Some(attachments) else None));
        } else {
          isTyping := true;
        }
      }
    }

    /** The timer that ends the simulated reply when no `onSendMessage` was given: clear everything. */
    method TypingFinished()
      requires Valid()
      modifies this
      ensures Valid()
      ensures !isTyping && value == "" && attachments == [] && height == MinHeight
      ensures old(value) != "" ==> !showCommandPalette
      ensures old(value) == "" ==> showCommandPalette == old(showCommandPalette)
      ensures activeSuggestion == old(activeSuggestion)
    {
      var changed := value != "";
      isTyping, value, attachments, height := false, "", [], MinHeight;
      if changed {
        ValueChanged();
      }
    }

    /**
     * `handleKeyDown`. With the palette open the arrows move the highlight (wrapping), Tab or
     * Enter applies the highlighted command, Escape closes it. With it closed, Enter without
     * Shift sends a non-blank text.
     */
    method KeyDown(key: Key, shift: bool) returns (sent: Option<Sent>)
      requires Valid()
      modifies this`value, this`showCommandPalette, this`activeSuggestion, this`isTyping
      ensures Valid()
      ensures attachments == old(attachments) && height == old(height)
      ensures isTyping == (old(isTyping) || (!old(showCommandPalette) && key == Enter && !shift && Trim(value) != "" && !hasSendHandler))
      ensures old(showCommandPalette) && key != ArrowDown && key != ArrowUp ==> activeSuggestion == old(activeSuggestion)
      ensures old(showCommandPalette) && key == OtherKey ==> value == old(value) && showCommandPalette
      ensures old(showCommandPalette) ==> sent.None?
      ensures old(showCommandPalette) && key == ArrowDown ==>
        activeSuggestion == NextDown(old(activeSuggestion), |CommandPrefixes|) && showCommandPalette && value == old(value)
      ensures old(showCommandPalette) && key == ArrowUp ==>
        activeSuggestion == NextUp(old(activeSuggestion), |CommandPrefixes|) && showCommandPalette && value == old(value)
      ensures old(showCommandPalette) && (key == Tab || key == Enter) && old(activeSuggestion) >= 0 ==>
        value == CommandPrefixes[old(activeSuggestion)] + " " && !showCommandPalette
      ensures old(showCommandPalette) && (key == Tab || key == Enter) && old(activeSuggestion) < 0 ==>
        value == old(value) && showCommandPalette
      ensures old(showCommandPalette) && key == Escape ==> !showCommandPalette && value == old(value)
      ensures !old(showCommandPalette) ==> value == old(value) && !showCommandPalette && activeSuggestion == old(activeSuggestion)
      ensures !old(showCommandPalette) ==>
        (sent.Some? <==> key == Enter && !shift && Trim(value) != "" && hasSendHandler)
      ensures sent.Some? ==> sent.value == Sent(Trim(value), if |attachments| > 0 then Some(attachments) else None)
    {
      sent := None;
      if showCommandPalette {
        if key == ArrowDown {
          activeSuggestion := NextDown(activeSuggestion, |CommandPrefixes|);
        } else if key == ArrowUp {
          activeSuggestion := NextUp(activeSuggestion, |CommandPrefixes|);
        } else if key == Tab || key == Enter {
          if activeSuggestion >= 0 {
            ApplySuggestion(activeSuggestion);
          }
        } else if key == Escape {
          showCommandPalette := false;
        }
      } else if key == Enter && !shift {
        if Trim(value) != "" {
          sent := Send();
        }
      }
    }

    /** `handleVoiceTranscription(text)`: a non-blank transcription replaces the text, trimmed, and the palette effect runs. */
    method VoiceTranscribed(text: string)
      requires Valid()
      modifies this`value, this`showCommandPalette, this`activeSuggestion
      ensures Valid()
      ensures value == if Trim(text) != "" then Trim(text) else old(value)
      ensures value != old(value) ==> showCommandPalette == ShowsPalette(value)
      ensures value != old(value) ==>
        activeSuggestion == if ShowsPalette(value) then MatchIndex(CommandPrefixes, value) else old(activeSuggestion)
      ensures value == old(value) ==> showCommandPalette == old(showCommandPalette) && activeSuggestion == old(activeSuggestion)
    {
      if Trim(text) != "" {
        var changed := Trim(text) != value;
        value := Trim(text);
        if changed {
          ValueChanged();
        }
      }
    }

    /** `handleFileSelect`: the picked files are appended after the existing attachments. */
    method FileSelect(picked: seq<File>)
      requires Valid()
      modifies this`attachments
      ensures Valid() && attachments == old(attachments) + picked
    {
      attachments := attachments + picked;
    }

    /** `removeAttachment(index)`: drops exactly the attachment at `index` and keeps the rest in order. */
    method RemoveAttachment(index: int)
      requires Valid()
      modifies this`attachments
      ensures Valid()
      ensures attachments == if 0 <= index < |old(attachments)| then old(attachments)[..index] + old(attachments)[index + 1..] else old(attachments)
    {
      WithoutIndexSplices(attachments, index);
      attachments := WithoutIndex(attachments, index);
    }
  }
}
