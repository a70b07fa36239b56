/**
 * The chat screen: its local state (`messages`, `inputText`,
 * `showEmojiSelector`), the snapshot handler, the send path and the emoji
 * picker, plus the pure pieces they use (message formatting, JavaScript's
 * `String.prototype.trim`, the sent/received test).
 */
module Chat {
  import opened Wrappers
  import opened ConversationId

  /** A message's `createdAt`: a JavaScript `Date`, or a bare millisecond count. */
  datatype CreatedAt = DateValue(millis: int) | EpochMillis(millis: int)

  /**
   * A chat message as the screen handles it: the message's own id (absent on
   * messages composed by the Send button), its `text`, `user._id` and
   * `createdAt`.
   */
  datatype Message = Message(id: Option<string>, text: string, senderId: string, createdAt: CreatedAt)

  /** A delivery of the conversation document: absent, or present with its message list. */
  datatype Snapshot = Missing | Exists(messages: seq<Message>)

  /**
   * The write `onSend` issues: `set({messages: GiftedChat.append(local, added)},
   * {merge: true})` on document `docId` of the `chats` collection. How the
   * chat library combines `local` and `added` is not part of this model.
   */
  datatype ChatWrite = ChatWrite(docId: string, local: seq<Message>, added: seq<Message>)

  /** `new Date(c)`: a Date for the same instant. */
  function ToDate(c: CreatedAt): (d: CreatedAt)
    ensures d.DateValue? && d.millis == c.millis
  {
    DateValue(c.millis)
  }

  /** `{...message, createdAt: new Date(message.createdAt)}`. */
  function FormatMessage(m: Message): Message
  {
    m.(createdAt := ToDate(m.createdAt))
  }

  /** `newMessages.map(...)` of `onSend`. */
  function FormatMessages(ms: seq<Message>): (r: seq<Message>)
    ensures |r| == |ms|
    ensures forall i :: 0 <= i < |ms| ==>
      r[i].id == ms[i].id && r[i].text == ms[i].text && r[i].senderId == ms[i].senderId &&
      r[i].createdAt.DateValue? && r[i].createdAt.millis == ms[i].createdAt.millis
  {
    seq(|ms|, i requires 0 <= i < |ms| => FormatMessage(ms[i]))
  }

  /** Formatting is applied message by message, so it keeps the order of a concatenation. */
  lemma FormatMessagesAppend(a: seq<Message>, b: seq<Message>)
    ensures FormatMessages(a + b) == FormatMessages(a) + FormatMessages(b)
  {
  }

  /** Messages whose `createdAt` is already a Date come out of formatting unchanged. */
  lemma FormatMessagesKeepsDates(ms: seq<Message>)
    requires forall i :: 0 <= i < |ms| ==> ms[i].createdAt.DateValue?
    ensures FormatMessages(ms) == ms
  {
  }

  /** Formatting twice is formatting once. */
  lemma FormatMessagesIdempotent(ms: seq<Message>)
    ensures FormatMessages(FormatMessages(ms)) == FormatMessages(ms)
  {
  }

  /** The characters JavaScript's `trim` removes: WhiteSpace and LineTerminator of ECMAScript. */
  predicate IsJsWhitespace(c: char)
  {
    var n := c as int;
    n == 0x09 || n == 0x0A || n == 0x0B || n == 0x0C || n == 0x0D || n == 0x20 ||
    n == 0xA0 || n == 0x1680 || (0x2000 <= n <= 0x200A) || n == 0x2028 || n == 0x2029 ||
    n == 0x202F || n == 0x205F || n == 0x3000 || n == 0xFEFF
  }

  /** Every character of `s` is whitespace (the empty string included). */
  ghost predicate Blank(s: string)
  {
    forall i :: 0 <= i < |s| ==> IsJsWhitespace(s[i])
  }

  /** `s` with its leading whitespace removed: what is dropped is whitespace, what is kept starts with none. */
  function TrimStart(s: string): (r: string)
    ensures |r| <= |s| && r == s[|s| - |r|..]
    ensures forall i :: 0 <= i < |s| - |r| ==> IsJsWhitespace(s[i])
    ensures r == [] || !IsJsWhitespace(r[0])
    decreases |s|
  {
    if s != [] && IsJsWhitespace(s[0]) then
      var r := TrimStart(s[1..]);
      assert forall i :: 0 < i < |s| - |r| ==> s[i] == s[1..][i - 1];
      r
    else s
  }

  /** `s` with its trailing whitespace removed: what is dropped is whitespace, what is kept ends with none. */
  function TrimEnd(s: string): (r: string)
    ensures |r| <= |s| && r == s[..|r|]
    ensures forall i :: |r| <= i < |s| ==> IsJsWhitespace(s[i])
    ensures r == [] || !IsJsWhitespace(r[|r| - 1])
    decreases |s|
  {
    if s != [] && IsJsWhitespace(s[|s| - 1]) then
      var r := TrimEnd(s[..|s| - 1]);
      assert forall i :: |r| <= i < |s| - 1 ==> s[i] == s[..|s| - 1][i];
      r
    else s
  }

  /**
   * `s.trim()`: the slice `s[i..i + |r|]` where `i` counts the leading
   * whitespace; everything cut from either end is whitespace, and the
   * result neither starts nor ends with any.
   */
  function Trim(s: string): (r: string)
    ensures var i := |s| - |TrimStart(s)|;
      i + |r| <= |s| && r == s[i..i + |r|] &&
      (forall k :: 0 <= k < i ==> IsJsWhitespace(s[k])) &&
      (forall k :: i + |r| <= k < |s| ==> IsJsWhitespace(s[k]))
    ensures r == [] || (!IsJsWhitespace(r[0]) && !IsJsWhitespace(r[|r| - 1]))
  {
    var t := TrimStart(s);
    var r := TrimEnd(t);
    var i := |s| - |t|;
    assert forall k :: i + |r| <= k < |s| ==> s[k] == t[k - i];
    r
  }

  lemma TrimStartEmptyIffBlank(s: string)
    ensures TrimStart(s) == [] <==> Blank(s)
  {
  }

  lemma TrimEndEmptyIffBlank(s: string)
    ensures TrimEnd(s) == [] <==> Blank(s)
  {
  }

  /** `s.trim()` is falsy (empty) exactly when `s` consists of whitespace only. */
  lemma TrimEmptyIffBlank(s: string)
    ensures Trim(s) == [] <==> Blank(s)
  {
  }

  /** `renderBubble`'s test: a message is drawn as received when someone else sent it. */
  predicate IsReceived(m: Message, currentUid: string)
  {
    m.senderId != currentUid
  }

  /** In a chat between two different people, each message from one of them is received by exactly the other. */
  lemma ReceivedOnExactlyOneSide(m: Message, me: string, peer: string)
    requires me != peer && (m.senderId == me || m.senderId == peer)
    ensures IsReceived(m, me) != IsReceived(m, peer)
    ensures IsReceived(m, me) <==> m.senderId == peer
  {
  }

  /** The screen opened by `currentUid` to chat with `peerUid`. */
  class ChatScreen {
    const currentUid: string
    const peerUid: string
    var messages: seq<Message>
    var inputText: string
    var showEmojiSelector: bool

    constructor (currentUid: string, peerUid: string)
      ensures this.currentUid == currentUid && this.peerUid == peerUid
      ensures messages == [] && inputText == [] && !showEmojiSelector
    {
      this.currentUid := currentUid;
      this.peerUid := peerUid;
      messages := [];
      inputText := [];
      showEmojiSelector := false;
    }

    /**
     * The document the screen subscribes to when it mounts: the same key
     * whichever of the two participants is the current user.
     */
    function DocId(): (id: string)
      ensures id == ChatId(peerUid, currentUid)
      ensures |id| == |currentUid| + |peerUid| + 1
    {
      ChatIdSymmetric(currentUid, peerUid);
      ChatId(currentUid, peerUid)
    }

    /** The snapshot listener: a present document replaces the list; a missing one changes nothing. */
    method OnSnapshot(snapshot: Snapshot)
      modifies this`messages
      ensures snapshot.Exists? ==> messages == snapshot.messages
      ensures snapshot.Missing? ==> messages == old(messages)
    {
      if snapshot.Exists? {
        messages := snapshot.messages;
      }
    }

    /**
     * `onSend`: builds the write of the subscribed document from the local
     * list and the formatted new messages. It changes no screen state: the
     * local list only changes when a snapshot arrives, and a failed write is
     * only logged.
     */
    method OnSend(newMessages: seq<Message>) returns (w: ChatWrite)
      ensures w.docId == DocId()
      ensures w.local == messages
      ensures w.added == FormatMessages(newMessages)
    {
      var chatId := Join(SortPair(currentUid, peerUid), Separator);
      w := ChatWrite(chatId, messages, FormatMessages(newMessages));
    }

    /**
     * The Send button, pressed at time `now` (milliseconds): a blank input
     * sends nothing and stays as it is; otherwise exactly one message with
     * the input's text, from the current user, is sent and the input is
     * cleared.
     */
    method PressSend(now: int) returns (w: Option<ChatWrite>)
      modifies this`inputText
      ensures w.None? <==> Blank(old(inputText))
      ensures w.None? ==> inputText == old(inputText)
      ensures w.Some? ==> inputText == []
      ensures w.Some? ==> w.value.docId == DocId() && w.value.local == messages
      ensures w.Some? ==> w.value.added == [Message(None, old(inputText), currentUid, DateValue(now))]
      ensures w.Some? ==> !IsReceived(w.value.added[0], currentUid)
    {
      TrimEmptyIffBlank(inputText);
      if Trim(inputText) != [] {
        var sent := OnSend([Message(None, inputText, currentUid, DateValue(now))]);
        w := Some(sent);
        inputText := [];
      } else {
        w := None;
      }
    }

    /** Typing in the input field. */
    method ChangeText(text: string)
      modifies this`inputText
      ensures inputText == text
    {
      inputText := text;
    }

    /** The emoji button opens the selector. */
    method OpenEmojiSelector()
      modifies this`showEmojiSelector
      ensures showEmojiSelector
    {
      showEmojiSelector := true;
    }

    /** The selector's Close button. */
    method CloseEmojiSelector()
      modifies this`showEmojiSelector
      ensures !showEmojiSelector
    {
      showEmojiSelector := false;
    }

    /** The modal's `onRequestClose` (the Android back button) flips the selector. */
    method RequestCloseEmojiSelector()
      modifies this`showEmojiSelector
      ensures showEmojiSelector == !old(showEmojiSelector)
    {
      showEmojiSelector := !showEmojiSelector;
    }

    /** Picking an emoji appends it to the input and closes the selector. */
    method PickEmoji(emoji: string)
      modifies this`inputText, this`showEmojiSelector
      ensures inputText == old(inputText) + emoji
      ensures !showEmojiSelector
    {
      inputText := inputText + emoji;
      showEmojiSelector := false;
    }
  }

  /** The two participants' screens subscribe to, and write, one and the same document. */
  lemma BothSidesShareDocument(mine: ChatScreen, theirs: ChatScreen)
    requires mine.currentUid == theirs.peerUid && mine.peerUid == theirs.currentUid
    ensures mine.DocId() == theirs.DocId()
  {
    ChatIdSymmetric(mine.currentUid, mine.peerUid);
  }
}
