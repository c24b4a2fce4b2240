/**
 * What the desktop chat and the mobile chat share: the transcript entry, the
 * submit guard and the key binding. Both components declare the same
 * `Message` interface and the same two handlers.
 */
module ChatMessages {
  import JsText

  datatype Option<T> = None | Some(value: T)

  datatype Role = User | System | Assistant

  /**
   * The text of an entry: what the user typed, or one of the screen's fixed
   * texts (the opening notice, the opening greeting, or canned reply number
   * `choice`, the first of which quotes a drawn node count). Each screen
   * spells its fixed texts out in its own `Text` function.
   */
  datatype Content =
    | Typed(text: string)
    | Notice
    | Greeting
    | CannedReply(choice: nat, embeddedNodes: nat)

  /**
   * One transcript entry. `timestamp` is the clock reading in milliseconds
   * taken when the entry is built; `processingTime` is the simulated delay in
   * seconds that the reply carries.
   */
  datatype Message = Message(
    id: string,
    role: Role,
    content: Content,
    timestamp: nat,
    networkNodes: Option<nat>,
    processingTime: Option<real>)

  /** A reply that has been scheduled but has not fired yet: the timer's closure. */
  datatype PendingReply = PendingReply(input: string, processingTime: real)

  /** `!inputMessage.trim() || isProcessing`: submitting does nothing. */
  predicate RejectsSubmit(input: string, isProcessing: bool) {
    JsText.Trim(input) == [] || isProcessing
  }

  /** The guard rejects exactly the blank inputs and everything while a reply is pending. */
  lemma RejectsSubmitMeaning(input: string, isProcessing: bool)
    ensures RejectsSubmit(input, isProcessing) <==>
      isProcessing || forall i :: 0 <= i < |input| ==> JsText.IsWhitespace(input[i])
  {
  }

  /** `handleKeyPress`: Enter without Shift submits; every other key is left to the input field. */
  predicate SubmitsOnKey(key: string, shiftKey: bool) {
    key == "Enter" && !shiftKey
  }

  /** The entry appended when a submit is accepted: the raw, untrimmed input. */
  function UserMessage(input: string, now: nat): (m: Message)
    ensures m.role == User && m.content == Typed(input)
    ensures m.networkNodes == None && m.processingTime == None
    ensures JsText.AllDigits(m.id) && JsText.DecimalValue(m.id) == now
  {
    JsText.DecimalRoundTrip(now);
    Message(JsText.Decimal(now), User, Typed(input), now, None, None)
  }

  /** The transcript both chat screens open with: a system notice, then a greeting,
   * each reporting 247 nodes. */
  function InitialMessages(now: nat): (r: seq<Message>)
    ensures |r| == 2
    ensures r[0].id == "1" && r[0].role == System
    ensures r[1].id == "2" && r[1].role == Assistant
    ensures NodesInBand(r, 200, 249)
  {
    [ Message("1", System, Notice, now, Some(247), None),
      Message("2", Assistant, Greeting, now, Some(247), Some(1.2)) ]
  }

  /** Every non-user entry of a transcript reports a node count in `lo..hi`. */
  ghost predicate NodesInBand(messages: seq<Message>, lo: int, hi: int) {
    forall i :: 0 <= i < |messages| && messages[i].role != User ==>
      messages[i].networkNodes.Some? && lo <= messages[i].networkNodes.value <= hi
  }

  /** Appending a user entry, or a non-user entry with an in-band count, keeps the band. */
  lemma NodesInBandAppend(messages: seq<Message>, m: Message, lo: int, hi: int)
    requires NodesInBand(messages, lo, hi)
    requires m.role != User ==> m.networkNodes.Some? && lo <= m.networkNodes.value <= hi
    ensures NodesInBand(messages + [m], lo, hi)
  {
    var r := messages + [m];
    forall i | 0 <= i < |r| && r[i].role != User
      ensures r[i].networkNodes.Some? && lo <= r[i].networkNodes.value <= hi
    {
      if i < |messages| { assert r[i] == messages[i]; }
    }
  }
}
