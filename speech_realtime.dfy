/**
 * The real-time speech recognition service: the recognition parameters, the
 * audio processor that feeds microphone frames into the audio queue, the
 * listener that turns service results into final or partial transcripts, and
 * the session loop that connects on the first audio packet, streams the
 * following packets and reconnects when a connection ends.
 */
module SpeechRealtime {
  import opened Wrappers
  import opened Strings
  import opened Queues

  const SampleRate: nat := 16000

  /** The SDK's enumeration values the parameters use. */
  const ModelDomainGeneric: string := "GENERIC"
  const StabilizePartialResultsNone: string := "NONE"
  const PunctuationNone: string := "NONE"

  /** What travels on the audio queues: a chunk of 16-bit mono PCM, or the end-of-stream sentinel (`None`). */
  datatype AudioItem = Chunk(bytes: seq<bv8>) | EndOfStream

  /** The application language shown to the user, mapped to the service's language code (`language_map.get`). */
  function LanguageCode(language: string): (r: Option<string>)
    ensures r.Some? <==> language in {"Spanish", "Portuguese", "English"}
  {
    if language == "Spanish" then Some("es-ES")
    else if language == "Portuguese" then Some("pt-BR")
    else if language == "English" then Some("en-GB")
    else None
  }

  // ---------------------------------------------------------------------
  // get_realtime_parameters

  datatype Customization = Customization(compartmentId: string, customizationId: string)

  datatype RealtimeParameters = RealtimeParameters(
    languageCode: Option<string>,
    modelDomain: string,
    partialSilenceThresholdInMs: int,
    finalSilenceThresholdInMs: int,
    encoding: string,
    shouldIgnoreInvalidCustomizations: bool,
    stabilizePartialResults: string,
    punctuation: string,
    customizations: Option<seq<Customization>>)

  /** The parameters before the customization loop runs; the customization list is unset. */
  function BaseParameters(languageCode: Option<string>): RealtimeParameters {
    RealtimeParameters(languageCode, ModelDomainGeneric, 0, 2000, "audio/raw;rate=" + NatToString(SampleRate),
                       false, StabilizePartialResultsNone, PunctuationNone, None)
  }

  /**
   * Fills the parameters field by field, then walks the customization ids;
   * each pass replaces the whole customization list by a one-element list, so
   * only the last id is kept, and the list stays unset when there is none.
   */
  method GetRealtimeParameters(customizations: seq<string>, compartmentId: string, languageCode: Option<string>)
    returns (p: RealtimeParameters)
    ensures p.languageCode == languageCode
    ensures p.modelDomain == "GENERIC" && p.stabilizePartialResults == "NONE" && p.punctuation == "NONE"
    ensures p.partialSilenceThresholdInMs == 0 && p.finalSilenceThresholdInMs == 2000
    ensures p.encoding == "audio/raw;rate=16000"
    ensures !p.shouldIgnoreInvalidCustomizations
    ensures customizations == [] ==> p.customizations == None
    ensures customizations != [] ==>
      p.customizations == Some([Customization(compartmentId, customizations[|customizations| - 1])])
  {
    p := BaseParameters(languageCode);
    assert NatToString(SampleRate) == "16000" by {
      assert NatToString(16) == "16";
      assert NatToString(160) == "160";
      assert NatToString(1600) == "1600";
    }
    var i := 0;
    while i < |customizations|
      invariant 0 <= i <= |customizations|
      invariant p.(customizations := None) == BaseParameters(languageCode)
      invariant i == 0 ==> p.customizations == None
      invariant i > 0 ==> p.customizations == Some([Customization(compartmentId, customizations[i - 1])])
    {
      p := p.(customizations := Some([Customization(compartmentId, customizations[i])]));
      i := i + 1;
    }
  }

  // ---------------------------------------------------------------------
  // OCIAudioProcessor

  /** The WebRTC audio processor: forwards resampled frames to a queue once the page has attached one. */
  class AudioProcessor {
    var audioQueue: Fifo?<AudioItem>

    constructor ()
      ensures audioQueue == null
    {
      audioQueue := null;
    }

    /**
     * `recv`: hands the frame back unchanged. With a queue attached, each
     * resampled frame's bytes are queued in order; a resampler that raises
     * (`resampled == None`) queues nothing and the error is swallowed.
     */
    method Recv<F>(frame: F, resampled: Option<seq<seq<bv8>>>) returns (out: F)
      modifies audioQueue
      ensures out == frame
      ensures audioQueue == old(audioQueue)
      ensures audioQueue != null ==>
        audioQueue.items == old(audioQueue.items) + (if resampled.Some? then Chunks(resampled.value) else [])
    {
      out := frame;
      if audioQueue == null {
        return;
      }
      if resampled.None? {
        return;
      }
      var frames := resampled.value;
      var i := 0;
      while i < |frames|
        invariant 0 <= i <= |frames|
        invariant audioQueue.items == old(audioQueue.items) + Chunks(frames[..i])
      {
        assert frames[..i + 1] == frames[..i] + [frames[i]];
        ChunksAppend(frames[..i], [frames[i]]);
        audioQueue.Put(Chunk(frames[i]));
        i := i + 1;
      }
      assert frames[..i] == frames;
    }
  }

  /** Byte buffers as audio-queue items. */
  function Chunks(frames: seq<seq<bv8>>): (r: seq<AudioItem>)
    ensures |r| == |frames| && forall i :: 0 <= i < |frames| ==> r[i] == Chunk(frames[i])
  {
    seq(|frames|, i requires 0 <= i < |frames| => Chunk(frames[i]))
  }

  lemma ChunksAppend(a: seq<seq<bv8>>, b: seq<seq<bv8>>)
    ensures Chunks(a + b) == Chunks(a) + Chunks(b)
  {
  }

  // ---------------------------------------------------------------------
  // MyListener.on_result

  datatype Transcription = Transcription(transcription: string, isFinal: bool)
  datatype SpeechResult = SpeechResult(transcriptions: seq<Transcription>)

  /** Which display callback a recognition result reaches, with which text. */
  datatype Recognized = FinalText(text: string) | PartialText(text: string)

  /**
   * `on_result`: only the first transcription of a result is looked at; it
   * goes to the final callback when flagged final and to the partial one
   * otherwise. A result without transcriptions raises (`None`).
   */
  function OnResult(result: SpeechResult): (r: Option<Recognized>)
    ensures r.None? <==> result.transcriptions == []
    ensures r.Some? ==> r.value.text == result.transcriptions[0].transcription
    ensures r.Some? ==> (r.value.FinalText? <==> result.transcriptions[0].isFinal)
  {
    if result.transcriptions == [] then None
    else if result.transcriptions[0].isFinal then Some(FinalText(result.transcriptions[0].transcription))
    else Some(PartialText(result.transcriptions[0].transcription))
  }

  // ---------------------------------------------------------------------
  // The realtime client and the send loop

  /**
   * A realtime speech client. `capacity` is how many packets the connection
   * accepts before `send_data` raises (`None`: it never does); it stands for
   * the network, which the model does not see.
   */
  class Client {
    var closeFlag: bool
    var sent: seq<seq<bv8>>
    const capacity: Option<nat>
    const parameters: RealtimeParameters

    constructor (parameters: RealtimeParameters, capacity: Option<nat>)
      ensures !closeFlag && sent == [] && this.capacity == capacity && this.parameters == parameters
    {
      closeFlag := false;
      sent := [];
      this.capacity := capacity;
      this.parameters := parameters;
    }

    /** `close()`: raises the close flag. */
    method Close()
      modifies this
      ensures closeFlag && sent == old(sent)
    {
      closeFlag := true;
    }

    /** `send_data(data)`: `false` when the connection raises instead of sending. */
    method SendData(data: seq<bv8>) returns (ok: bool)
      modifies this
      ensures ok == Accepts(capacity, |old(sent)|)
      ensures sent == if ok then old(sent) + [data] else old(sent)
      ensures closeFlag == old(closeFlag)
    {
      ok := Accepts(capacity, |sent|);
      if ok {
        sent := sent + [data];
      }
    }
  }

  /** A connection with the given capacity takes one more packet after `count` sent ones. */
  predicate Accepts(capacity: Option<nat>, count: nat) {
    capacity.None? || count < capacity.value
  }

  /** How a send loop stops: sentinel read, a send raised, the client was closed, or it waits on an empty queue. */
  datatype SendEnd = SawEndOfStream | SendFailed | ClientClosed | AwaitingData

  /** What one send loop does: the packets it sends, how many queue items it takes, how it stops. */
  datatype SendTrace = SendTrace(sent: seq<seq<bv8>>, consumed: nat, end: SendEnd)

  /** The queued packets the loop keeps sending after the first: a sentinel closes the client, a failed send too. */
  function StreamPlan(capacity: Option<nat>, count: nat, items: seq<AudioItem>): (t: SendTrace)
    ensures t.consumed <= |items|
    ensures t.end != ClientClosed
    decreases |items|
  {
    if items == [] then SendTrace([], 0, AwaitingData)
    else match items[0]
      case EndOfStream => SendTrace([], 1, SawEndOfStream)
      case Chunk(b) =>
        if !Accepts(capacity, count) then SendTrace([], 1, SendFailed)
        else
          var t := StreamPlan(capacity, count + 1, items[1..]);
          SendTrace([b] + t.sent, 1 + t.consumed, t.end)
  }

  /** `send_audio_loop`: the first packet is sent unless the client is already closed, then the queued ones. */
  function SendPlan(capacity: Option<nat>, count: nat, closed: bool, initial: seq<bv8>, items: seq<AudioItem>): (t: SendTrace)
    ensures t.consumed <= |items|
  {
    if closed then SendTrace([], 0, ClientClosed)
    else if !Accepts(capacity, count) then SendTrace([], 0, SendFailed)
    else
      var t := StreamPlan(capacity, count + 1, items);
      SendTrace([initial] + t.sent, t.consumed, t.end)
  }

  /** The packets carried by audio items, up to the first sentinel. */
  function Payloads(items: seq<AudioItem>): seq<seq<bv8>>
  {
    if items == [] then []
    else match items[0]
      case EndOfStream => []
      case Chunk(b) => [b] + Payloads(items[1..])
  }

  lemma {:induction false} StreamPlanUnlimited(count: nat, items: seq<AudioItem>)
    ensures var t := StreamPlan(None, count, items);
      t.sent == Payloads(items) && t.end != SendFailed &&
      (t.end == SawEndOfStream <==> EndOfStream in items) &&
      (t.end == SawEndOfStream ==> items[t.consumed - 1] == EndOfStream && EndOfStream !in items[..t.consumed - 1]) &&
      (t.end == AwaitingData ==> t.consumed == |items|)
    decreases |items|
  {
    if items != [] && items[0].Chunk? {
      StreamPlanUnlimited(count + 1, items[1..]);
      var t := StreamPlan(None, count + 1, items[1..]);
      assert items == [items[0]] + items[1..];
      if t.end == SawEndOfStream {
        assert items[..1 + t.consumed - 1] == [items[0]] + items[1..][..t.consumed - 1];
      }
    }
  }

  /**
   * With a connection that never fails, the send loop sends the first packet
   * and then every queued packet in order up to the sentinel, and stops right
   * after taking the sentinel, or when the queue runs dry without one.
   */
  lemma SendPlanInOrder(initial: seq<bv8>, items: seq<AudioItem>)
    ensures var t := SendPlan(None, 0, false, initial, items);
      t.sent == [initial] + Payloads(items) &&
      (t.end == SawEndOfStream || t.end == AwaitingData) &&
      (t.end == SawEndOfStream <==> EndOfStream in items) &&
      (t.end == SawEndOfStream ==> items[t.consumed - 1] == EndOfStream && EndOfStream !in items[..t.consumed - 1]) &&
      (t.end == AwaitingData ==> t.consumed == |items|)
  {
    var s := StreamPlan(None, 1, items);
    var t := SendPlan(None, 0, false, initial, items);
    assert t == SendTrace([initial] + s.sent, s.consumed, s.end);
    StreamPlanUnlimited(1, items);
    assert t.sent == [initial] + Payloads(items);
    assert t.end == s.end && t.consumed == s.consumed;
  }

  /** The packets sent are always a prefix of the first packet followed by the queued packets. */
  lemma {:induction false} StreamPlanPrefix(capacity: Option<nat>, count: nat, items: seq<AudioItem>)
    ensures var t := StreamPlan(capacity, count, items);
      |t.sent| <= |Payloads(items)| && t.sent == Payloads(items)[..|t.sent|]
    decreases |items|
  {
    if items != [] && items[0].Chunk? && Accepts(capacity, count) {
      StreamPlanPrefix(capacity, count + 1, items[1..]);
    }
  }

  /**
   * The send loop. Packets are taken from the worker's queue and sent until
   * the sentinel arrives (the client is closed), a send raises (the client is
   * closed) or the queue is empty (the loop is left waiting for data).
   */
  method SendAudioLoop(client: Client, initial: seq<bv8>, input: Fifo<AudioItem>) returns (end: SendEnd)
    modifies client, input
    ensures var t := SendPlan(client.capacity, |old(client.sent)|, old(client.closeFlag), initial, old(input.items));
      end == t.end && client.sent == old(client.sent) + t.sent && input.items == old(input.items)[t.consumed..] &&
      client.closeFlag == (end != AwaitingData)
  {
    if client.closeFlag {
      return ClientClosed;
    }
    var ok := client.SendData(initial);
    if !ok {
      client.Close();
      return SendFailed;
    }
    ghost var sent0 := old(client.sent);
    ghost var items0 := old(input.items);
    ghost var whole := StreamPlan(client.capacity, |sent0| + 1, items0);
    SendLoopEntry(client.capacity, sent0, initial, items0);
    ghost var k := 0;
    while !client.closeFlag
      invariant SendSoFar(whole, items0, k, input.items, sent0 + [initial], client.sent, client.capacity)
      invariant !client.closeFlag
      decreases |items0| - k
    {
      var stop;
      stop, end, k := SendStep(client, input, whole, items0, k, sent0 + [initial]);
      if stop {
        assert client.sent == sent0 + ([initial] + whole.sent);
        return;
      }
    }
    assert false;
  }

  /** Where the send loop starts: the first packet sent, the stream plan still to come. */
  lemma SendLoopEntry(capacity: Option<nat>, sent0: seq<seq<bv8>>, initial: seq<bv8>, items0: seq<AudioItem>)
    requires Accepts(capacity, |sent0|)
    ensures var whole := StreamPlan(capacity, |sent0| + 1, items0);
      SendPlan(capacity, |sent0|, false, initial, items0) == SendTrace([initial] + whole.sent, whole.consumed, whole.end) &&
      SendSoFar(whole, items0, 0, items0, sent0 + [initial], sent0 + [initial], capacity)
  {
    var whole := StreamPlan(capacity, |sent0| + 1, items0);
    assert |sent0 + [initial]| == |sent0| + 1;
    assert items0[0..] == items0;
  }

  /**
   * The send loop's state after `taken` queue items: `whole`, the stream from
   * the start, is what was sent so far followed by what the rest of the queue
   * gives.
   */
  ghost predicate SendSoFar(whole: SendTrace, items0: seq<AudioItem>, taken: nat, items: seq<AudioItem>,
                            before: seq<seq<bv8>>, sent: seq<seq<bv8>>, capacity: Option<nat>) {
    taken <= |items0| && items == items0[taken..] &&
    var rest := StreamPlan(capacity, |sent|, items);
    whole.end == rest.end && whole.consumed == taken + rest.consumed && before + whole.sent == sent + rest.sent
  }

  /** One turn of the send loop: take an item, then stop on the sentinel or a failed send, or go on. */
  method SendStep(client: Client, input: Fifo<AudioItem>, ghost whole: SendTrace, ghost items0: seq<AudioItem>,
                  ghost taken: nat, ghost before: seq<seq<bv8>>)
    returns (stop: bool, end: SendEnd, ghost taken': nat)
    requires SendSoFar(whole, items0, taken, input.items, before, client.sent, client.capacity)
    requires !client.closeFlag
    modifies client, input
    ensures stop ==>
      (end == whole.end && client.sent == before + whole.sent && input.items == items0[whole.consumed..] &&
       client.closeFlag == (end != AwaitingData))
    ensures !stop ==>
      (taken < taken' && !client.closeFlag && SendSoFar(whole, items0, taken', input.items, before, client.sent, client.capacity))
  {
    SendSoFarStep(whole, items0, taken, input.items, before, client.sent, client.capacity);
    if input.Empty() {
      return true, AwaitingData, taken;
    }
    var data := input.Get();
    taken' := taken + 1;
    if data == EndOfStream {
      client.Close();
      return true, SawEndOfStream, taken';
    }
    var ok := client.SendData(data.bytes);
    if !ok {
      client.Close();
      return true, SendFailed, taken';
    }
    return false, AwaitingData, taken';
  }

  /** What the send loop's next turn does to its state, case by case. */
  lemma SendSoFarStep(whole: SendTrace, items0: seq<AudioItem>, taken: nat, items: seq<AudioItem>,
                      before: seq<seq<bv8>>, sent: seq<seq<bv8>>, capacity: Option<nat>)
    requires SendSoFar(whole, items0, taken, items, before, sent, capacity)
    ensures items == [] ==>
      whole.end == AwaitingData && before + whole.sent == sent && items == items0[whole.consumed..]
    ensures items != [] ==> taken + 1 <= |items0| && items[1..] == items0[taken + 1..]
    ensures items != [] && items[0] == EndOfStream ==>
      whole.end == SawEndOfStream && before + whole.sent == sent && whole.consumed == taken + 1
    ensures items != [] && items[0].Chunk? && !Accepts(capacity, |sent|) ==>
      whole.end == SendFailed && before + whole.sent == sent && whole.consumed == taken + 1
    ensures items != [] && items[0].Chunk? && Accepts(capacity, |sent|) ==>
      SendSoFar(whole, items0, taken + 1, items[1..], before, sent + [items[0].bytes], capacity)
  {
    if items == [] {
      assert sent + [] == sent;
      assert items0[taken..] == [] && taken == |items0|;
    } else {
      assert items0[taken..][1..] == items0[taken + 1..];
      if items[0].Chunk? && Accepts(capacity, |sent|) {
        var r := StreamPlan(capacity, |sent| + 1, items[1..]);
        assert StreamPlan(capacity, |sent|, items) == SendTrace([items[0].bytes] + r.sent, 1 + r.consumed, r.end);
        assert sent + ([items[0].bytes] + r.sent) == (sent + [items[0].bytes]) + r.sent;
      } else {
        assert sent + [] == sent;
      }
    }
  }

  // ---------------------------------------------------------------------
  // start_realtime_session

  /** How the session loop stands once the queue has nothing more for it. */
  datatype SessionEnd =
    | Ended                 // the sentinel came where a first packet was awaited
    | AwaitingFirstPacket   // suspended, waiting for the packet that opens a new connection
    | Streaming             // a connection is open and its send loop waits for data

  datatype SessionTrace = SessionTrace(connections: seq<seq<seq<bv8>>>, end: SessionEnd, consumed: nat)

  /** The capacity of the `n`-th connection: listed ones in order, any later one never fails. */
  function CapacityOf(capacities: seq<Option<nat>>, n: nat): Option<nat> {
    if n < |capacities| then capacities[n] else None
  }

  /**
   * The session loop as written: wait for a first packet (the sentinel ends
   * the loop), open a connection for it, stream until the send loop stops,
   * then go back to waiting for a first packet. `CapacityOf(capacities, n)` is the
   * capacity of the `n`-th connection.
   */
  function SessionPlan(items: seq<AudioItem>, n: nat, capacities: seq<Option<nat>>): (t: SessionTrace)
    ensures t.consumed <= |items|
    decreases |items|
  {
    if items == [] then SessionTrace([], AwaitingFirstPacket, 0)
    else match items[0]
      case EndOfStream => SessionTrace([], Ended, 1)
      case Chunk(first) =>
        var s := SendPlan(CapacityOf(capacities, n), 0, false, first, items[1..]);
        if s.end == AwaitingData then SessionTrace([s.sent], Streaming, 1 + s.consumed)
        else
          var rest := SessionPlan(items[1 + s.consumed..], n + 1, capacities);
          SessionTrace([s.sent] + rest.connections, rest.end, 1 + s.consumed + rest.consumed)
  }

  /** The slot in the session where the current client is published (`speech_client`). */
  class ClientSlot {
    var client: Client?

    constructor ()
      ensures client == null
    {
      client := null;
    }
  }

  /** A trace preceded by the connections made and the items taken before it. */
  function After(connections: seq<seq<seq<bv8>>>, taken: nat, t: SessionTrace): (r: SessionTrace)
    ensures r.end == t.end && r.consumed == taken + t.consumed
  {
    SessionTrace(connections + t.connections, t.end, taken + t.consumed)
  }

  lemma AfterAppend(a: seq<seq<seq<bv8>>>, k: nat, b: seq<seq<seq<bv8>>>, j: nat, t: SessionTrace)
    ensures After(a, k, After(b, j, t)) == After(a + b, k + j, t)
  {
    assert a + (b + t.connections) == (a + b) + t.connections;
  }

  /** The client was opened for the language code `code` and without customizations. */
  predicate OpenedFor(client: Client, code: Option<string>) {
    client.parameters.languageCode == code && client.parameters.customizations == None
  }

  /** What the slot holds while the session runs: the earlier client until a first connection, then an opened one. */
  predicate Published(client: Client?, previous: Client?, connections: seq<seq<seq<bv8>>>, code: Option<string>) {
    if connections == [] then client == previous else client != null && OpenedFor(client, code)
  }

  /**
   * The session loop's state after `done` items of `items0`: the connections
   * so far, followed by what the loop does with the rest, make the whole plan.
   */
  ghost predicate SessionSoFar(whole: SessionTrace, items0: seq<AudioItem>, done: nat, items: seq<AudioItem>,
                               connections: seq<seq<seq<bv8>>>, capacities: seq<Option<nat>>) {
    done <= |items0| && items == items0[done..] &&
    whole == After(connections, done, SessionPlan(items, |connections|, capacities))
  }

  /**
   * `start_realtime_session` over what the worker's queue holds. It returns
   * the packets each connection it opened sent, connection by connection; the
   * last client opened is left published in the slot, and the loop is left
   * suspended when the queue is empty.
   */
  method StartRealtimeSession(language: string, compartmentId: string, input: Fifo<AudioItem>, slot: ClientSlot,
                              capacities: seq<Option<nat>>)
    returns (end: SessionEnd, connections: seq<seq<seq<bv8>>>)
    modifies input, slot
    ensures var t := SessionPlan(old(input.items), 0, capacities);
      end == t.end && input.items == old(input.items)[t.consumed..] && connections == t.connections
    ensures connections == [] ==> slot.client == old(slot.client)
    ensures connections != [] ==> slot.client != null && OpenedFor(slot.client, LanguageCode(language))
    ensures old(input.items) != [] && old(input.items)[0] == EndOfStream ==> end == Ended && connections == []
  {
    var code := LanguageCode(language);
    ghost var items0 := old(input.items);
    ghost var whole := SessionPlan(items0, 0, capacities);
    ghost var done := 0;
    ghost var previous := slot.client;
    connections := [];
    while true
      invariant SessionSoFar(whole, items0, done, input.items, connections, capacities)
      invariant Published(slot.client, previous, connections, code)
      decreases |items0| - done
    {
      var stop;
      stop, end, connections, done :=
        SessionStep(code, compartmentId, input, slot, capacities, connections, whole, items0, done, previous);
      if stop {
        return;
      }
    }
  }

  /**
   * One turn of the session loop as the loop sees it: the pass for the next
   * connection, its packets appended to the ones before.
   */
  method SessionStep(code: Option<string>, compartmentId: string, input: Fifo<AudioItem>, slot: ClientSlot,
                     capacities: seq<Option<nat>>, connections: seq<seq<seq<bv8>>>,
                     ghost whole: SessionTrace, ghost items0: seq<AudioItem>, ghost done: nat, ghost previous: Client?)
    returns (stop: bool, end: SessionEnd, connections': seq<seq<seq<bv8>>>, ghost done': nat)
    requires SessionSoFar(whole, items0, done, input.items, connections, capacities)
    requires Published(slot.client, previous, connections, code)
    modifies input, slot
    ensures stop ==> (done' <= |items0| && input.items == items0[done'..] &&
                      whole == SessionTrace(connections', end, done'))
    ensures !stop ==> done < done' && SessionSoFar(whole, items0, done', input.items, connections', capacities)
    ensures Published(slot.client, previous, connections', code)
  {
    ghost var items1 := input.items;
    ghost var client0 := slot.client;
    var mine;
    ghost var taken;
    stop, end, mine, taken := SessionPass(|connections|, code, compartmentId, input, slot, capacities);
    connections' := connections + mine;
    done' := done + taken;
    SessionAdvance(whole, items0, done, items1, input.items, connections, mine, taken, capacities, stop, end);
    PublishedAppend(slot.client, client0, previous, connections, mine, code);
  }

  /**
   * What one pass for the `n`-th connection did, on values: it took `taken`
   * items of `items1`, leaving `items2`, and made the connections `mine`;
   * the session plan from `items1` is that pass followed by the plan from
   * `items2` unless the pass stopped the loop.
   */
  ghost predicate PassOutcome(items1: seq<AudioItem>, items2: seq<AudioItem>, n: nat, capacities: seq<Option<nat>>,
                              stop: bool, end: SessionEnd, mine: seq<seq<seq<bv8>>>, taken: nat) {
    taken <= |items1| && items2 == items1[taken..] && |mine| <= 1 &&
    (stop ==> SessionPlan(items1, n, capacities) == After(mine, taken, SessionTrace([], end, 0))) &&
    (!stop ==> taken > 0 && |mine| == 1 &&
               SessionPlan(items1, n, capacities) == After(mine, taken, SessionPlan(items2, n + 1, capacities)))
  }

  /** The bookkeeping of one turn: what the pass took and made extends what the loop had. */
  lemma SessionAdvance(whole: SessionTrace, items0: seq<AudioItem>, done: nat, items1: seq<AudioItem>,
                       items2: seq<AudioItem>, connections: seq<seq<seq<bv8>>>, mine: seq<seq<seq<bv8>>>,
                       taken: nat, capacities: seq<Option<nat>>, stop: bool, end: SessionEnd)
    requires SessionSoFar(whole, items0, done, items1, connections, capacities)
    requires PassOutcome(items1, items2, |connections|, capacities, stop, end, mine, taken)
    ensures stop ==> (done + taken <= |items0| && items2 == items0[done + taken..] &&
                      whole == SessionTrace(connections + mine, end, done + taken))
    ensures !stop ==> done < done + taken && SessionSoFar(whole, items0, done + taken, items2, connections + mine, capacities)
  {
    assert items0[done..][taken..] == items0[done + taken..];
    var next := if stop then SessionTrace([], end, 0) else SessionPlan(items2, |connections| + 1, capacities);
    AfterAppend(connections, done, mine, taken, next);
    assert connections + mine + [] == connections + mine;
  }

  /** What a pass publishes keeps the slot as the session loop describes it. */
  lemma PublishedAppend(client: Client?, between: Client?, previous: Client?, connections: seq<seq<seq<bv8>>>,
                        mine: seq<seq<seq<bv8>>>, code: Option<string>)
    requires Published(between, previous, connections, code)
    requires Published(client, between, mine, code)
    ensures Published(client, previous, connections + mine, code)
  {
    if mine == [] {
      assert connections + mine == connections;
    }
  }

  /**
   * One pass of the session loop for the `n`-th connection: wait for a first
   * packet, stop on the sentinel, otherwise connect and stream. It stops the
   * loop when the queue is empty where a first packet is awaited, on the
   * sentinel there, or when the connection's send loop is left waiting.
   * `mine` holds the packets of the connection it opened, if it opened one,
   * and the slot then holds that connection's client.
   */
  method SessionPass(n: nat, code: Option<string>, compartmentId: string, input: Fifo<AudioItem>, slot: ClientSlot,
                     capacities: seq<Option<nat>>)
    returns (stop: bool, end: SessionEnd, mine: seq<seq<seq<bv8>>>, ghost taken: nat)
    modifies input, slot
    ensures PassOutcome(old(input.items), input.items, n, capacities, stop, end, mine, taken)
    ensures Published(slot.client, old(slot.client), mine, code)
  {
    if input.Empty() {
      return true, AwaitingFirstPacket, [], 0;
    }
    ghost var before := input.items;
    var first := input.Get();
    if first == EndOfStream {
      return true, Ended, [], 1;
    }
    SessionPlanStep(before, n, capacities);
    var client, sendEnd := Connect(first.bytes, code, compartmentId, CapacityOf(capacities, n), input, slot);
    mine := [client.sent];
    ghost var s := SendPlan(CapacityOf(capacities, n), 0, false, first.bytes, before[1..]);
    taken := 1 + s.consumed;
    assert input.items == before[taken..];
    if sendEnd == AwaitingData {
      return true, Streaming, mine, taken;
    }
    return false, Ended, mine, taken;
  }

  /**
   * One connection: a client with the session's parameters is created and
   * published, and its send loop streams from the queue until it stops.
   */
  method Connect(first: seq<bv8>, code: Option<string>, compartmentId: string, capacity: Option<nat>,
                 input: Fifo<AudioItem>, slot: ClientSlot)
    returns (client: Client, end: SendEnd)
    modifies input, slot
    ensures fresh(client) && slot.client == client
    ensures client.parameters.languageCode == code && client.parameters.customizations == None
    ensures var s := SendPlan(capacity, 0, false, first, old(input.items));
      end == s.end && client.sent == s.sent && input.items == old(input.items)[s.consumed..]
  {
    var parameters := GetRealtimeParameters([], compartmentId, code);
    client := new Client(parameters, capacity);
    slot.client := client;
    end := SendAudioLoop(client, first, input);
  }

  /** One pass of the session loop: the first connection's packets, then the loop on what remains. */
  lemma SessionPlanStep(items: seq<AudioItem>, n: nat, capacities: seq<Option<nat>>)
    requires items != [] && items[0].Chunk?
    ensures var s := SendPlan(CapacityOf(capacities, n), 0, false, items[0].bytes, items[1..]);
      var t := SessionPlan(items, n, capacities);
      if s.end == AwaitingData then t == SessionTrace([s.sent], Streaming, 1 + s.consumed)
      else
        var rest := SessionPlan(items[1 + s.consumed..], n + 1, capacities);
        t == SessionTrace([s.sent] + rest.connections, rest.end, 1 + s.consumed + rest.consumed)
  {
  }

  /** `stop_realtime_session`: the published client, if any, is closed and the slot emptied. */
  method StopRealtimeSession(slot: ClientSlot)
    modifies slot, slot.client
    ensures slot.client == null
    ensures old(slot.client) != null ==> old(slot.client).closeFlag && old(slot.client).sent == old(slot.client.sent)
  {
    var client := slot.client;
    if client != null {
      client.Close();
      slot.client := null;
    }
  }

  // ---------------------------------------------------------------------
  // Properties of the session loop

  /**
   * A stream that closes normally, one connection's worth of packets followed
   * by the sentinel, is consumed by the send loop; the session loop then waits
   * for a first packet again instead of ending, since nothing reads a second
   * sentinel into the queue.
   */
  lemma StreamSentinelLeavesLoopWaiting(first: seq<bv8>, chunks: seq<seq<bv8>>, capacities: seq<Option<nat>>)
    requires CapacityOf(capacities, 0) == None
    ensures var t := SessionPlan([Chunk(first)] + Chunks(chunks) + [EndOfStream], 0, capacities);
      t.end == AwaitingFirstPacket && t.connections == [[first] + chunks]
  {
    var items := [Chunk(first)] + Chunks(chunks) + [EndOfStream];
    var tail := Chunks(chunks) + [EndOfStream];
    assert items[1..] == tail;
    SendPlanInOrder(first, tail);
    PayloadsOfChunks(chunks, [EndOfStream]);
    assert tail[|chunks|] == EndOfStream;
    var s := SendPlan(None, 0, false, first, tail);
    assert EndOfStream !in tail[..|chunks|] by { assert tail[..|chunks|] == Chunks(chunks); }
    assert s.consumed == |chunks| + 1;
    assert items[1 + s.consumed..] == [];
  }

  /**
   * The session loop as evidently intended: a sentinel read by the send loop
   * ends the session too, instead of sending it back to wait for another
   * first packet.
   */
  function SessionPlanStopping(items: seq<AudioItem>, n: nat, capacities: seq<Option<nat>>): (t: SessionTrace)
    ensures t.consumed <= |items|
    decreases |items|
  {
    if items == [] then SessionTrace([], AwaitingFirstPacket, 0)
    else match items[0]
      case EndOfStream => SessionTrace([], Ended, 1)
      case Chunk(first) =>
        var s := SendPlan(CapacityOf(capacities, n), 0, false, first, items[1..]);
        if s.end == AwaitingData then SessionTrace([s.sent], Streaming, 1 + s.consumed)
        else if s.end == SawEndOfStream then SessionTrace([s.sent], Ended, 1 + s.consumed)
        else
          var rest := SessionPlanStopping(items[1 + s.consumed..], n + 1, capacities);
          SessionTrace([s.sent] + rest.connections, rest.end, 1 + s.consumed + rest.consumed)
  }

  /**
   * With connections that never fail, the intended session loop ends exactly
   * when a sentinel was queued, having taken every item up to and including
   * the first one, and it sends every packet before that sentinel.
   */
  lemma StoppingEndsOnSentinel(items: seq<AudioItem>, n: nat)
    ensures var t := SessionPlanStopping(items, n, []);
      && (t.end == Ended <==> EndOfStream in items)
      && (t.end == Ended ==> items[t.consumed - 1] == EndOfStream && EndOfStream !in items[..t.consumed - 1])
      && (items != [] && items[0].Chunk? ==> t.connections == [[items[0].bytes] + Payloads(items[1..])])
  {
    if items != [] && items[0].Chunk? {
      var tail := items[1..];
      SendPlanInOrder(items[0].bytes, tail);
      var s := SendPlan(None, 0, false, items[0].bytes, tail);
      assert items == [items[0]] + tail;
      if s.end == SawEndOfStream {
        assert items[..1 + s.consumed - 1] == [items[0]] + tail[..s.consumed - 1];
      }
    }
  }

  /** The stream of the finding: under the intended loop it ends the session after its one connection. */
  lemma StreamSentinelEndsStoppingLoop(first: seq<bv8>, chunks: seq<seq<bv8>>)
    ensures var t := SessionPlanStopping([Chunk(first)] + Chunks(chunks) + [EndOfStream], 0, []);
      t.end == Ended && t.connections == [[first] + chunks]
  {
    var items := [Chunk(first)] + Chunks(chunks) + [EndOfStream];
    var tail := Chunks(chunks) + [EndOfStream];
    assert items[1..] == tail;
    assert items[|items| - 1] == EndOfStream;
    StoppingEndsOnSentinel(items, 0);
    PayloadsOfChunks(chunks, [EndOfStream]);
  }

  lemma {:induction false} PayloadsOfChunks(chunks: seq<seq<bv8>>, rest: seq<AudioItem>)
    requires rest == [] || rest[0] == EndOfStream
    ensures Payloads(Chunks(chunks) + rest) == chunks
  {
    if chunks != [] {
      assert (Chunks(chunks) + rest)[1..] == Chunks(chunks[1..]) + rest;
      PayloadsOfChunks(chunks[1..], rest);
    }
  }
}
