/**
 * The voice-chat page as the UI thread runs it: the session-state keys it
 * owns, the transcription results it drains into the conversation log, the
 * single-flight hand-off of user turns to the language model, the assistant
 * turn it appends, the autoplay marker, and the cleanup that runs when the
 * microphone stream stops. The page's `st.session_state` entries are the
 * fields of one `VoiceSession` object; its three `queue.Queue` objects are
 * `Fifo` objects shared with the audio processor and the recognition worker.
 */
module SpeechPage {
  import opened Wrappers
  import opened Strings
  import opened Queues
  import SpeechRealtime

  /** How many polling passes one page run makes while the microphone is live. */
  const MaxProcessingLoops: nat := 100

  /** The session-state keys `initialize_session_state` provides defaults for. */
  datatype Key =
    | ConversationKey | AudioQueueKey | ResultQueueKey | SessionIdKey | LlmQueueKey | ProcessingLlmKey
    | CurrentPartialKey | WasPlayingKey | AutoplayIdKey | PlayingAudioIdKey | PlayingAudioTimeKey

  /** How many entries the defaults dictionary has. */
  const NumKeys: nat := 11

  /** The key at position `n` of the defaults dictionary. */
  function KeyAt(n: nat): Key
    requires n < NumKeys
  {
    if n == 0 then ConversationKey else if n == 1 then AudioQueueKey else if n == 2 then ResultQueueKey
    else if n == 3 then SessionIdKey else if n == 4 then LlmQueueKey else if n == 5 then ProcessingLlmKey
    else if n == 6 then CurrentPartialKey else if n == 7 then WasPlayingKey else if n == 8 then AutoplayIdKey
    else if n == 9 then PlayingAudioIdKey else PlayingAudioTimeKey
  }

  /** The position of a key in the defaults dictionary. */
  function KeyIndex(k: Key): nat {
    match k
    case ConversationKey => 0
    case AudioQueueKey => 1
    case ResultQueueKey => 2
    case SessionIdKey => 3
    case LlmQueueKey => 4
    case ProcessingLlmKey => 5
    case CurrentPartialKey => 6
    case WasPlayingKey => 7
    case AutoplayIdKey => 8
    case PlayingAudioIdKey => 9
    case PlayingAudioTimeKey => 10
  }

  /** Every key has exactly one position: the dictionary lists each key once. */
  lemma KeyAtIndex(k: Key)
    ensures KeyIndex(k) < NumKeys && KeyAt(KeyIndex(k)) == k
  {
  }

  lemma KeyIndexAt(n: nat)
    requires n < NumKeys
    ensures KeyIndex(KeyAt(n)) == n
  {
  }

  datatype Role = User | Assistant

  /**
   * One entry of the conversation log. `timestamp` is the `%H:%M:%S` clock
   * reading, which also serves as the assistant turn's autoplay id; `audio`
   * is the synthesised speech (user turns carry none).
   */
  datatype Turn = Turn(role: Role, content: string, timestamp: string, audio: Option<seq<bv8>>)

  /** What the recognition worker puts on the result queue: `("final", t)`, `("partial", t)` or `("error", t)`. */
  datatype ResultMsg = Final(text: string) | Partial(text: string) | Failure(text: string)

  /** The worker's `on_final` and `on_partial` callbacks: one result message per recognised text. */
  function FromRecognized(r: SpeechRealtime.Recognized): (m: ResultMsg)
    ensures r.FinalText? <==> m.Final?
    ensures !m.Failure? && m.text == r.text
  {
    match r
    case FinalText(t) => Final(t)
    case PartialText(t) => Partial(t)
  }

  /**
   * The page's session state as a value: which keys exist, and what the
   * entries hold (a queue by its contents). `hasWorker` is whether the
   * `speech_oci_thread` entry exists.
   */
  datatype PageState = PageState(
    present: set<Key>,
    conversation: seq<Turn>,
    audio: seq<SpeechRealtime.AudioItem>,
    results: seq<ResultMsg>,
    sessionId: int,
    llm: seq<string>,
    processingLlm: bool,
    partial: string,
    wasPlaying: bool,
    autoplayId: Option<string>,
    playingAudioId: Option<string>,
    playingAudioTime: real,
    hasWorker: bool)

  // ---------------------------------------------------------------------
  // initialize_session_state

  /** The entry of `k` is the one `st.session_state[k] = default` writes, and it is missing. */
  predicate Fills(s: PageState, k: Key, key: Key) {
    k == key && k !in s.present
  }

  /** `st.session_state[k] = default` for a missing key `k`; a key already present is left alone. */
  function SetMissing(s: PageState, k: Key): PageState {
    if k in s.present then s
    else
      PageState(
        s.present + {k},
        if k == ConversationKey then [] else s.conversation,
        if k == AudioQueueKey then [] else s.audio,
        if k == ResultQueueKey then [] else s.results,
        if k == SessionIdKey then 0 else s.sessionId,
        if k == LlmQueueKey then [] else s.llm,
        if k == ProcessingLlmKey then false else s.processingLlm,
        if k == CurrentPartialKey then "" else s.partial,
        if k == WasPlayingKey then false else s.wasPlaying,
        if k == AutoplayIdKey then None else s.autoplayId,
        if k == PlayingAudioIdKey then None else s.playingAudioId,
        if k == PlayingAudioTimeKey then 0.0 else s.playingAudioTime,
        s.hasWorker)
  }

  /** The keys the defaults loop has visited after `i` turns. */
  function Visited(i: nat): set<Key> {
    set n | 0 <= n < i && n < NumKeys :: KeyAt(n)
  }

  /** A key has been visited after `i` turns exactly when its position is below `i`. */
  lemma VisitedIff(i: nat, k: Key)
    ensures k in Visited(i) <==> KeyIndex(k) < i
  {
    KeyAtIndex(k);
    if k in Visited(i) {
      var n :| 0 <= n < i && n < NumKeys && KeyAt(n) == k;
      KeyIndexAt(n);
    }
  }

  /** The entry of `k` is given its default by the first `i` turns of the loop. */
  predicate Defaulted(s: PageState, k: Key, i: nat) {
    KeyIndex(k) < i && k !in s.present
  }

  /** The state after `i` turns of the defaults loop over `s`. */
  function Upto(s: PageState, i: nat): PageState {
    PageState(
      s.present + Visited(i),
      if Defaulted(s, ConversationKey, i) then [] else s.conversation,
      if Defaulted(s, AudioQueueKey, i) then [] else s.audio,
      if Defaulted(s, ResultQueueKey, i) then [] else s.results,
      if Defaulted(s, SessionIdKey, i) then 0 else s.sessionId,
      if Defaulted(s, LlmQueueKey, i) then [] else s.llm,
      if Defaulted(s, ProcessingLlmKey, i) then false else s.processingLlm,
      if Defaulted(s, CurrentPartialKey, i) then "" else s.partial,
      if Defaulted(s, WasPlayingKey, i) then false else s.wasPlaying,
      if Defaulted(s, AutoplayIdKey, i) then None else s.autoplayId,
      if Defaulted(s, PlayingAudioIdKey, i) then None else s.playingAudioId,
      if Defaulted(s, PlayingAudioTimeKey, i) then 0.0 else s.playingAudioTime,
      s.hasWorker)
  }

  /** Every session-state key the page owns. */
  const AllKeys: set<Key> := {
    ConversationKey, AudioQueueKey, ResultQueueKey, SessionIdKey, LlmQueueKey, ProcessingLlmKey,
    CurrentPartialKey, WasPlayingKey, AutoplayIdKey, PlayingAudioIdKey, PlayingAudioTimeKey
  }

  /**
   * `initialize_session_state()` on the state `s`: every key of the defaults
   * is present afterwards; an entry that existed keeps its value and a
   * missing one holds its default. The worker handle is not one of them.
   */
  function Initialized(s: PageState): PageState {
    PageState(
      s.present + AllKeys,
      if ConversationKey in s.present then s.conversation else [],
      if AudioQueueKey in s.present then s.audio else [],
      if ResultQueueKey in s.present then s.results else [],
      if SessionIdKey in s.present then s.sessionId else 0,
      if LlmQueueKey in s.present then s.llm else [],
      if ProcessingLlmKey in s.present then s.processingLlm else false,
      if CurrentPartialKey in s.present then s.partial else "",
      if WasPlayingKey in s.present then s.wasPlaying else false,
      if AutoplayIdKey in s.present then s.autoplayId else None,
      if PlayingAudioIdKey in s.present then s.playingAudioId else None,
      if PlayingAudioTimeKey in s.present then s.playingAudioTime else 0.0,
      s.hasWorker)
  }

  /** Before the loop nothing has changed. */
  lemma UptoStart(s: PageState)
    ensures Upto(s, 0) == s
  {
    assert Visited(0) == {};
  }

  /** One turn of the defaults loop sets the next key if it is missing. */
  lemma UptoStep(s: PageState, i: nat)
    requires i < NumKeys
    ensures SetMissing(Upto(s, i), KeyAt(i)) == Upto(s, i + 1)
  {
    if KeyAt(i) in Upto(s, i).present {
      UptoStepPresent(s, i);
    } else {
      UptoStepMissing(s, i);
    }
  }

  /** A turn whose key already exists changes nothing. */
  lemma UptoStepPresent(s: PageState, i: nat)
    requires i < NumKeys && KeyAt(i) in Upto(s, i).present
    ensures Upto(s, i) == Upto(s, i + 1)
  {
    VisitedStep(i);
    DefaultedStep(s, i, ConversationKey);
    DefaultedStep(s, i, AudioQueueKey);
    DefaultedStep(s, i, ResultQueueKey);
    DefaultedStep(s, i, SessionIdKey);
    DefaultedStep(s, i, LlmQueueKey);
    DefaultedStep(s, i, ProcessingLlmKey);
    DefaultedStep(s, i, CurrentPartialKey);
    DefaultedStep(s, i, WasPlayingKey);
    DefaultedStep(s, i, AutoplayIdKey);
    DefaultedStep(s, i, PlayingAudioIdKey);
    DefaultedStep(s, i, PlayingAudioTimeKey);
  }

  /** A turn whose key is missing stores that key's default. */
  lemma UptoStepMissing(s: PageState, i: nat)
    requires i < NumKeys && KeyAt(i) !in Upto(s, i).present
    ensures SetMissing(Upto(s, i), KeyAt(i)) == Upto(s, i + 1)
  {
    VisitedStep(i);
    DefaultedStep(s, i, ConversationKey);
    DefaultedStep(s, i, AudioQueueKey);
    DefaultedStep(s, i, ResultQueueKey);
    DefaultedStep(s, i, SessionIdKey);
    DefaultedStep(s, i, LlmQueueKey);
    DefaultedStep(s, i, ProcessingLlmKey);
    DefaultedStep(s, i, CurrentPartialKey);
    DefaultedStep(s, i, WasPlayingKey);
    DefaultedStep(s, i, AutoplayIdKey);
    DefaultedStep(s, i, PlayingAudioIdKey);
    DefaultedStep(s, i, PlayingAudioTimeKey);
  }

  /** Turn `i` visits the key at position `i`. */
  lemma VisitedStep(i: nat)
    requires i < NumKeys
    ensures Visited(i + 1) == Visited(i) + {KeyAt(i)}
  {
    KeyIndexAt(i);
    forall key ensures key in Visited(i + 1) <==> key in Visited(i) || key == KeyAt(i) {
      VisitedIff(i, key);
      VisitedIff(i + 1, key);
      KeyAtIndex(key);
    }
  }

  /** An entry is defaulted by turn `i + 1` when turn `i` fills it or an earlier turn did. */
  lemma DefaultedStep(s: PageState, i: nat, key: Key)
    requires i < NumKeys
    ensures Defaulted(s, key, i + 1) <==> Fills(Upto(s, i), KeyAt(i), key) || Defaulted(s, key, i)
  {
    KeyIndexAt(i);
    VisitedIff(i, key);
    KeyAtIndex(key);
  }

  /** After the whole loop the state is `Initialized`. */
  lemma UptoEnd(s: PageState)
    ensures Upto(s, NumKeys) == Initialized(s)
  {
    VisitedAll();
    DefaultedAll(s, ConversationKey);
    DefaultedAll(s, AudioQueueKey);
    DefaultedAll(s, ResultQueueKey);
    DefaultedAll(s, SessionIdKey);
    DefaultedAll(s, LlmQueueKey);
    DefaultedAll(s, ProcessingLlmKey);
    DefaultedAll(s, CurrentPartialKey);
    DefaultedAll(s, WasPlayingKey);
    DefaultedAll(s, AutoplayIdKey);
    DefaultedAll(s, PlayingAudioIdKey);
    DefaultedAll(s, PlayingAudioTimeKey);
  }

  /** The whole loop visits every key. */
  lemma VisitedAll()
    ensures Visited(NumKeys) == AllKeys
  {
    forall k ensures k in Visited(NumKeys) {
      VisitedIff(NumKeys, k);
      KeyAtIndex(k);
    }
  }

  /** After the whole loop exactly the missing entries have been defaulted. */
  lemma DefaultedAll(s: PageState, k: Key)
    ensures Defaulted(s, k, NumKeys) <==> k !in s.present
  {
    KeyAtIndex(k);
  }

  /** Running `initialize_session_state` again changes nothing. */
  lemma InitializedIdempotent(s: PageState)
    ensures Initialized(Initialized(s)) == Initialized(s)
  {
    var r := Initialized(s);
    assert r.present + AllKeys == r.present;
  }

  /** When every key is already present, `initialize_session_state` leaves the state as it is. */
  lemma InitializedWhenComplete(s: PageState)
    requires AllKeys <= s.present
    ensures Initialized(s) == s
  {
    assert s.present + AllKeys == s.present;
  }

  // ---------------------------------------------------------------------
  // Transcription results

  /**
   * The page's handling of one result message stamped `stamp`: a final text
   * becomes a user turn, is queued for the language model unless a response
   * is being produced, and clears the partial; a partial text replaces the
   * partial; an error is shown and changes nothing.
   */
  function ApplyResult(s: PageState, m: ResultMsg, stamp: string): PageState {
    match m
    case Final(t) =>
      s.(conversation := s.conversation + [Turn(User, t, stamp, None)],
         llm := if s.processingLlm then s.llm else s.llm + [t],
         partial := "")
    case Partial(t) => s.(partial := t)
    case Failure(_) => s
  }

  /** The state after handling `ms` in order, the message at position `n` stamped `clock(n)`. */
  function ApplyAll(s: PageState, ms: seq<ResultMsg>, clock: nat -> string): PageState
    decreases |ms|
  {
    if ms == [] then s
    else ApplyResult(ApplyAll(s, ms[..|ms| - 1], clock), ms[|ms| - 1], clock(|ms| - 1))
  }

  /** The texts of the final messages among `ms`, in order. */
  function FinalTexts(ms: seq<ResultMsg>): seq<string> {
    if ms == [] then []
    else FinalTexts(ms[..|ms| - 1]) + (if ms[|ms| - 1].Final? then [ms[|ms| - 1].text] else [])
  }

  /** The last message among `ms` that carries a recognised text. */
  function LastText(ms: seq<ResultMsg>): (r: Option<ResultMsg>)
    ensures r.Some? ==> !r.value.Failure? && r.value in ms
    ensures r.None? <==> forall i :: 0 <= i < |ms| ==> ms[i].Failure?
  {
    if ms == [] then None
    else if !ms[|ms| - 1].Failure? then Some(ms[|ms| - 1])
    else LastText(ms[..|ms| - 1])
  }

  /** The contents of turns. */
  function Contents(turns: seq<Turn>): (r: seq<string>)
    ensures |r| == |turns| && forall i :: 0 <= i < |turns| ==> r[i] == turns[i].content
  {
    seq(|turns|, i requires 0 <= i < |turns| => turns[i].content)
  }

  /** The turns handling `ms` appends: one user turn per final, with that final's text, in order. */
  lemma {:induction false} ApplyAllConversation(s: PageState, ms: seq<ResultMsg>, clock: nat -> string)
    ensures var c := ApplyAll(s, ms, clock).conversation;
      && |c| == |s.conversation| + |FinalTexts(ms)|
      && c[..|s.conversation|] == s.conversation
      && Contents(c[|s.conversation|..]) == FinalTexts(ms)
      && forall i :: |s.conversation| <= i < |c| ==> c[i].role == User && c[i].audio.None?
    decreases |ms|
  {
    if ms != [] {
      var init := ms[..|ms| - 1];
      var m := ms[|ms| - 1];
      ApplyAllConversation(s, init, clock);
      var c0 := ApplyAll(s, init, clock).conversation;
      var c := ApplyAll(s, ms, clock).conversation;
      var n := |s.conversation|;
      if m.Final? {
        assert c == c0 + [Turn(User, m.text, clock(|ms| - 1), None)];
        assert c[n..] == c0[n..] + [c[|c| - 1]];
        assert Contents(c[n..]) == Contents(c0[n..]) + [m.text];
      } else {
        assert c == c0;
      }
    }
  }

  /** Handling `ms` queues its finals for the language model exactly when no response is being produced. */
  lemma {:induction false} ApplyAllLlm(s: PageState, ms: seq<ResultMsg>, clock: nat -> string)
    ensures ApplyAll(s, ms, clock).llm == if s.processingLlm then s.llm else s.llm + FinalTexts(ms)
    ensures ApplyAll(s, ms, clock).processingLlm == s.processingLlm
    decreases |ms|
  {
    if ms != [] {
      ApplyAllLlm(s, ms[..|ms| - 1], clock);
    }
  }

  /** After handling `ms` the partial is what the last recognised text left there. */
  lemma {:induction false} ApplyAllPartial(s: PageState, ms: seq<ResultMsg>, clock: nat -> string)
    ensures ApplyAll(s, ms, clock).partial ==
      match LastText(ms)
      case None => s.partial
      case Some(m) => if m.Final? then "" else m.text
    decreases |ms|
  {
    if ms != [] {
      ApplyAllPartial(s, ms[..|ms| - 1], clock);
    }
  }

  /** Handling messages touches only the log, the model queue and the partial. */
  lemma {:induction false} ApplyAllFrame(s: PageState, ms: seq<ResultMsg>, clock: nat -> string)
    ensures var r := ApplyAll(s, ms, clock);
      r == s.(conversation := r.conversation, llm := r.llm, partial := r.partial)
    decreases |ms|
  {
    if ms != [] {
      ApplyAllFrame(s, ms[..|ms| - 1], clock);
    }
  }

  /** `process_transcription_results()` on the state `s`: every queued message handled, the queue left empty. */
  function Drained(s: PageState, clock: nat -> string): PageState {
    ApplyAll(s.(results := []), s.results, clock)
  }

  /** Handling one more message of `ms`, with the queue holding the rest. */
  lemma ApplyAllSnoc(s: PageState, ms: seq<ResultMsg>, j: nat, clock: nat -> string)
    requires j < |ms|
    ensures ApplyAll(s, ms[..j + 1], clock).(results := ms[j + 1..])
         == ApplyResult(ApplyAll(s, ms[..j], clock).(results := ms[j + 1..]), ms[j], clock(j))
    ensures LastText(ms[..j + 1]).Some? <==> LastText(ms[..j]).Some? || !ms[j].Failure?
  {
    assert ms[..j + 1][..j] == ms[..j];
  }

  /** The drain loop has handled the first `j` of the messages `ms` it found, and `updated` says whether any carried text. */
  ghost predicate DrainSoFar(st: PageState, s0: PageState, ms: seq<ResultMsg>, j: nat, clock: nat -> string, updated: bool) {
    && j <= |ms|
    && st == ApplyAll(s0, ms[..j], clock).(results := ms[j..])
    && (updated <==> LastText(ms[..j]).Some?)
  }

  /** Taking the next message and handling it advances the drain by one. */
  lemma DrainAdvance(s0: PageState, ms: seq<ResultMsg>, j: nat, clock: nat -> string, updated: bool,
                     before: PageState, after: PageState, m: ResultMsg)
    requires DrainSoFar(before, s0, ms, j, clock, updated) && before.results != [] && m == before.results[0]
    requires after == ApplyResult(before.(results := before.results[1..]), m, clock(j))
    ensures DrainSoFar(after, s0, ms, j + 1, clock, updated || !m.Failure?)
  {
    assert ms[j..][1..] == ms[j + 1..];
    ApplyAllSnoc(s0, ms, j, clock);
  }

  /** When the queue is empty the drain has handled every message. */
  lemma DrainDone(s0: PageState, ms: seq<ResultMsg>, j: nat, clock: nat -> string, updated: bool, st: PageState)
    requires DrainSoFar(st, s0, ms, j, clock, updated) && st.results == [] && s0.results == []
    ensures j == |ms| && st == ApplyAll(s0, ms, clock) && (updated <==> LastText(ms).Some?)
  {
    assert ms[..j] == ms;
    ApplyAllFrame(s0, ms, clock);
  }

  // ---------------------------------------------------------------------
  // The page's own polling loop

  /** Some message among `ms` is a final text. */
  predicate HasFinal(ms: seq<ResultMsg>) {
    exists i :: 0 <= i < |ms| && ms[i].Final?
  }

  /** How many messages a polling pass takes: up to and including the first final, or all of them. */
  function UntilFinal(ms: seq<ResultMsg>): (n: nat)
    ensures n <= |ms|
    ensures forall i :: 0 <= i < n - 1 ==> !ms[i].Final?
    ensures HasFinal(ms) ==> n > 0 && ms[n - 1].Final?
    ensures !HasFinal(ms) ==> n == |ms|
  {
    if ms == [] then 0
    else if ms[0].Final? then 1
    else
      var n := 1 + UntilFinal(ms[1..]);
      assert HasFinal(ms) ==> HasFinal(ms[1..]) by {
        if HasFinal(ms) {
          var i :| 0 <= i < |ms| && ms[i].Final?;
          assert ms[1..][i - 1] == ms[i];
        }
      }
      n
  }

  /**
   * One pass of the page's inner `while not result_queue.empty()` loop: the
   * messages are handled in order until a final text, whose `st.rerun()` ends
   * the run with the rest still queued.
   */
  function PassResult(s: PageState, clock: nat -> string): PageState {
    var n := UntilFinal(s.results);
    ApplyAll(s.(results := []), s.results[..n], clock).(results := s.results[n..])
  }

  /**
   * A pass appends the user turn of the first queued final, if there is one,
   * and no other turn; everything but the log, the model queue, the partial
   * and the result queue is as before.
   */
  lemma PassTurns(s: PageState, clock: nat -> string)
    ensures var c := PassResult(s, clock).conversation;
      && |c| == |s.conversation| + (if HasFinal(s.results) then 1 else 0)
      && c[..|s.conversation|] == s.conversation
      && (HasFinal(s.results) ==>
            var f := s.results[UntilFinal(s.results) - 1];
            f.Final? && c[|c| - 1].role == User && c[|c| - 1].content == f.text)
  {
    var ms := s.results;
    var n := UntilFinal(ms);
    ApplyAllConversation(s.(results := []), ms[..n], clock);
    if HasFinal(ms) {
      assert ms[..n][..n - 1] == ms[..n - 1];
      FinalTextsNone(ms[..n - 1]);
      assert FinalTexts(ms[..n]) == [ms[n - 1].text];
    } else {
      assert ms[..n] == ms;
      FinalTextsNone(ms);
    }
  }

  /** Without a final among them, messages add no user turn. */
  lemma {:induction false} FinalTextsNone(ms: seq<ResultMsg>)
    requires forall i :: 0 <= i < |ms| ==> !ms[i].Final?
    ensures FinalTexts(ms) == []
    decreases |ms|
  {
    if ms != [] {
      FinalTextsNone(ms[..|ms| - 1]);
    }
  }

  /** How the page's polling loop ends: a final's rerun, the pass limit's rerun, or the stream stopped. */
  datatype PollEnd = SawFinal | LoopsDone | StreamStopped

  /**
   * The page's `while ctx.state.playing and loop_count < MAX_PROCESSING_LOOPS`
   * loop from pass `n` on. Before pass `n` the worker has queued
   * `arrivals(n)`; `playing(n)` is the stream's state when pass `n` is
   * considered, and pass `n` stamps its messages with `clock(n)`. After the
   * last pass a still-playing stream forces a rerun.
   */
  function Poll(s: PageState, arrivals: nat -> seq<ResultMsg>, playing: nat -> bool, clock: nat -> nat -> string, n: nat)
    : (PageState, PollEnd)
    requires n <= MaxProcessingLoops
    decreases MaxProcessingLoops - n
  {
    if !playing(n) then (s, StreamStopped)
    else if n == MaxProcessingLoops then (s, LoopsDone)
    else
      var t := s.(results := s.results + arrivals(n));
      var u := PassResult(t, clock(n));
      if HasFinal(t.results) then (u, SawFinal) else Poll(u, arrivals, playing, clock, n + 1)
  }

  /**
   * One page run's polling adds at most one user turn: exactly one when it
   * ends on a final, none when the pass limit or a stopped stream ends it.
   */
  lemma {:induction false} PollTurns(s: PageState, arrivals: nat -> seq<ResultMsg>, playing: nat -> bool,
                                     clock: nat -> nat -> string, n: nat)
    requires n <= MaxProcessingLoops
    ensures var r := Poll(s, arrivals, playing, clock, n);
      && |r.0.conversation| == |s.conversation| + (if r.1 == SawFinal then 1 else 0)
      && r.0.conversation[..|s.conversation|] == s.conversation
    decreases MaxProcessingLoops - n
  {
    if playing(n) && n < MaxProcessingLoops {
      var t := s.(results := s.results + arrivals(n));
      var u := PassResult(t, clock(n));
      PassTurns(t, clock(n));
      if !HasFinal(t.results) {
        PollTurns(u, arrivals, playing, clock, n + 1);
        assert u.conversation == s.conversation;
      }
    }
  }

  // ---------------------------------------------------------------------
  // process_llm_response

  const ContextHeader := "Historial de conversación reciente:\n"
  const ContextFooter := "\nConsidera el historial anterior para responder coherentemente.\n\n"
  const QuestionLabel := "Pregunta actual: "
  /** Select AI's fallback when the session holds no `language-message`. */
  const NoInformation := "No tengo esa información."
  /** What the agent path answers when the result has no `answer`. */
  const NoAnswer := "Lo siento, no pude generar una respuesta."
  const ErrorPrefix := "Error al procesar: "
  /** How many turns of the log the agent sees. */
  const ContextTurns: nat := 6

  /** The turns the agent sees: the last six of the log, or all of it when it is shorter. */
  function Recent(conversation: seq<Turn>): (r: seq<Turn>)
    ensures |r| <= ContextTurns
    ensures |r| == if |conversation| > ContextTurns then ContextTurns else |conversation|
    ensures r == conversation[|conversation| - |r|..]
  {
    if |conversation| > ContextTurns then conversation[|conversation| - ContextTurns..] else conversation
  }

  /** The line the context gives one turn. */
  function TurnLine(t: Turn): string {
    (if t.role == User then "Usuario" else "Asistente") + ": " + t.content + "\n"
  }

  /** The lines of several turns, in order. */
  function TurnLines(turns: seq<Turn>): string {
    if turns == [] then "" else TurnLines(turns[..|turns| - 1]) + TurnLine(turns[|turns| - 1])
  }

  /** The history paragraph put before the question: empty when there is no turn. */
  function ContextOf(recent: seq<Turn>): string {
    if recent == [] then "" else ContextHeader + TurnLines(recent) + ContextFooter
  }

  /** `full_input`: the history paragraph of the recent turns, then the current question. */
  function AgentInput(conversation: seq<Turn>, message: string): string {
    ContextOf(Recent(conversation)) + QuestionLabel + message
  }

  /** The agent's input ends with the question, and with an empty log it is the question alone. */
  lemma AgentInputShape(conversation: seq<Turn>, message: string)
    ensures var input := AgentInput(conversation, message);
      && |input| >= |QuestionLabel + message|
      && input[|input| - |QuestionLabel + message|..] == QuestionLabel + message
      && (conversation == [] ==> input == QuestionLabel + message)
  {
    var context := ContextOf(Recent(conversation));
    var question := QuestionLabel + message;
    assert AgentInput(conversation, message) == context + question;
    SuffixOfConcat(context, question);
  }

  /** Turns older than the last six do not reach the agent. */
  lemma ContextForgets(older: seq<Turn>, conversation: seq<Turn>, message: string)
    requires |conversation| >= ContextTurns
    ensures AgentInput(older + conversation, message) == AgentInput(conversation, message)
  {
    var whole := older + conversation;
    assert whole[|whole| - ContextTurns..] == conversation[|conversation| - ContextTurns..];
    assert Recent(whole) == Recent(conversation);
  }

  /** The context-building loop of `process_llm_response`. */
  method BuildContext(conversation: seq<Turn>) returns (context: string)
    ensures context == ContextOf(Recent(conversation))
  {
    context := "";
    var recent := if |conversation| > ContextTurns then conversation[|conversation| - ContextTurns..] else conversation;
    if recent != [] {
      context := ContextHeader;
      for i := 0 to |recent|
        invariant context == ContextHeader + TurnLines(recent[..i])
      {
        assert recent[..i + 1][..i] == recent[..i];
        ConcatAssoc(ContextHeader, TurnLines(recent[..i]), TurnLine(recent[i]));
        context := context + TurnLine(recent[i]);
      }
      assert recent[..|recent|] == recent;
      context := context + ContextFooter;
    }
  }

  /**
   * The response text: on the Select AI path the model's reply, with the
   * session's language message (or its default) for a reply containing
   * `NNN`; on the agent path the result's `answer`, or the apology when it
   * has none; on either path `Error al procesar: ` and the message of an
   * exception.
   */
  function ReplyText(conversation: seq<Turn>, message: string, useSelectAi: bool, languageMessage: Option<string>,
                     selectAi: string -> Result<string, string>, agent: string -> Result<Option<string>, string>): (r: string)
    ensures useSelectAi && selectAi(message).Ok? && !Contains(selectAi(message).value, "NNN") ==> r == selectAi(message).value
    ensures useSelectAi && selectAi(message).Ok? && Contains(selectAi(message).value, "NNN") ==>
      r == if languageMessage.Some? then languageMessage.value else NoInformation
    ensures !useSelectAi && agent(AgentInput(conversation, message)).Ok? ==>
      r == if agent(AgentInput(conversation, message)).value.Some? then agent(AgentInput(conversation, message)).value.value else NoAnswer
    ensures (if useSelectAi then selectAi(message).Err? else agent(AgentInput(conversation, message)).Err?) ==>
      |r| >= |ErrorPrefix| && r[..|ErrorPrefix|] == ErrorPrefix
  {
    if useSelectAi then
      match selectAi(message)
      case Ok(reply) => if Contains(reply, "NNN") then languageMessage.GetOr(NoInformation) else reply
      case Err(e) => ErrorPrefix + e
    else
      match agent(AgentInput(conversation, message))
      case Ok(answer) => answer.GetOr(NoAnswer)
      case Err(e) => ErrorPrefix + e
  }

  /** The audio the assistant turn keeps: the speech bytes, unless synthesis gave nothing. */
  function AudioOf(speech: Option<seq<bv8>>): (r: Option<seq<bv8>>)
    ensures r.Some? <==> speech.Some? && speech.value != []
    ensures r.Some? ==> r == speech
  {
    if speech.Some? && speech.value != [] then speech else None
  }

  /** The assistant turn appended with the response, stamped and marked for autoplay by the clock reading `now`. */
  function Answered(s: PageState, text: string, speech: Option<seq<bv8>>, now: string): PageState {
    s.(conversation := s.conversation + [Turn(Assistant, text, now, AudioOf(speech))], autoplayId := Some(now))
  }

  /** The first step of the single-flight hand-off: a queued message and no response under way set the flag. */
  function Scheduled(s: PageState): PageState {
    if s.llm != [] && !s.processingLlm then s.(processingLlm := true) else s
  }

  /** The language-model oracles a page run consults, and the speech synthesiser. */
  datatype Oracles = Oracles(
    useSelectAi: bool,
    languageMessage: Option<string>,
    selectAi: string -> Result<string, string>,
    agent: string -> Result<Option<string>, string>,
    speech: string -> Option<seq<bv8>>)

  /** `process_llm_response(message)` on the state `s` at the clock reading `now`. */
  function Responded(s: PageState, message: string, o: Oracles, now: string): PageState {
    var text := ReplyText(s.conversation, message, o.useSelectAi, o.languageMessage, o.selectAi, o.agent);
    Answered(s, text, o.speech(text), now)
  }

  /** The response text of `process_llm_response`, and the input the agent was asked with, if any. */
  method Reply(conversation: seq<Turn>, message: string, o: Oracles) returns (text: string, asked: Option<string>)
    ensures text == ReplyText(conversation, message, o.useSelectAi, o.languageMessage, o.selectAi, o.agent)
    ensures asked == if o.useSelectAi then None else Some(AgentInput(conversation, message))
  {
    if o.useSelectAi {
      asked := None;
      match o.selectAi(message)
      case Ok(reply) =>
        text := if Contains(reply, "NNN") then o.languageMessage.GetOr(NoInformation) else reply;
      case Err(e) =>
        text := ErrorPrefix + e;
    } else {
      var context := BuildContext(conversation);
      var fullInput := context + QuestionLabel + message;
      asked := Some(fullInput);
      match o.agent(fullInput)
      case Ok(answer) =>
        text := answer.GetOr(NoAnswer);
      case Err(e) =>
        text := ErrorPrefix + e;
    }
  }

  /**
   * The second step: with the flag set and a message queued, exactly one
   * message is taken and answered, and the flag is cleared.
   */
  function Ran(s: PageState, o: Oracles, now: string): PageState {
    if s.processingLlm && s.llm != [] then
      Responded(s.(llm := s.llm[1..]), s.llm[0], o, now).(processingLlm := false)
    else s
  }

  /**
   * Two page runs hand a queued message to the model: the first only sets
   * the flag, the second answers the oldest message with exactly one
   * assistant turn, leaves the rest queued and clears the flag.
   */
  lemma SingleFlight(s: PageState, o: Oracles, now: string)
    requires s.llm != [] && !s.processingLlm
    ensures Scheduled(s) == s.(processingLlm := true)
    ensures Scheduled(Scheduled(s)) == Scheduled(s)
    ensures var r := Ran(Scheduled(s), o, now);
      && r.llm == s.llm[1..] && !r.processingLlm
      && r.conversation[..|s.conversation|] == s.conversation
      && |r.conversation| == |s.conversation| + 1
      && r.conversation[|s.conversation|].role == Assistant
      && r.conversation[|s.conversation|].timestamp == now
      && r.autoplayId == Some(now)
  {
    var r := Ran(Scheduled(s), o, now);
    assert r.conversation == s.conversation + [r.conversation[|s.conversation|]];
  }

  /**
   * The sidebar's clear button, enabled only while there is a conversation:
   * the conversation, the partial text and the response flag are reset and
   * everything else, the queued questions included, stays.
   */
  function Cleared(s: PageState): PageState {
    if s.conversation != [] then s.(conversation := [], partial := "", processingLlm := false) else s
  }

  /**
   * A question still queued when the conversation is cleared is answered
   * afterwards: two runs later the cleared conversation holds exactly that
   * answer.
   */
  lemma ClearKeepsQueuedQuestion(s: PageState, o: Oracles, now: string)
    requires s.conversation != [] && s.llm != []
    ensures var r := Ran(Scheduled(Cleared(s)), o, now);
      && |r.conversation| == 1
      && r.conversation[0].role == Assistant
      && r.llm == s.llm[1..]
  {
    SingleFlight(Cleared(s), o, now);
  }

  // ---------------------------------------------------------------------
  // cleanup_session and the play/stop edge

  /**
   * `cleanup_session()` on the state `s`: the worker handle is gone and both
   * queues are empty.
   */
  function CleanedUp(s: PageState): PageState {
    s.(hasWorker := false, audio := [], results := [])
  }

  /**
   * The audio items the cleanup discards: whatever was queued, then the
   * end-of-stream sentinel pushed for a live worker (the worker's consumption
   * during the join is not modelled).
   */
  function Discarded(s: PageState, alive: bool): (r: seq<SpeechRealtime.AudioItem>)
    ensures |r| == |s.audio| + (if s.hasWorker && alive then 1 else 0)
    ensures r[..|s.audio|] == s.audio
    ensures (s.hasWorker && alive) <==> (|r| > 0 && r[|r| - 1] == SpeechRealtime.EndOfStream && |r| > |s.audio|)
  {
    s.audio + (if s.hasWorker && alive then [SpeechRealtime.EndOfStream] else [])
  }

  /**
   * The stop edge: a run that finds the stream stopped after it was playing
   * cleans up and moves to a new session id, so the next stream gets a new
   * widget; in every case `was_playing` becomes the stream's state.
   */
  function AfterEdge(s: PageState, playing: bool): PageState {
    var t := if s.wasPlaying && !playing then CleanedUp(s).(sessionId := s.sessionId + 1) else s;
    t.(wasPlaying := playing)
  }

  /** Cleanup and the new session id happen exactly on the playing-to-stopped edge, once. */
  lemma EdgeOnce(s: PageState, playing: bool)
    ensures var r := AfterEdge(s, playing);
      && r.wasPlaying == playing
      && r.sessionId == s.sessionId + (if s.wasPlaying && !playing then 1 else 0)
      && (s.wasPlaying && !playing ==> r.audio == [] && r.results == [] && !r.hasWorker)
      && (!(s.wasPlaying && !playing) ==> r == s.(wasPlaying := playing))
      && AfterEdge(r, playing).sessionId == r.sessionId
  {
  }

  /** The widget key `speech-chat-{session_id}`. */
  function WidgetKey(sessionId: int): string {
    "speech-chat-" + IntToString(sessionId)
  }

  /** Different sessions get different widget keys. */
  lemma WidgetKeysDiffer(a: nat, b: nat)
    requires a != b
    ensures WidgetKey(a) != WidgetKey(b)
  {
    if WidgetKey(a) == WidgetKey(b) {
      var p := "speech-chat-";
      assert WidgetKey(a)[|p|..] == NatToString(a);
      assert WidgetKey(b)[|p|..] == NatToString(b);
      ParseNatToString(a);
      ParseNatToString(b);
    }
  }

  // ---------------------------------------------------------------------
  // Autoplay

  /**
   * The turns the rendered conversation autoplays: assistant turns with
   * audio whose timestamp is the autoplay id.
   */
  function Autoplayed(conversation: seq<Turn>, autoplayId: Option<string>): set<nat> {
    set i | 0 <= i < |conversation| && conversation[i].role == Assistant && conversation[i].audio.Some?
                                     && autoplayId == Some(conversation[i].timestamp)
  }

  /** The turn just answered with audio autoplays on the next render. */
  lemma AnsweredAutoplays(s: PageState, text: string, speech: Option<seq<bv8>>, now: string)
    requires speech.Some? && speech.value != []
    ensures var r := Answered(s, text, speech, now);
      |s.conversation| in Autoplayed(r.conversation, r.autoplayId)
  {
  }

  /**
   * Timestamps are clock readings to the second, so an earlier answer given
   * at the same `%H:%M:%S` reading autoplays again with the new one.
   */
  lemma AutoplayCollides(earlier: Turn, s: PageState, text: string, speech: Option<seq<bv8>>)
    requires s.conversation == [earlier] && earlier.role == Assistant && earlier.audio.Some?
    requires speech.Some? && speech.value != []
    ensures var r := Answered(s, text, speech, earlier.timestamp);
      Autoplayed(r.conversation, r.autoplayId) == {0, 1}
  {
    var r := Answered(s, text, speech, earlier.timestamp);
    assert r.conversation[0] == earlier;
    assert 0 in Autoplayed(r.conversation, r.autoplayId);
    assert 1 in Autoplayed(r.conversation, r.autoplayId);
  }

  // ---------------------------------------------------------------------
  // The page's session state

  /** `st.session_state` as the voice-chat page uses it. */
  class VoiceSession {
    /** The keys that exist. */
    var present: set<Key>
    var conversation: seq<Turn>
    var audioQueue: Fifo<SpeechRealtime.AudioItem>
    var resultQueue: Fifo<ResultMsg>
    var sessionId: int
    var llmQueue: Fifo<string>
    var processingLlm: bool
    var currentPartial: string
    var wasPlaying: bool
    var autoplayId: Option<string>
    var playingAudioId: Option<string>
    var playingAudioTime: real
    /** Whether `speech_oci_thread` exists. */
    var hasWorker: bool

    /** The entries as a value, each queue by its contents. */
    function State(): PageState
      reads this, audioQueue, resultQueue, llmQueue
    {
      PageState(present, conversation, audioQueue.items, resultQueue.items, sessionId, llmQueue.items,
                processingLlm, currentPartial, wasPlaying, autoplayId, playingAudioId, playingAudioTime, hasWorker)
    }

    /** The queue entries still hold the queue objects `a`, `r` and `l`. */
    predicate SameQueues(a: Fifo<SpeechRealtime.AudioItem>, r: Fifo<ResultMsg>, l: Fifo<string>)
      reads this
    {
      audioQueue == a && resultQueue == r && llmQueue == l
    }

    /** Every key the page reads exists. */
    predicate Ready()
      reads this
    {
      AllKeys <= present
    }

    /** A browser session before the page first runs: no key exists yet. */
    constructor ()
      ensures State().present == {} && !State().hasWorker
    {
      present := {};
      conversation := [];
      audioQueue := new Fifo();
      resultQueue := new Fifo();
      sessionId := 0;
      llmQueue := new Fifo();
      processingLlm := false;
      currentPartial := "";
      wasPlaying := false;
      autoplayId := None;
      playingAudioId := None;
      playingAudioTime := 0.0;
      hasWorker := false;
    }

    /**
     * One turn of the defaults loop: `if key not in st.session_state:
     * st.session_state[key] = value`, the store done by the key's own method.
     * A queue default is a queue object of its own.
     */
    method SetDefault(k: Key)
      modifies this
      ensures State() == SetMissing(old(State()), k)
    {
      if k in present {
        return;
      }
      match k
      case ConversationKey => DefaultConversation();
      case AudioQueueKey => DefaultAudioQueue();
      case ResultQueueKey => DefaultResultQueue();
      case SessionIdKey => DefaultSessionId();
      case LlmQueueKey => DefaultLlmQueue();
      case ProcessingLlmKey => DefaultProcessingLlm();
      case CurrentPartialKey => DefaultCurrentPartial();
      case WasPlayingKey => DefaultWasPlaying();
      case AutoplayIdKey => DefaultAutoplayId();
      case PlayingAudioIdKey => DefaultPlayingAudioId();
      case PlayingAudioTimeKey => DefaultPlayingAudioTime();
    }

    method DefaultConversation()
      requires ConversationKey !in present
      modifies this
      ensures State() == SetMissing(old(State()), ConversationKey)
    {
      present := present + {ConversationKey};
      conversation := [];
    }

    method DefaultAudioQueue()
      requires AudioQueueKey !in present
      modifies this
      ensures State() == SetMissing(old(State()), AudioQueueKey)
    {
      present := present + {AudioQueueKey};
      audioQueue := new Fifo();
    }

    method DefaultResultQueue()
      requires ResultQueueKey !in present
      modifies this
      ensures State() == SetMissing(old(State()), ResultQueueKey)
    {
      present := present + {ResultQueueKey};
      resultQueue := new Fifo();
    }

    method DefaultSessionId()
      requires SessionIdKey !in present
      modifies this
      ensures State() == SetMissing(old(State()), SessionIdKey)
    {
      present := present + {SessionIdKey};
      sessionId := 0;
    }

    method DefaultLlmQueue()
      requires LlmQueueKey !in present
      modifies this
      ensures State() == SetMissing(old(State()), LlmQueueKey)
    {
      present := present + {LlmQueueKey};
      llmQueue := new Fifo();
    }

    method DefaultProcessingLlm()
      requires ProcessingLlmKey !in present
      modifies this
      ensures State() == SetMissing(old(State()), ProcessingLlmKey)
    {
      present := present + {ProcessingLlmKey};
      processingLlm := false;
    }

    method DefaultCurrentPartial()
      requires CurrentPartialKey !in present
      modifies this
      ensures State() == SetMissing(old(State()), CurrentPartialKey)
    {
      present := present + {CurrentPartialKey};
      currentPartial := "";
    }

    method DefaultWasPlaying()
      requires WasPlayingKey !in present
      modifies this
      ensures State() == SetMissing(old(State()), WasPlayingKey)
    {
      present := present + {WasPlayingKey};
      wasPlaying := false;
    }

    method DefaultAutoplayId()
      requires AutoplayIdKey !in present
      modifies this
      ensures State() == SetMissing(old(State()), AutoplayIdKey)
    {
      present := present + {AutoplayIdKey};
      autoplayId := None;
    }

    method DefaultPlayingAudioId()
      requires PlayingAudioIdKey !in present
      modifies this
      ensures State() == SetMissing(old(State()), PlayingAudioIdKey)
    {
      present := present + {PlayingAudioIdKey};
      playingAudioId := None;
    }

    method DefaultPlayingAudioTime()
      requires PlayingAudioTimeKey !in present
      modifies this
      ensures State() == SetMissing(old(State()), PlayingAudioTimeKey)
    {
      present := present + {PlayingAudioTimeKey};
      playingAudioTime := 0.0;
    }

    /** `initialize_session_state()`. */
    method InitializeSessionState()
      modifies this
      ensures State() == Initialized(old(State()))
      ensures Ready()
    {
      UptoStart(State());
      var i := 0;
      while i < NumKeys
        invariant i <= NumKeys
        invariant State() == Upto(old(State()), i)
      {
        UptoStep(old(State()), i);
        SetDefault(KeyAt(i));
        i := i + 1;
      }
      UptoEnd(old(State()));
    }

    /** One message taken off the result queue, stamped `stamp`. */
    method HandleResult(m: ResultMsg, stamp: string)
      modifies this, llmQueue
      ensures State() == ApplyResult(old(State()), m, stamp)
      ensures SameQueues(old(audioQueue), old(resultQueue), old(llmQueue))
    {
      match m
      case Final(t) =>
        conversation := conversation + [Turn(User, t, stamp, None)];
        if !processingLlm {
          llmQueue.Put(t);
        }
        currentPartial := "";
      case Partial(t) =>
        currentPartial := t;
      case Failure(_) =>
    }

    /**
     * `process_transcription_results()`: drains the result queue, handling
     * each message in order (the message at position `n` is stamped
     * `clock(n)`), and reports whether any recognised text was among them.
     */
    method ProcessTranscriptionResults(clock: nat -> string) returns (updated: bool)
      requires Ready()
      modifies this, resultQueue, llmQueue
      ensures State() == Drained(old(State()), clock)
      ensures updated <==> LastText(old(resultQueue.items)).Some?
      ensures Ready()
    {
      ghost var s0 := State().(results := []);
      ghost var ms := resultQueue.items;
      var j: nat := 0;
      updated := false;
      assert ms[..0] == [];
      while !resultQueue.Empty()
        invariant DrainSoFar(State(), s0, ms, j, clock, updated)
        invariant present == old(present)
        invariant SameQueues(old(audioQueue), old(resultQueue), old(llmQueue))
        decreases |ms| - j
      {
        var _, updated' := DrainOne(s0, ms, j, clock, updated);
        updated := updated';
        j := j + 1;
      }
      DrainDone(s0, ms, j, clock, updated, State());
    }

    /** The worker's `result_q.put` calls between two passes: `batch` queued in order. */
    method Deliver(batch: seq<ResultMsg>)
      modifies resultQueue
      ensures State() == old(State()).(results := old(State()).results + batch)
    {
      for i := 0 to |batch|
        invariant resultQueue.items == old(resultQueue.items) + batch[..i]
      {
        resultQueue.Put(batch[i]);
        assert batch[..i + 1] == batch[..i] + [batch[i]];
      }
      assert batch[..|batch|] == batch;
    }

    /**
     * One pass of the page's inner loop: messages are taken and handled until
     * a final, which forces a rerun; `rerun` says whether one did.
     */
    method PollPass(clock: nat -> string) returns (rerun: bool)
      requires Ready()
      modifies this, resultQueue, llmQueue
      ensures State() == PassResult(old(State()), clock)
      ensures rerun <==> HasFinal(old(resultQueue.items))
      ensures Ready() && SameQueues(old(audioQueue), old(resultQueue), old(llmQueue))
    {
      ghost var s0 := State().(results := []);
      ghost var ms := resultQueue.items;
      var j: nat := 0;
      var updated := false;
      assert ms[..0] == [];
      while !resultQueue.Empty()
        invariant DrainSoFar(State(), s0, ms, j, clock, updated)
        invariant forall i :: 0 <= i < j ==> !ms[i].Final?
        invariant present == old(present)
        invariant SameQueues(old(audioQueue), old(resultQueue), old(llmQueue))
        decreases |ms| - j
      {
        var m, updated' := DrainOne(s0, ms, j, clock, updated);
        updated := updated';
        j := j + 1;
        if m.Final? {
          assert UntilFinal(ms) == j;
          return true;
        }
      }
      assert ms[..j] == ms && ms[j..] == [];
      return false;
    }

    /**
     * The page's polling loop while the microphone stream plays: before each
     * pass the worker queues `arrivals(n)`; the loop stops at a final's rerun,
     * when the stream is no longer playing, or after `MaxProcessingLoops`
     * passes, when a still-playing stream forces a rerun.
     */
    method PollWhilePlaying(arrivals: nat -> seq<ResultMsg>, playing: nat -> bool, clock: nat -> nat -> string)
      returns (end: PollEnd)
      requires Ready()
      modifies this, resultQueue, llmQueue
      ensures (State(), end) == Poll(old(State()), arrivals, playing, clock, 0)
      ensures Ready() && SameQueues(old(audioQueue), old(resultQueue), old(llmQueue))
    {
      ghost var whole := Poll(State(), arrivals, playing, clock, 0);
      var loopCount := 0;
      while playing(loopCount) && loopCount < MaxProcessingLoops
        invariant loopCount <= MaxProcessingLoops
        invariant Poll(State(), arrivals, playing, clock, loopCount) == whole
        invariant Ready() && SameQueues(old(audioQueue), old(resultQueue), old(llmQueue))
        decreases MaxProcessingLoops - loopCount
      {
        Deliver(arrivals(loopCount));
        var rerun := PollPass(clock(loopCount));
        if rerun {
          return SawFinal;
        }
        loopCount := loopCount + 1;
      }
      if loopCount >= MaxProcessingLoops && playing(loopCount) {
        return LoopsDone;
      }
      return StreamStopped;
    }

    /** `process_llm_response(user_id, agent_id, message, language)` at the clock reading `now`. */
    method ProcessLlmResponse(message: string, o: Oracles, now: string) returns (asked: Option<string>)
      modifies this
      ensures State() == Responded(old(State()), message, o, now)
      ensures asked == if o.useSelectAi then None else Some(AgentInput(old(conversation), message))
      ensures SameQueues(old(audioQueue), old(resultQueue), old(llmQueue))
    {
      var text;
      text, asked := Reply(conversation, message, o);
      var speech := o.speech(text);
      var audio: Option<seq<bv8>> := None;
      if speech.Some? && speech.value != [] {
        audio := speech;
      }
      conversation := conversation + [Turn(Assistant, text, now, audio)];
      autoplayId := Some(now);
    }

    /** The page clears the autoplay marker after the first render of a run. */
    method ClearAutoplay()
      modifies this
      ensures State() == old(State()).(autoplayId := None)
    {
      if autoplayId.Some? {
        autoplayId := None;
      }
    }

    /** The first step of the single-flight block; `rerun` is whether it forces a rerun. */
    method ScheduleLlm() returns (rerun: bool)
      modifies this
      ensures State() == Scheduled(old(State()))
      ensures rerun <==> old(llmQueue.items) != [] && !old(processingLlm)
    {
      rerun := false;
      if !llmQueue.Empty() && !processingLlm {
        processingLlm := true;
        rerun := true;
      }
    }

    /** The second step of the single-flight block; `rerun` is whether it ran, which forces a rerun. */
    method RunLlm(o: Oracles, now: string) returns (rerun: bool)
      modifies this, llmQueue
      ensures State() == Ran(old(State()), o, now)
      ensures rerun <==> old(processingLlm) && old(llmQueue.items) != []
      ensures SameQueues(old(audioQueue), old(resultQueue), old(llmQueue))
    {
      rerun := false;
      if processingLlm && !llmQueue.Empty() {
        ghost var s0 := State();
        var message := llmQueue.Get();
        assert State() == s0.(llm := s0.llm[1..]);
        var _ := ProcessLlmResponse(message, o, now);
        ghost var s1 := State();
        processingLlm := false;
        assert State() == s1.(processingLlm := false);
        rerun := true;
      }
    }

    /**
     * `cleanup_session()`, `alive` being whether the worker thread still runs:
     * a live worker is sent the end-of-stream sentinel, the worker handle is
     * dropped, and both queues are emptied; `discarded` is what the audio
     * queue held.
     */
    method CleanupSession(alive: bool) returns (discarded: seq<SpeechRealtime.AudioItem>)
      modifies this, audioQueue, resultQueue
      ensures SameQueues(old(audioQueue), old(resultQueue), old(llmQueue))
      ensures State() == CleanedUp(old(State()))
      ensures discarded == Discarded(old(State()), alive)
    {
      if hasWorker {
        if alive {
          audioQueue.Put(SpeechRealtime.EndOfStream);
        }
        hasWorker := false;
      }
      discarded := audioQueue.TakeAll();
      var _ := resultQueue.TakeAll();
    }

    /**
     * The transition check of a run: on the playing-to-stopped edge clean up
     * and move to a new session id; then remember the stream's state.
     */
    method DetectEdge(playing: bool, alive: bool)
      modifies this, audioQueue, resultQueue
      ensures SameQueues(old(audioQueue), old(resultQueue), old(llmQueue))
      ensures State() == AfterEdge(old(State()), playing)
    {
      if wasPlaying && !playing {
        var _ := CleanupSession(alive);
        sessionId := sessionId + 1;
        wasPlaying := false;
      }
      wasPlaying := playing;
    }

    /** The key the streaming widget is created under for this session. */
    method StreamerKey() returns (key: string)
      ensures key == WidgetKey(sessionId)
    {
      key := "speech-chat-" + IntToString(sessionId);
    }

    /**
     * Starts the recognition worker unless one exists and is alive (`alive`);
     * the worker then holds the page's two queues, which this model leaves
     * as they are.
     */
    method EnsureWorker(alive: bool) returns (started: bool)
      modifies this
      ensures started <==> !(old(hasWorker) && alive)
      ensures State() == old(State()).(hasWorker := true)
      ensures SameQueues(old(audioQueue), old(resultQueue), old(llmQueue))
    {
      started := !hasWorker || !alive;
      if started {
        hasWorker := true;
      }
    }

    /**
     * `ctx.audio_processor.audio_queue = st.session_state.speech_audio_queue`
     * when a processor exists: from then on the frames it receives land in
     * the page's audio queue.
     */
    method InjectQueue(processor: SpeechRealtime.AudioProcessor?)
      modifies processor
      ensures processor != null ==> processor.audioQueue == audioQueue
    {
      if processor != null {
        processor.audioQueue := audioQueue;
      }
    }

    /** The re-injection while playing: only a processor that has no queue gets the page's. */
    method ReinjectQueue(processor: SpeechRealtime.AudioProcessor?)
      modifies processor
      ensures processor != null && old(processor.audioQueue) == null ==> processor.audioQueue == audioQueue
      ensures processor != null && old(processor.audioQueue) != null ==> processor.audioQueue == old(processor.audioQueue)
    {
      if processor != null && processor.audioQueue == null {
        processor.audioQueue := audioQueue;
      }
    }

    /** An injected processor's frames reach the page's audio queue, in order. */
    method InjectThenReceive<F>(processor: SpeechRealtime.AudioProcessor, frame: F, resampled: seq<seq<bv8>>)
      returns (out: F)
      modifies processor, audioQueue
      ensures out == frame
      ensures audioQueue.items == old(audioQueue.items) + SpeechRealtime.Chunks(resampled)
      ensures processor.audioQueue == audioQueue
    {
      InjectQueue(processor);
      out := processor.Recv(frame, Some(resampled));
    }

    /** The sidebar's clear button, pressed. */
    method ClearConversation()
      modifies this
      ensures State() == Cleared(old(State()))
    {
      if conversation != [] {
        conversation := [];
        currentPartial := "";
        processingLlm := false;
      }
    }

    /** One turn of the drain loop: take the next message and handle it. */
    method DrainOne(ghost s0: PageState, ghost ms: seq<ResultMsg>, j: nat, clock: nat -> string, updated: bool)
      returns (m: ResultMsg, updated': bool)
      requires DrainSoFar(State(), s0, ms, j, clock, updated) && !resultQueue.Empty()
      modifies this, resultQueue, llmQueue
      ensures j < |ms| && m == ms[j]
      ensures DrainSoFar(State(), s0, ms, j + 1, clock, updated')
      ensures present == old(present)
      ensures SameQueues(old(audioQueue), old(resultQueue), old(llmQueue))
    {
      ghost var before := State();
      m := resultQueue.Get();
      assert State() == before.(results := before.results[1..]);
      HandleResult(m, clock(j));
      updated' := updated || !m.Failure?;
      DrainAdvance(s0, ms, j, clock, updated, before, State(), m);
    }
  }

}
