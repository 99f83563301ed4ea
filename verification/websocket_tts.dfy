/** The streaming synthesis path (`text_to_speech_websocket`). Two callbacks
    update a small session state, the `ready` and `done` flags and the last
    reported take; a loop pumps the socket until both flags are set or sixty
    seconds have passed. The SDK, the clock and the audio device are inputs:
    each `ws.update` call is a Poll (the callbacks it makes, then what it
    raises, if anything), the clock is the sequence of times the loop reads. */
module WebsocketTts {
  import opened Common
  import opened Sdk

  type Bytes = seq<bv8>

  /** A callback the SDK makes while it is pumped. */
  datatype Event =
    | StatusEvent(take: Take)                         // status_cb(request_id, take)
    | AudioEvent(chunkId: Option<int>, audio: Bytes)  // audio_cb(..., chunk_id, audio)

  /** An exception `ws.update` raises: the SDK's generation error, or anything else. */
  datatype Raised = GenerateError(message: string) | OtherError(message: string)

  /** One `ws.update(timeout=5)` call. */
  datatype Poll = Poll(events: seq<Event>, raises: Option<Raised>)

  /** What the SDK and the environment supply: the voice list, the answer to
      every update call, and the clock in milliseconds (`clock(0)` is `t0`,
      `clock(k + 1)` the time read by the k-th test of the loop condition). */
  datatype StreamingApi = StreamingApi(voices: seq<Voice>, polls: nat -> Poll, clock: nat -> int)

  /** What the path asked the socket to synthesise. */
  datatype StreamRequest = StreamRequest(voiceId: string, text: string)

  /** The outside effects of one call, as far as the caller or the device can observe them. */
  datatype Effects = Effects(
    streamOpened: bool,               // an OutputStream was created and started
    apiOpened: bool,                  // a DaisysAPI session was entered
    request: Option<StreamRequest>,   // the websocket opened and generate_take called
    updates: nat,                     // ws.update calls made
    written: seq<Bytes>,              // the chunks passed to stream.write, in order
    deletedTake: Option<string>,      // the take id passed to delete_take
    streamClosed: bool)               // stream.stop and stream.close called

  const NoEffects := Effects(false, false, None, 0, [], None, false)

  /** The loop's time budget: 60 seconds. */
  const BudgetMs := 60000

  const CredentialsMessage := "DAISYS_EMAIL and DAISYS_PASSWORD must be set."
  const NoVoicesMessage := "No voices available"

  /** The clock never stands still or runs back between two readings. */
  ghost predicate Advancing(clock: nat -> int)
  {
    forall k: nat, m: nat :: k < m ==> clock(k) < clock(m)
  }

  /** The variables the callbacks share: `ready`, `done`, `generated_take`,
      and what has been written to the output stream. */
  datatype SessionState = SessionState(ready: bool, done: bool, take: Option<Take>, written: seq<Bytes>)

  const Initial := SessionState(false, false, None, [])

  predicate IsReadyStatus(e: Event)
  {
    e.StatusEvent? && e.take.status == Ready
  }

  /** The empty chunk that ends the audio: `chunk_id in [0, None]`. */
  predicate IsEndMarker(e: Event)
  {
    e.AudioEvent? && e.audio == [] && (e.chunkId == None || e.chunkId == Some(0))
  }

  /** `status_cb`: the take is recorded, and READY sets `ready`. */
  function AfterStatus(st: SessionState, take: Take): SessionState
  {
    st.(take := Some(take), ready := st.ready || take.status == Ready)
  }

  /** `audio_cb`: a non-empty chunk goes to the stream when playback is on;
      an empty one with chunk id 0 or None sets `done`. */
  function AfterAudio(st: SessionState, playback: bool, chunkId: Option<int>, audio: Bytes): SessionState
  {
    if audio != [] then
      if playback then st.(written := st.written + [audio]) else st
    else if chunkId == None || chunkId == Some(0) then st.(done := true)
    else st
  }

  function AfterEvent(st: SessionState, playback: bool, e: Event): SessionState
  {
    match e
    case StatusEvent(take) => AfterStatus(st, take)
    case AudioEvent(chunkId, audio) => AfterAudio(st, playback, chunkId, audio)
  }

  function AfterEvents(st: SessionState, playback: bool, es: seq<Event>): SessionState
  {
    if es == [] then st else AfterEvent(AfterEvents(st, playback, es[..|es| - 1]), playback, es[|es| - 1])
  }

  /** The payloads of the non-empty audio chunks among `es`, in delivery order. */
  function AudioPayloads(es: seq<Event>): seq<Bytes>
  {
    if es == [] then []
    else
      var e := es[|es| - 1];
      AudioPayloads(es[..|es| - 1]) + (if e.AudioEvent? && e.audio != [] then [e.audio] else [])
  }

  /** The take of the last status callback among `es`. */
  function LastTake(es: seq<Event>): Option<Take>
  {
    if es == [] then None
    else if es[|es| - 1].StatusEvent? then Some(es[|es| - 1].take)
    else LastTake(es[..|es| - 1])
  }

  /** The callbacks made by the update calls k, ..., n - 1, in order. */
  function Delivered(polls: nat -> Poll, k: nat, n: nat): seq<Event>
    decreases n - k
  {
    if n <= k then [] else polls(k).events + Delivered(polls, k + 1, n)
  }

  /** A generation error is re-raised as DaisysMcpError; anything else propagates. */
  function RaisedError(r: Raised): Error
  {
    match r
    case GenerateError(m) => DaisysMcpError(m)
    case OtherError(m) => SdkError(m)
  }

  /** How the loop ended, and after how many update calls. */
  datatype DriveOutcome = Finished(updates: nat) | Aborted(updates: nat, error: Error)

  /** The loop condition at its k-th test. */
  predicate Pumping(st: SessionState, clock: nat -> int, k: nat)
  {
    !(st.ready && st.done) && clock(k + 1) - clock(0) < BudgetMs
  }

  /** The loop from its k-th test on. */
  function DriveFrom(st: SessionState, playback: bool, polls: nat -> Poll, clock: nat -> int, k: nat): (SessionState, DriveOutcome)
    requires Advancing(clock)
    decreases BudgetMs - (clock(k + 1) - clock(0))
  {
    if !Pumping(st, clock, k) then (st, Finished(k))
    else
      var next := AfterEvents(st, playback, polls(k).events);
      match polls(k).raises
      case Some(r) => (next, Aborted(k + 1, RaisedError(r)))
      case None => DriveFrom(next, playback, polls, clock, k + 1)
  }

  /** The whole of `text_to_speech_websocket`: the result and the effects. */
  function WebsocketRun(cfg: Config, text: string, voiceId: Option<string>, api: StreamingApi): (Result<Reply>, Effects)
    requires Advancing(api.clock)
  {
    if MissingCredentials(cfg) then (Err(ValueError(CredentialsMessage)), NoEffects)
    else
      var playback := !cfg.disablePlayback;
      match ChooseVoice(voiceId, api.voices)
      case None => (Err(DaisysMcpError(NoVoicesMessage)), Effects(playback, true, None, 0, [], None, false))
      case Some(voice) =>
        var request := Some(StreamRequest(voice, text));
        var (st, outcome) := DriveFrom(Initial, playback, api.polls, api.clock, 0);
        match outcome
        case Aborted(n, e) => (Err(e), Effects(playback, true, request, n, st.written, None, false))
        case Finished(n) =>
          var deleted := if st.take.Some? then Some(st.take.value.takeId) else None;
          (Ok(StatusReply(Ready)), Effects(playback, true, request, n, st.written, deleted, playback))
  }

  // ---- What the callbacks do to the session, over any sequence of callbacks ----

  lemma {:induction false} AfterEventsAppend(st: SessionState, playback: bool, a: seq<Event>, b: seq<Event>)
    ensures AfterEvents(st, playback, a + b) == AfterEvents(AfterEvents(st, playback, a), playback, b)
  {
    if b != [] {
      assert (a + b)[..|a + b| - 1] == a + b[..|b| - 1];
      AfterEventsAppend(st, playback, a, b[..|b| - 1]);
    } else {
      assert a + b == a;
    }
  }

  /** `ready` is set exactly when some status callback reported READY, and
      is never cleared. */
  lemma {:induction false} ReadyIffReadyStatus(st: SessionState, playback: bool, es: seq<Event>)
    ensures AfterEvents(st, playback, es).ready <==>
      st.ready || exists i :: 0 <= i < |es| && IsReadyStatus(es[i])
  {
    if es != [] {
      var p := es[..|es| - 1];
      ReadyIffReadyStatus(st, playback, p);
      assert forall i :: 0 <= i < |p| ==> p[i] == es[i];
      if IsReadyStatus(es[|es| - 1]) {
        assert AfterEvents(st, playback, es).ready;
      }
    }
  }

  /** `done` is set exactly when an empty chunk with id 0 or None arrived,
      and is never cleared; non-empty chunks leave it alone. */
  lemma {:induction false} DoneIffEndMarker(st: SessionState, playback: bool, es: seq<Event>)
    ensures AfterEvents(st, playback, es).done <==>
      st.done || exists i :: 0 <= i < |es| && IsEndMarker(es[i])
  {
    if es != [] {
      var p := es[..|es| - 1];
      DoneIffEndMarker(st, playback, p);
      assert forall i :: 0 <= i < |p| ==> p[i] == es[i];
      if IsEndMarker(es[|es| - 1]) {
        assert AfterEvents(st, playback, es).done;
      }
    }
  }

  /** Every status callback overwrites the recorded take, whatever its status. */
  lemma {:induction false} TakeIsLastReported(st: SessionState, playback: bool, es: seq<Event>)
    ensures AfterEvents(st, playback, es).take == if LastTake(es).Some? then LastTake(es) else st.take
  {
    if es != [] {
      TakeIsLastReported(st, playback, es[..|es| - 1]);
    }
  }

  /** With playback on, the non-empty chunks reach the stream in delivery
      order, whatever their chunk ids; with playback off nothing is written. */
  lemma {:induction false} WrittenInDeliveryOrder(st: SessionState, playback: bool, es: seq<Event>)
    ensures AfterEvents(st, playback, es).written == st.written + (if playback then AudioPayloads(es) else [])
  {
    if es != [] {
      WrittenInDeliveryOrder(st, playback, es[..|es| - 1]);
    }
  }

  // ---- The drive loop ----

  lemma {:induction false} ClockGrowth(clock: nat -> int, m: nat)
    requires Advancing(clock)
    ensures clock(m) - clock(0) >= m
  {
    if m > 0 {
      ClockGrowth(clock, m - 1);
      assert clock(m - 1) < clock(m);
    }
  }

  /** The loop's final state is the callbacks of the updates it made, applied in order. */
  lemma {:induction false} DriveAppliesDelivered(st: SessionState, playback: bool, polls: nat -> Poll, clock: nat -> int, k: nat)
    requires Advancing(clock)
    ensures k <= DriveFrom(st, playback, polls, clock, k).1.updates
    ensures DriveFrom(st, playback, polls, clock, k).0 ==
      AfterEvents(st, playback, Delivered(polls, k, DriveFrom(st, playback, polls, clock, k).1.updates))
    decreases BudgetMs - (clock(k + 1) - clock(0))
  {
    if Pumping(st, clock, k) {
      var next := AfterEvents(st, playback, polls(k).events);
      assert Delivered(polls, k + 1, k + 1) == [];
      assert polls(k).events + [] == polls(k).events;
      if polls(k).raises.None? {
        DriveAppliesDelivered(next, playback, polls, clock, k + 1);
        var n := DriveFrom(next, playback, polls, clock, k + 1).1.updates;
        AfterEventsAppend(st, playback, polls(k).events, Delivered(polls, k + 1, n));
      }
    }
  }

  /** The loop stops only when both flags are set or the budget is spent, or
      when an update raises; every update it makes starts within budget and
      while at least one of the flags is still clear. */
  lemma {:induction false} DriveExit(st: SessionState, playback: bool, polls: nat -> Poll, clock: nat -> int, k: nat)
    requires Advancing(clock)
    ensures var (end, out) := DriveFrom(st, playback, polls, clock, k);
      && (out.Finished? ==> (end.ready && end.done) || clock(out.updates + 1) - clock(0) >= BudgetMs)
      && (out.updates > k ==> clock(out.updates) - clock(0) < BudgetMs)
      && (forall j :: k <= j < out.updates ==>
            var before := AfterEvents(st, playback, Delivered(polls, k, j));
            !(before.ready && before.done))
    decreases BudgetMs - (clock(k + 1) - clock(0))
  {
    var out := DriveFrom(st, playback, polls, clock, k).1;
    if Pumping(st, clock, k) {
      assert Delivered(polls, k, k) == [];
      if polls(k).raises.None? {
        var next := AfterEvents(st, playback, polls(k).events);
        DriveExit(next, playback, polls, clock, k + 1);
        forall j | k < j < out.updates
          ensures var before := AfterEvents(st, playback, Delivered(polls, k, j));
                  !(before.ready && before.done)
        {
          assert Delivered(polls, k, j) == polls(k).events + Delivered(polls, k + 1, j);
          AfterEventsAppend(st, playback, polls(k).events, Delivered(polls, k + 1, j));
        }
      }
    }
  }

  /** Only the last update made can have raised, and its exception decides the error. */
  lemma {:induction false} DriveRaises(st: SessionState, playback: bool, polls: nat -> Poll, clock: nat -> int, k: nat)
    requires Advancing(clock)
    ensures var out := DriveFrom(st, playback, polls, clock, k).1;
      && (out.Aborted? ==> out.updates > k && polls(out.updates - 1).raises.Some?
                           && out.error == RaisedError(polls(out.updates - 1).raises.value))
      && (forall j :: k <= j < out.updates && !(out.Aborted? && j == out.updates - 1) ==> polls(j).raises.None?)
    decreases BudgetMs - (clock(k + 1) - clock(0))
  {
    if Pumping(st, clock, k) && polls(k).raises.None? {
      DriveRaises(AfterEvents(st, playback, polls(k).events), playback, polls, clock, k + 1);
    }
  }

  /** Under an advancing clock the loop makes fewer than 60000 update calls
      (one millisecond at least passes between two tests of its condition). */
  lemma UpdatesWithinBudget(st: SessionState, playback: bool, polls: nat -> Poll, clock: nat -> int)
    requires Advancing(clock)
    ensures DriveFrom(st, playback, polls, clock, 0).1.updates < BudgetMs
  {
    var n := DriveFrom(st, playback, polls, clock, 0).1.updates;
    DriveExit(st, playback, polls, clock, 0);
    ClockGrowth(clock, n);
  }

  // ---- The whole path ----

  /** The checks before the socket is opened: missing credentials raise
      ValueError before anything is opened; with no voice id and no voices,
      DaisysMcpError is raised after the stream and the API session are
      opened, and neither is closed; otherwise the socket is asked for the
      given text in the chosen voice, the last one listed when none is given. */
  lemma WebsocketSetup(cfg: Config, text: string, voiceId: Option<string>, api: StreamingApi)
    requires Advancing(api.clock)
    ensures var (r, fx) := WebsocketRun(cfg, text, voiceId, api);
      && (MissingCredentials(cfg) ==> r == Err(ValueError(CredentialsMessage)) && fx == NoEffects)
      && (!MissingCredentials(cfg) && !Truthy(voiceId) && api.voices == [] ==>
            r == Err(DaisysMcpError(NoVoicesMessage)) && fx.apiOpened && fx.request.None?
            && fx.streamOpened == !cfg.disablePlayback && !fx.streamClosed)
      && (fx.request.Some? <==> !MissingCredentials(cfg) && (Truthy(voiceId) || api.voices != []))
      && (fx.request.Some? ==>
            && fx.request.value.text == text
            && fx.request.value.voiceId == if Truthy(voiceId) then voiceId.value else api.voices[|api.voices| - 1].voiceId)
  {
  }

  /** After the socket is opened: fewer than 60000 updates, none made once
      both flags are set; the chunks written are the non-empty ones
      delivered, in order, when playback is on; the call fails exactly when an update raised, with that update's
      error, and then deletes no take and leaves the stream open; otherwise
      it returns READY, having left the loop with both flags set or the
      budget spent, deleted the last reported take and closed the stream. */
  lemma WebsocketSession(cfg: Config, text: string, voiceId: Option<string>, api: StreamingApi)
    requires Advancing(api.clock)
    requires !MissingCredentials(cfg) && (Truthy(voiceId) || api.voices != [])
    ensures var (r, fx) := WebsocketRun(cfg, text, voiceId, api);
      var n := fx.updates;
      var es := Delivered(api.polls, 0, n);
      && n < BudgetMs
      && fx.written == (if cfg.disablePlayback then [] else AudioPayloads(es))
      && (r.Ok? <==> forall j :: 0 <= j < n ==> api.polls(j).raises.None?)
      && (r.Err? ==> n > 0 && api.polls(n - 1).raises.Some? && r.error == RaisedError(api.polls(n - 1).raises.value)
                     && fx.deletedTake.None? && !fx.streamClosed)
      && (r.Ok? ==> r.value == StatusReply(Ready))
      && (forall j :: 0 <= j < n ==>
            var before := AfterEvents(Initial, !cfg.disablePlayback, Delivered(api.polls, 0, j));
            !(before.ready && before.done))
      && (r.Ok? ==> ((exists i :: 0 <= i < |es| && IsReadyStatus(es[i]))
                     && (exists i :: 0 <= i < |es| && IsEndMarker(es[i])))
                    || api.clock(n + 1) - api.clock(0) >= BudgetMs)
      && (r.Ok? ==> fx.deletedTake == (if LastTake(es).Some? then Some(LastTake(es).value.takeId) else None)
                    && fx.streamClosed == !cfg.disablePlayback)
  {
    var playback := !cfg.disablePlayback;
    var (st, out) := DriveFrom(Initial, playback, api.polls, api.clock, 0);
    var es := Delivered(api.polls, 0, out.updates);
    UpdatesWithinBudget(Initial, playback, api.polls, api.clock);
    DriveAppliesDelivered(Initial, playback, api.polls, api.clock, 0);
    DriveExit(Initial, playback, api.polls, api.clock, 0);
    DriveRaises(Initial, playback, api.polls, api.clock, 0);
    WrittenInDeliveryOrder(Initial, playback, es);
    TakeIsLastReported(Initial, playback, es);
    ReadyIffReadyStatus(Initial, playback, es);
    DoneIffEndMarker(Initial, playback, es);
  }

  lemma {:induction false} SilentDelivered(polls: nat -> Poll, k: nat, n: nat)
    requires forall j :: polls(j) == Poll([], None)
    ensures Delivered(polls, k, n) == []
    decreases n - k
  {
    if k < n {
      SilentDelivered(polls, k + 1, n);
    }
  }

  /** The result does not depend on completion: a socket that never calls
      back at all still yields READY once the budget is spent, with no take
      to delete. */
  lemma SilentSessionReportsReady(cfg: Config, text: string, voiceId: Option<string>, api: StreamingApi)
    requires Advancing(api.clock)
    requires !MissingCredentials(cfg) && (Truthy(voiceId) || api.voices != [])
    requires forall j :: api.polls(j) == Poll([], None)
    ensures WebsocketRun(cfg, text, voiceId, api).0 == Ok(StatusReply(Ready))
    ensures WebsocketRun(cfg, text, voiceId, api).1.deletedTake == None
  {
    WebsocketSession(cfg, text, voiceId, api);
    SilentDelivered(api.polls, 0, WebsocketRun(cfg, text, voiceId, api).1.updates);
  }

  /** The state the two callbacks close over. */
  class Session {
    const playback: bool
    var ready: bool
    var done: bool
    var generatedTake: Option<Take>
    var written: seq<Bytes>

    function State(): SessionState
      reads this
    {
      SessionState(ready, done, generatedTake, written)
    }

    constructor (playback: bool)
      ensures this.playback == playback && State() == Initial
    {
      this.playback := playback;
      ready, done, generatedTake, written := false, false, None, [];
    }

    method OnStatus(take: Take)
      modifies this
      ensures State() == AfterStatus(old(State()), take)
    {
      generatedTake := Some(take);
      if take.status == Ready {
        ready := true;
      }
    }

    method OnAudio(chunkId: Option<int>, audio: Bytes)
      modifies this
      ensures State() == AfterAudio(old(State()), playback, chunkId, audio)
    {
      if audio != [] {
        if playback {
          written := written + [audio];
        }
      } else if chunkId == None || chunkId == Some(0) {
        done := true;
      }
    }

    /** One `ws.update` call: the SDK calls back once per message, in order. */
    method Update(events: seq<Event>)
      modifies this
      ensures State() == AfterEvents(old(State()), playback, events)
    {
      var i := 0;
      while i < |events|
        invariant 0 <= i <= |events|
        invariant State() == AfterEvents(old(State()), playback, events[..i])
      {
        match events[i] {
          case StatusEvent(take) => OnStatus(take);
          case AudioEvent(chunkId, audio) => OnAudio(chunkId, audio);
        }
        assert events[..i + 1][..i] == events[..i];
        i := i + 1;
      }
      assert events[..|events|] == events;
    }

    /** The drive loop: one update per test of the condition, until both
        flags are set, the budget is spent, or an update raises. */
    method Drive(polls: nat -> Poll, clock: nat -> int) returns (outcome: DriveOutcome)
      requires Advancing(clock)
      modifies this
      ensures (State(), outcome) == DriveFrom(old(State()), playback, polls, clock, 0)
    {
      var k: nat := 0;
      while !(ready && done) && clock(k + 1) - clock(0) < BudgetMs
        invariant DriveFrom(old(State()), playback, polls, clock, 0) == DriveFrom(State(), playback, polls, clock, k)
        decreases BudgetMs - (clock(k + 1) - clock(0))
      {
        var poll := polls(k);
        Update(poll.events);
        if poll.raises.Some? {
          outcome := Aborted(k + 1, RaisedError(poll.raises.value));
          return;
        }
        k := k + 1;
      }
      outcome := Finished(k);
    }
  }

  /** `text_to_speech_websocket(text, voice_id)`. */
  method TextToSpeechWebsocket(cfg: Config, text: string, voiceId: Option<string>, api: StreamingApi)
    returns (r: Result<Reply>, effects: Effects)
    requires Advancing(api.clock)
    ensures (r, effects) == WebsocketRun(cfg, text, voiceId, api)
  {
    if MissingCredentials(cfg) {
      return Err(ValueError(CredentialsMessage)), NoEffects;
    }
    var playback := !cfg.disablePlayback;
    var voice := ChooseVoice(voiceId, api.voices);
    if voice.None? {
      return Err(DaisysMcpError(NoVoicesMessage)), Effects(playback, true, None, 0, [], None, false);
    }
    var request := Some(StreamRequest(voice.value, text));
    var session := new Session(playback);
    var outcome := session.Drive(api.polls, api.clock);
    match outcome {
      case Aborted(n, e) =>
        r, effects := Err(e), Effects(playback, true, request, n, session.written, None, false);
      case Finished(n) =>
        var deleted := if session.generatedTake.Some? then Some(session.generatedTake.value.takeId) else None;
        r, effects := Ok(StatusReply(Ready)), Effects(playback, true, request, n, session.written, deleted, playback);
    }
  }
}
