/**
 The lifecycle pipe as a state machine over its calls.  What the operating system
 answers (connections, peer identities, raw reads and writes) is part of each
 event, so a run may see any answers at all.
 */
module ReplayWindow {
  import opened Wrappers
  import opened LifecycleCodec

  /** Peer facts captured at connect time; executable paths are kept in normalised form. */
  datatype Peer = Peer(session: nat, executable: string)

  datatype Pipe = Pipe(
    connected: bool, peer: Option<Peer>, expectedSession: Option<nat>, expectedExecutable: Option<string>,
    expectedEpoch: Option<U64>, expectedNonce: Option<Text>, authenticated: bool,
    lastSequence: U64, lastFrame: Option<Frame>)

  datatype Connecting =
    | Captured(peer: Peer)
    | CaptureFailed(error: PlatformError, disconnect: Option<PlatformError>)
    | StillListening(resets: bool)
    | ConnectFailed(error: PlatformError, resets: bool)

  datatype Event =
    | Configure(epoch: U64, nonce: Text)
    | Accept(timeoutValid: bool, connecting: Connecting)
    | Authenticate(session: Option<nat>, executable: Result<string, PlatformError>, identity: Option<PlatformError>)
    | AuthenticateConfigured(identity: Option<PlatformError>)
    | Read(identity: Option<PlatformError>, payload: Result<Bytes, PlatformError>)
    | Write(frame: Frame, identity: Option<PlatformError>, sent: Option<PlatformError>)
    | Disconnect(failure: Option<PlatformError>)

  datatype Reply = Done | Idle | Accepted(frame: Frame) | Responded(frame: Frame)

  datatype Next = Next(pipe: Pipe, result: Result<Reply, PlatformError>)

  predicate ValidPolicy(epoch: U64, nonce: Text) { epoch != 0 && ValidNonce(nonce) }

  /** A pipe without policy, or bound to an executable and a replay policy. */
  predicate Created(pipe: Pipe) {
    && !pipe.connected && pipe.peer.None? && !pipe.authenticated && pipe.lastSequence == 0 && pipe.lastFrame.None?
    && (pipe.expectedExecutable.Some? <==> pipe.expectedEpoch.Some?)
    && (pipe.expectedEpoch.Some? <==> pipe.expectedNonce.Some?)
    && (pipe.expectedEpoch.Some? ==> ValidPolicy(pipe.expectedEpoch.value, pipe.expectedNonce.value))
  }

  function Reset(pipe: Pipe): Pipe {
    pipe.(connected := false, peer := None, authenticated := false, lastFrame := None)
  }

  /** `reset_listener`: a failing disconnect leaves everything as it was. */
  function ResetListener(pipe: Pipe, failure: Option<PlatformError>): Next {
    if pipe.connected && failure.Some? then Next(pipe, Err(failure.value)) else Next(Reset(pipe), Ok(Done))
  }

  function CheckIdentity(pipe: Pipe, identity: Option<PlatformError>): Option<PlatformError> {
    if !pipe.connected || pipe.peer.None? then Some(Invalid) else identity
  }

  function RequireAuthenticated(pipe: Pipe): Option<PlatformError> {
    if !pipe.authenticated || pipe.expectedEpoch.None? || pipe.expectedNonce.None? then Some(IdentityMismatch) else None
  }

  function CheckReplay(pipe: Pipe, frame: Frame): Option<PlatformError> {
    if pipe.expectedEpoch != Some(frame.epoch) || pipe.expectedNonce != Some(frame.nonce) then Some(IdentityMismatch)
    else if frame.sequence <= pipe.lastSequence then Some(IdentityMismatch)
    else None
  }

  function ConfigureNext(pipe: Pipe, epoch: U64, nonce: Text): Next {
    if pipe.authenticated || pipe.lastFrame.Some? then Next(pipe, Err(Invalid))
    else if !ValidPolicy(epoch, nonce) then Next(pipe, Err(Invalid))
    else if pipe.expectedEpoch.Some? && epoch <= pipe.expectedEpoch.value then Next(pipe, Err(IdentityMismatch))
    else if pipe.expectedEpoch.None? && pipe.expectedNonce.Some? then Next(pipe, Err(Invalid))
    else Next(pipe.(expectedEpoch := Some(epoch), expectedNonce := Some(nonce), lastSequence := 0, lastFrame := None), Ok(Done))
  }

  function AcceptNext(pipe: Pipe, timeoutValid: bool, connecting: Connecting): Next {
    if !timeoutValid || pipe.connected then Next(pipe, Err(Invalid))
    else
      match connecting
      case Captured(peer) => Next(pipe.(connected := true, peer := Some(peer)), Ok(Done))
      case CaptureFailed(error, disconnect) =>
        Next(ResetListener(pipe.(connected := true), disconnect).pipe, Err(error))
      case StillListening(resets) => Next(if resets then Reset(pipe) else pipe, Ok(Idle))
      case ConnectFailed(error, resets) => Next(if resets then Reset(pipe) else pipe, Err(error))
  }

  function AuthenticateConfiguredNext(pipe: Pipe, identity: Option<PlatformError>): Next {
    var refusal := CheckIdentity(pipe, identity);
    if refusal.Some? then Next(pipe, Err(refusal.value))
    else if pipe.peer.None? || pipe.expectedExecutable.None? then Next(pipe, Err(Invalid))
    else if pipe.expectedSession.Some? && pipe.expectedSession.value != pipe.peer.value.session then
      Next(pipe, Err(IdentityMismatch))
    else if pipe.expectedExecutable.value != pipe.peer.value.executable then Next(pipe, Err(IdentityMismatch))
    else Next(pipe.(authenticated := true), Ok(Done))
  }

  function AuthenticateNext(pipe: Pipe, session: Option<nat>, executable: Result<string, PlatformError>,
                            identity: Option<PlatformError>): Next
  {
    if executable.Err? then Next(pipe, Err(executable.error))
    else if pipe.expectedExecutable.Some? && pipe.expectedSession != session then Next(pipe, Err(IdentityMismatch))
    else if pipe.expectedExecutable.Some? && pipe.expectedExecutable.value != executable.value then
      Next(pipe, Err(IdentityMismatch))
    else AuthenticateConfiguredNext(
           pipe.(expectedExecutable := Some(executable.value), expectedSession := session), identity)
  }

  function ReadNext(pipe: Pipe, identity: Option<PlatformError>, payload: Result<Bytes, PlatformError>): Next {
    var refusal := RequireAuthenticated(pipe);
    if refusal.Some? then Next(pipe, Err(refusal.value))
    else
      var mismatch := CheckIdentity(pipe, identity);
      if mismatch.Some? then Next(pipe, Err(mismatch.value))
      else if payload.Err? then Next(pipe, Err(payload.error))
      else
        var frame := DecodeFrame(payload.value);
        if frame.Err? then Next(pipe, Err(frame.error))
        else
          var replay := CheckReplay(pipe, frame.value);
          if replay.Some? then Next(pipe, Err(replay.value))
          else Next(pipe.(lastSequence := frame.value.sequence, lastFrame := Some(frame.value)), Ok(Accepted(frame.value)))
  }

  predicate Answers(pipe: Pipe, frame: Frame) {
    && pipe.expectedEpoch == Some(frame.epoch) && pipe.expectedNonce == Some(frame.nonce)
    && pipe.lastFrame.Some? && pipe.lastFrame.value.sequence == frame.sequence
    && CapabilityOf(pipe.lastFrame.value.request) == CapabilityOf(frame.request)
  }

  function WriteNext(pipe: Pipe, frame: Frame, identity: Option<PlatformError>, sent: Option<PlatformError>): Next {
    var refusal := RequireAuthenticated(pipe);
    if refusal.Some? then Next(pipe, Err(refusal.value))
    else
      var mismatch := CheckIdentity(pipe, identity);
      if mismatch.Some? then Next(pipe, Err(mismatch.value))
      else
        var invalid := CheckFrame(frame);
        if invalid.Some? then Next(pipe, Err(invalid.value))
        else if !Answers(pipe, frame) then Next(pipe, Err(IdentityMismatch))
        else if sent.Some? then Next(pipe, Err(sent.value))
        else Next(pipe, Ok(Responded(frame)))
  }

  function Step(pipe: Pipe, event: Event): Next {
    match event
    case Configure(epoch, nonce) => ConfigureNext(pipe, epoch, nonce)
    case Accept(timeoutValid, connecting) => AcceptNext(pipe, timeoutValid, connecting)
    case Authenticate(session, executable, identity) => AuthenticateNext(pipe, session, executable, identity)
    case AuthenticateConfigured(identity) => AuthenticateConfiguredNext(pipe, identity)
    case Read(identity, payload) => ReadNext(pipe, identity, payload)
    case Write(frame, identity, sent) => WriteNext(pipe, frame, identity, sent)
    case Disconnect(failure) => ResetListener(pipe, failure)
  }

  // ----- runs -----

  /** What a run shows to the outside: accepted frames, responses, and where connections begin and end. */
  datatype Entry = Boundary | Request(frame: Frame) | Response(frame: Frame)

  function Shows(pipe: Pipe, event: Event): seq<Entry> {
    var next := Step(pipe, event);
    if next.result.Ok? && next.result.value.Accepted? then [Request(next.result.value.frame)]
    else if next.result.Ok? && next.result.value.Responded? then [Response(next.result.value.frame)]
    else if next.pipe.connected != pipe.connected then [Boundary]
    else []
  }

  function State(start: Pipe, events: seq<Event>): Pipe {
    if events == [] then start else Step(State(start, events[..|events| - 1]), events[|events| - 1]).pipe
  }

  function Log(start: Pipe, events: seq<Event>): seq<Entry> {
    if events == [] then []
    else
      var before := events[..|events| - 1];
      Log(start, before) + Shows(State(start, before), events[|events| - 1])
  }

  predicate Before(a: Frame, b: Frame) { a.epoch < b.epoch || (a.epoch == b.epoch && a.sequence < b.sequence) }

  ghost predicate Increasing(log: seq<Entry>) {
    forall i, j :: 0 <= i < j < |log| && log[i].Request? && log[j].Request? ==> Before(log[i].frame, log[j].frame)
  }

  /** The window has moved to or past every accepted frame. */
  ghost predicate Covered(pipe: Pipe, log: seq<Entry>) {
    forall i :: 0 <= i < |log| && log[i].Request? ==>
      && pipe.expectedEpoch.Some?
      && (log[i].frame.epoch < pipe.expectedEpoch.value
          || (log[i].frame.epoch == pipe.expectedEpoch.value && log[i].frame.sequence <= pipe.lastSequence))
  }

  /** Entry `i` is the request of the current connection that is still open to an answer. */
  ghost predicate LastRequest(log: seq<Entry>, i: int, frame: Frame) {
    0 <= i < |log| && log[i] == Request(frame) && forall m :: i < m < |log| ==> log[m].Response?
  }

  ghost predicate Inv(pipe: Pipe, log: seq<Entry>) {
    && Increasing(log) && Covered(pipe, log)
    && (!pipe.connected ==> pipe.lastFrame.None? && !pipe.authenticated)
    && (pipe.lastFrame.Some? ==>
          && pipe.expectedEpoch == Some(pipe.lastFrame.value.epoch) && pipe.expectedNonce == Some(pipe.lastFrame.value.nonce)
          && exists i :: LastRequest(log, i, pipe.lastFrame.value))
  }

  lemma RequestExtends(pipe: Pipe, log: seq<Entry>, frame: Frame)
    requires Increasing(log) && Covered(pipe, log) && CheckReplay(pipe, frame).None?
    ensures Increasing(log + [Request(frame)])
    ensures Covered(pipe.(lastSequence := frame.sequence, lastFrame := Some(frame)), log + [Request(frame)])
    ensures LastRequest(log + [Request(frame)], |log|, frame)
  {
    var more := log + [Request(frame)];
    assert forall i :: 0 <= i < |log| ==> more[i] == log[i];
  }

  lemma OtherExtends(pipe: Pipe, log: seq<Entry>, entry: Entry)
    requires Increasing(log) && Covered(pipe, log) && !entry.Request?
    ensures Increasing(log + [entry]) && Covered(pipe, log + [entry])
  {
    var more := log + [entry];
    assert forall i :: 0 <= i < |log| ==> more[i] == log[i];
  }

  lemma WindowMoves(pipe: Pipe, next: Pipe, log: seq<Entry>)
    requires Covered(pipe, log)
    requires || (next.expectedEpoch == pipe.expectedEpoch && pipe.lastSequence <= next.lastSequence)
             || (next.expectedEpoch.Some? && (pipe.expectedEpoch.Some? ==> pipe.expectedEpoch.value < next.expectedEpoch.value))
    ensures Covered(next, log)
  {
  }

  /** Only a read accepts, only a write answers, and only accepting or disconnecting draws a boundary. */
  lemma ReadKeeps(pipe: Pipe, log: seq<Entry>, event: Event)
    requires Inv(pipe, log) && event.Read?
    ensures Inv(Step(pipe, event).pipe, log + Shows(pipe, event))
  {
    var next := Step(pipe, event);
    if next.result.Ok? {
      RequestExtends(pipe, log, next.result.value.frame);
    } else {
      assert log + [] == log;
    }
  }

  lemma WriteKeeps(pipe: Pipe, log: seq<Entry>, event: Event)
    requires Inv(pipe, log) && event.Write?
    ensures Inv(Step(pipe, event).pipe, log + Shows(pipe, event))
  {
    if Step(pipe, event).result.Ok? {
      var i :| LastRequest(log, i, pipe.lastFrame.value);
      OtherExtends(pipe, log, Response(event.frame));
      assert LastRequest(log + [Response(event.frame)], i, pipe.lastFrame.value);
    } else {
      assert log + [] == log;
    }
  }

  lemma ConnectionKeeps(pipe: Pipe, log: seq<Entry>, event: Event)
    requires Inv(pipe, log) && (event.Accept? || event.Disconnect?)
    ensures Inv(Step(pipe, event).pipe, log + Shows(pipe, event))
  {
    var next := Step(pipe, event).pipe;
    WindowMoves(pipe, next, log);
    if next.connected != pipe.connected {
      OtherExtends(next, log, Boundary);
    } else {
      assert log + [] == log;
    }
  }

  lemma PolicyKeeps(pipe: Pipe, log: seq<Entry>, event: Event)
    requires Inv(pipe, log) && (event.Configure? || event.Authenticate? || event.AuthenticateConfigured?)
    ensures Inv(Step(pipe, event).pipe, log + Shows(pipe, event))
  {
    assert log + [] == log;
    WindowMoves(pipe, Step(pipe, event).pipe, log);
  }

  lemma StepKeeps(pipe: Pipe, log: seq<Entry>, event: Event)
    requires Inv(pipe, log)
    ensures Inv(Step(pipe, event).pipe, log + Shows(pipe, event))
  {
    if event.Read? { ReadKeeps(pipe, log, event); }
    else if event.Write? { WriteKeeps(pipe, log, event); }
    else if event.Accept? || event.Disconnect? { ConnectionKeeps(pipe, log, event); }
    else { PolicyKeeps(pipe, log, event); }
  }

  lemma {:induction false} RunKeeps(start: Pipe, events: seq<Event>)
    requires Created(start)
    ensures Inv(State(start, events), Log(start, events))
    decreases |events|
  {
    if events != [] {
      var before := events[..|events| - 1];
      RunKeeps(start, before);
      StepKeeps(State(start, before), Log(start, before), events[|events| - 1]);
    }
  }

  /**
   Over any run of calls the accepted frames strictly increase in epoch and then
   sequence, reconnects included, so no frame is accepted twice.
   */
  lemma AcceptedFramesIncrease(start: Pipe, events: seq<Event>, i: nat, j: nat)
    requires Created(start) && i < j < |Log(start, events)|
    requires Log(start, events)[i].Request? && Log(start, events)[j].Request?
    ensures Before(Log(start, events)[i].frame, Log(start, events)[j].frame)
    ensures Log(start, events)[i].frame != Log(start, events)[j].frame
  {
    RunKeeps(start, events);
  }

  /** A response and the request of the same connection that it answers. */
  ghost predicate AnswerTo(log: seq<Entry>, i: int, k: nat)
    requires k < |log| && log[k].Response?
  {
    && 0 <= i < k && log[i].Request? && (forall m :: i < m < k ==> log[m].Response?)
    && var request, response := log[i].frame, log[k].frame;
    && response.epoch == request.epoch && response.nonce == request.nonce && response.sequence == request.sequence
    && CapabilityOf(response.request) == CapabilityOf(request.request)
  }

  ghost predicate Answered(log: seq<Entry>) {
    forall k :: 0 <= k < |log| && log[k].Response? ==> exists i :: AnswerTo(log, i, k)
  }

  lemma AnsweredExtends(log: seq<Entry>, entry: Entry)
    requires Answered(log)
    requires entry.Response? ==> exists i :: AnswerTo(log + [entry], i, |log|)
    ensures Answered(log + [entry])
  {
    var more := log + [entry];
    assert forall m :: 0 <= m < |log| ==> more[m] == log[m];
    forall k | 0 <= k < |more| && more[k].Response? ensures exists i :: AnswerTo(more, i, k) {
      if k < |log| {
        var i :| AnswerTo(log, i, k);
        assert AnswerTo(more, i, k);
      }
    }
  }

  lemma AnsweredStep(pipe: Pipe, log: seq<Entry>, event: Event)
    requires Inv(pipe, log) && Answered(log)
    ensures Answered(log + Shows(pipe, event))
  {
    if Shows(pipe, event) == [] {
      assert log + [] == log;
    } else {
      var entry := Shows(pipe, event)[0];
      if entry.Response? {
        var i :| LastRequest(log, i, pipe.lastFrame.value);
        assert AnswerTo(log + [entry], i, |log|);
      }
      AnsweredExtends(log, entry);
    }
  }

  /**
   Over any run of calls every response carries the epoch, nonce, sequence and
   capability of the last request accepted on the same connection.
   */
  lemma {:induction false} ResponsesAnswerTheirConnection(start: Pipe, events: seq<Event>)
    requires Created(start)
    ensures Answered(Log(start, events))
    decreases |events|
  {
    if events != [] {
      var before := events[..|events| - 1];
      ResponsesAnswerTheirConnection(start, before);
      RunKeeps(start, before);
      AnsweredStep(State(start, before), Log(start, before), events[|events| - 1]);
    }
  }

  // ----- exactly what each call does -----

  /** Connected, authenticated and bound to an epoch and a nonce. */
  predicate Ready(pipe: Pipe) {
    pipe.authenticated && pipe.expectedEpoch.Some? && pipe.expectedNonce.Some? && pipe.connected && pipe.peer.Some?
  }

  /** The frame is inside the window: expected epoch and nonce, and a later sequence. */
  predicate InWindow(pipe: Pipe, frame: Frame) {
    pipe.expectedEpoch == Some(frame.epoch) && pipe.expectedNonce == Some(frame.nonce) && frame.sequence > pipe.lastSequence
  }

  /**
   A read accepts a frame if and only if the pipe is ready, the peer is still
   itself, and the bytes decode to a frame inside the window; it then remembers
   the frame, and otherwise changes nothing.
   */
  lemma ReadsIff(pipe: Pipe, identity: Option<PlatformError>, payload: Result<Bytes, PlatformError>)
    ensures var next := Step(pipe, Read(identity, payload));
      && (next.result.Ok? <==>
            && Ready(pipe) && identity.None? && payload.Ok? && DecodeFrame(payload.value).Ok?
            && InWindow(pipe, DecodeFrame(payload.value).value))
      && (next.result.Ok? ==>
            var frame := DecodeFrame(payload.value).value;
            next == Next(pipe.(lastSequence := frame.sequence, lastFrame := Some(frame)), Ok(Accepted(frame))))
      && (next.result.Err? ==> next.pipe == pipe)
  {
  }

  /** A response goes out if and only if the pipe is ready, the peer is itself, and the valid frame answers the last one accepted. */
  lemma WritesIff(pipe: Pipe, frame: Frame, identity: Option<PlatformError>, sent: Option<PlatformError>)
    ensures var next := Step(pipe, Write(frame, identity, sent));
      && next.pipe == pipe
      && (next.result.Ok? <==>
            && Ready(pipe) && identity.None? && sent.None? && CheckFrame(frame).None? && pipe.lastFrame.Some?
            && frame.epoch == pipe.expectedEpoch.value && frame.nonce == pipe.expectedNonce.value
            && frame.sequence == pipe.lastFrame.value.sequence
            && CapabilityOf(frame.request) == CapabilityOf(pipe.lastFrame.value.request))
      && (next.result.Ok? ==> next.result.value == Responded(frame))
  {
  }

  /** In a run a policy is taken if and only if nobody is authenticated and its epoch is positive and later, and opens a new window. */
  lemma ConfiguresIff(pipe: Pipe, log: seq<Entry>, epoch: U64, nonce: Text)
    requires Inv(pipe, log) && (pipe.expectedEpoch.Some? <==> pipe.expectedNonce.Some?)
    ensures var next := Step(pipe, Configure(epoch, nonce));
      && (next.result == Ok(Done) <==>
            && !pipe.authenticated && pipe.lastFrame.None? && epoch > 0 && ValidNonce(nonce)
            && (pipe.expectedEpoch.Some? ==> epoch > pipe.expectedEpoch.value))
      && next.pipe == if next.result.Ok? then pipe.(expectedEpoch := Some(epoch), expectedNonce := Some(nonce), lastSequence := 0)
                      else pipe
  {
  }

  /** The peer is the one the policy names. */
  predicate PeerFits(pipe: Pipe) {
    && pipe.connected && pipe.peer.Some? && pipe.expectedExecutable == Some(pipe.peer.value.executable)
    && (pipe.expectedSession.Some? ==> pipe.expectedSession.value == pipe.peer.value.session)
  }

  /**
   Authentication under the configured policy succeeds if and only if the peer is
   the one the policy names and still itself, and changes nothing but that.
   */
  lemma AuthenticatesIff(pipe: Pipe, identity: Option<PlatformError>)
    ensures var next := Step(pipe, AuthenticateConfigured(identity));
      && (next.result == Ok(Done) <==> PeerFits(pipe) && identity.None?)
      && next.pipe == if next.result.Ok? then pipe.(authenticated := true) else pipe
  {
  }

  /** Authentication under a given policy: it may not contradict a configured one, and then counts as configured. */
  lemma AuthenticatesAsIff(pipe: Pipe, session: Option<nat>, executable: string, identity: Option<PlatformError>)
    ensures var next := Step(pipe, Authenticate(session, Ok(executable), identity));
      var bound := pipe.(expectedExecutable := Some(executable), expectedSession := session);
      if pipe.expectedExecutable.Some? && (pipe.expectedSession != session || pipe.expectedExecutable.value != executable)
      then next == Next(pipe, Err(IdentityMismatch))
      else
        && (next.result == Ok(Done) <==> PeerFits(bound) && identity.None?)
        && next.pipe == if next.result.Ok? then bound.(authenticated := true) else bound
  {
  }

  /** A connection is taken exactly on a free pipe with a captured peer; a failure or a timeout leaves no connection behind. */
  lemma ConnectsIff(pipe: Pipe, log: seq<Entry>, timeoutValid: bool, connecting: Connecting)
    requires Inv(pipe, log)
    ensures var next := Step(pipe, Accept(timeoutValid, connecting));
      && (next.result == Ok(Done) <==> timeoutValid && !pipe.connected && connecting.Captured?)
      && (next.result == Ok(Done) ==> next.pipe == pipe.(connected := true, peer := Some(connecting.peer)))
      && (next.result == Ok(Idle) <==> timeoutValid && !pipe.connected && connecting.StillListening?)
      && (!timeoutValid || pipe.connected ==> next == Next(pipe, Err(Invalid)))
      && (timeoutValid && !pipe.connected && !connecting.Captured? ==>
            && next.pipe == pipe.(connected := next.pipe.connected, peer := next.pipe.peer) && !next.pipe.authenticated
            && (next.pipe.connected ==> connecting.CaptureFailed? && connecting.disconnect.Some?))
  {
  }

  /** A disconnect ends connection and authentication and drops the open frame, but keeps the sequence window. */
  lemma DisconnectLeaves(pipe: Pipe, failure: Option<PlatformError>)
    ensures Step(pipe, Disconnect(failure)) ==
      if pipe.connected && failure.Some? then Next(pipe, Err(failure.value))
      else Next(pipe.(connected := false, peer := None, authenticated := false, lastFrame := None), Ok(Done))
  {
  }

  // ----- who is on the other end -----

  /** An authenticated pipe is connected to the peer its policy names. */
  ghost predicate Bound(pipe: Pipe) {
    && (pipe.authenticated ==> PeerFits(pipe)) && (!pipe.connected ==> !pipe.authenticated)
    && (pipe.expectedEpoch.Some? <==> pipe.expectedNonce.Some?)
  }

  lemma StepBinds(pipe: Pipe, event: Event)
    requires Bound(pipe)
    ensures Bound(Step(pipe, event).pipe)
  {
  }

  lemma {:induction false} RunBinds(start: Pipe, events: seq<Event>)
    requires Created(start)
    ensures Bound(State(start, events))
    decreases |events|
  {
    if events != [] {
      RunBinds(start, events[..|events| - 1]);
      StepBinds(State(start, events[..|events| - 1]), events[|events| - 1]);
    }
  }

  lemma StepKeepsExecutable(pipe: Pipe, event: Event)
    requires pipe.expectedExecutable.Some?
    ensures Step(pipe, event).pipe.expectedExecutable == pipe.expectedExecutable
  {
  }

  lemma LastOfMore(events: seq<Event>, more: seq<Event>)
    requires more != []
    ensures events + more == events + more[..|more| - 1] + [more[|more| - 1]]
  {
  }

  lemma StateNext(start: Pipe, events: seq<Event>, event: Event)
    ensures State(start, events + [event]) == Step(State(start, events), event).pipe
  {
    assert (events + [event])[..|events|] == events;
  }

  /** The executable an authenticated peer must have, once set, never changes. */
  lemma {:induction false} ExecutableIsKept(start: Pipe, events: seq<Event>, more: seq<Event>)
    requires State(start, events).expectedExecutable.Some?
    ensures State(start, events + more).expectedExecutable == State(start, events).expectedExecutable
    decreases |more|
  {
    if more == [] {
      assert events + more == events;
    } else {
      var init, event := more[..|more| - 1], more[|more| - 1];
      ExecutableIsKept(start, events, init);
      LastOfMore(events, more);
      StateNext(start, events + init, event);
      StepKeepsExecutable(State(start, events + init), event);
    }
  }

  /** Over any run every accepted frame and every response passes between the pipe and the peer its policy names. */
  lemma ExchangesAreWithThePeer(start: Pipe, events: seq<Event>, event: Event)
    requires Created(start) && Shows(State(start, events), event) != [] && !Shows(State(start, events), event)[0].Boundary?
    ensures PeerFits(State(start, events)) && State(start, events).authenticated
  {
    RunBinds(start, events);
  }
}
