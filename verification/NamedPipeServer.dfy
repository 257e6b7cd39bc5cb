/** The pipe server object, its fields updated in place, against the state machine. */
module NamedPipeServer {
  import opened Wrappers
  import opened LifecycleCodec
  import opened ReplayWindow
  import LifecycleCursor

  class PipeServer {
    var connected: bool
    var peer: Option<Peer>
    var expectedSession: Option<nat>
    var expectedExecutable: Option<string>
    var expectedEpoch: Option<U64>
    var expectedNonce: Option<Text>
    var authenticated: bool
    var lastSequence: U64
    var lastFrame: Option<Frame>

    function Pipe(): ReplayWindow.Pipe
      reads this
    {
      ReplayWindow.Pipe(connected, peer, expectedSession, expectedExecutable, expectedEpoch, expectedNonce,
                        authenticated, lastSequence, lastFrame)
    }

    /** `create`: no policy yet. */
    constructor ()
      ensures Created(Pipe())
    {
      connected, peer, authenticated, lastSequence, lastFrame := false, None, false, 0, None;
      expectedSession, expectedExecutable, expectedEpoch, expectedNonce := None, None, None, None;
    }

    method ConfigureReplayPolicy(epoch: U64, nonce: Text) returns (result: Result<Reply, PlatformError>)
      modifies this
      ensures Next(Pipe(), result) == Step(old(Pipe()), Configure(epoch, nonce))
    {
      if authenticated || lastFrame.Some? { return Err(Invalid); }
      if !ValidPolicy(epoch, nonce) { return Err(Invalid); }
      if expectedEpoch.Some? {
        if epoch <= expectedEpoch.value { return Err(IdentityMismatch); }
      } else if expectedNonce.Some? {
        return Err(Invalid);
      }
      expectedEpoch, expectedNonce := Some(epoch), Some(nonce);
      lastSequence, lastFrame := 0, None;
      result := Ok(Done);
    }

    method ResetListenerState(failure: Option<PlatformError>) returns (result: Result<Reply, PlatformError>)
      modifies this
      ensures Next(Pipe(), result) == ResetListener(old(Pipe()), failure)
    {
      if connected && failure.Some? { return Err(failure.value); }
      connected, peer, authenticated, lastFrame := false, None, false, None;
      result := Ok(Done);
    }

    method AcceptClient(timeoutValid: bool, connecting: Connecting) returns (result: Result<Reply, PlatformError>)
      modifies this
      ensures Next(Pipe(), result) == Step(old(Pipe()), Accept(timeoutValid, connecting))
    {
      if !timeoutValid || connected { return Err(Invalid); }
      match connecting {
        case Captured(client) =>
          connected := true;
          peer := Some(client);
          result := Ok(Done);
        case CaptureFailed(error, disconnect) =>
          connected := true;
          var _ := ResetListenerState(disconnect);
          result := Err(error);
        case StillListening(resets) =>
          if resets { var _ := ResetListenerState(None); }
          result := Ok(Idle);
        case ConnectFailed(error, resets) =>
          if resets { var _ := ResetListenerState(None); }
          result := Err(error);
      }
    }

    method AuthenticateConfiguredPeer(identity: Option<PlatformError>) returns (result: Result<Reply, PlatformError>)
      modifies this
      ensures Next(Pipe(), result) == Step(old(Pipe()), AuthenticateConfigured(identity))
    {
      if !connected || peer.None? { return Err(Invalid); }
      if identity.Some? { return Err(identity.value); }
      if expectedExecutable.None? { return Err(Invalid); }
      if expectedSession.Some? && expectedSession.value != peer.value.session { return Err(IdentityMismatch); }
      if expectedExecutable.value != peer.value.executable { return Err(IdentityMismatch); }
      authenticated := true;
      result := Ok(Done);
    }

    method AuthenticatePeer(session: Option<nat>, executable: Result<string, PlatformError>, identity: Option<PlatformError>)
      returns (result: Result<Reply, PlatformError>)
      modifies this
      ensures Next(Pipe(), result) == Step(old(Pipe()), Authenticate(session, executable, identity))
    {
      if executable.Err? { return Err(executable.error); }
      if expectedExecutable.Some? && expectedSession != session { return Err(IdentityMismatch); }
      if expectedExecutable.Some? && expectedExecutable.value != executable.value { return Err(IdentityMismatch); }
      expectedExecutable, expectedSession := Some(executable.value), session;
      result := AuthenticateConfiguredPeer(identity);
    }

    method ReadFrame(identity: Option<PlatformError>, payload: Result<Bytes, PlatformError>)
      returns (result: Result<Reply, PlatformError>)
      modifies this
      ensures Next(Pipe(), result) == Step(old(Pipe()), Read(identity, payload))
    {
      if !authenticated || expectedEpoch.None? || expectedNonce.None? { return Err(IdentityMismatch); }
      if !connected || peer.None? { return Err(Invalid); }
      if identity.Some? { return Err(identity.value); }
      if payload.Err? { return Err(payload.error); }
      var decoded := LifecycleCursor.DecodeFramePayload(payload.value);
      if decoded.Err? { return Err(decoded.error); }
      var frame := decoded.value;
      if expectedEpoch != Some(frame.epoch) || expectedNonce != Some(frame.nonce) { return Err(IdentityMismatch); }
      if frame.sequence <= lastSequence { return Err(IdentityMismatch); }
      lastSequence := frame.sequence;
      lastFrame := Some(frame);
      result := Ok(Accepted(frame));
    }

    method WriteFrame(frame: Frame, identity: Option<PlatformError>, sent: Option<PlatformError>)
      returns (result: Result<Reply, PlatformError>)
      ensures Next(Pipe(), result) == Step(Pipe(), Write(frame, identity, sent))
    {
      if !authenticated || expectedEpoch.None? || expectedNonce.None? { return Err(IdentityMismatch); }
      if !connected || peer.None? { return Err(Invalid); }
      if identity.Some? { return Err(identity.value); }
      var invalid := CheckFrame(frame);
      if invalid.Some? { return Err(invalid.value); }
      if expectedEpoch != Some(frame.epoch) || expectedNonce != Some(frame.nonce) || lastFrame.None?
         || lastFrame.value.sequence != frame.sequence
         || CapabilityOf(lastFrame.value.request) != CapabilityOf(frame.request)
      {
        return Err(IdentityMismatch);
      }
      var payload := LifecycleCursor.EncodeFramePayload(frame);
      FrameFits(frame);
      assert payload.Ok?;
      if sent.Some? { return Err(sent.value); }
      result := Ok(Responded(frame));
    }

    /** `write_request`: the envelope of the last accepted frame around a new request. */
    method WriteRequest(request: LifecycleCodec.Request, identity: Option<PlatformError>, sent: Option<PlatformError>)
      returns (result: Result<Reply, PlatformError>)
      ensures lastFrame.None? ==> result == Err(Invalid)
      ensures lastFrame.Some? ==>
        var last := lastFrame.value;
        Next(Pipe(), result) == Step(Pipe(), Write(Frame(last.nonce, last.epoch, last.sequence, CapabilityOf(request), request), identity, sent))
    {
      if lastFrame.None? { return Err(Invalid); }
      var last := lastFrame.value;
      result := WriteFrame(Frame(last.nonce, last.epoch, last.sequence, CapabilityOf(request), request), identity, sent);
    }

    method DisconnectClient(failure: Option<PlatformError>) returns (result: Result<Reply, PlatformError>)
      modifies this
      ensures Next(Pipe(), result) == Step(old(Pipe()), Disconnect(failure))
    {
      result := ResetListenerState(failure);
    }
  }
}
