/** The codec as it runs: encoders append to a byte vector, a cursor advances an offset. */
module LifecycleCursor {
  import opened Wrappers
  import opened LifecycleCodec

  class Cursor {
    const bytes: Bytes
    var offset: nat

    constructor (bytes: Bytes)
      ensures this.bytes == bytes && offset == 0
    {
      this.bytes, offset := bytes, 0;
    }

    ghost predicate Valid()
      reads this
    {
      offset <= |bytes|
    }

    function Rest(): Bytes
      requires Valid()
      reads this
    {
      bytes[offset..]
    }

    method NextByte() returns (byte: Option<Byte>)
      requires Valid()
      modifies this
      ensures Valid()
      ensures byte.None? <==> old(Rest()) == []
      ensures byte.Some? ==> byte.value == old(Rest())[0] && Rest() == old(Rest())[1..]
      ensures byte.None? ==> Rest() == old(Rest())
    {
      if offset >= |bytes| { return None; }
      offset := offset + 1;
      return Some(bytes[offset - 1]);
    }

    method NextBytes(length: nat) returns (slice: Option<Bytes>)
      requires Valid()
      modifies this
      ensures Valid()
      ensures slice.None? <==> |old(Rest())| < length
      ensures slice.Some? ==> slice.value == old(Rest())[..length] && Rest() == old(Rest())[length..]
    {
      var end := offset + length;
      if end > |bytes| { return None; }
      slice := Some(bytes[offset..end]);
      offset := end;
    }

    method NextU64() returns (number: Option<U64>)
      requires Valid()
      modifies this
      ensures Valid()
      ensures number.None? <==> ParseU64(old(Rest())).None?
      ensures number.Some? ==> ParseU64(old(Rest())) == Some(Parsed(number.value, Rest()))
    {
      var slice := NextBytes(8);
      if slice.None? { return None; }
      Powers();
      var value: U64 := Number(slice.value);
      number := Some(value);
    }

    method NextLength() returns (length: Option<nat>)
      requires Valid()
      modifies this
      ensures Valid()
      ensures length.None? <==> |old(Rest())| < 2
      ensures length.Some? ==> length.value == Number(old(Rest())[..2]) && Rest() == old(Rest())[2..]
    {
      var low := NextByte();
      if low.None? { return None; }
      var high := NextByte();
      if high.None? { return None; }
      TwoBytes(old(Rest()));
      return Some(low.value as nat + 256 * high.value as nat);
    }

    method NextText() returns (text: Option<Text>)
      requires Valid()
      modifies this
      ensures Valid()
      ensures text.None? <==> ParseText(old(Rest())).None?
      ensures text.Some? ==> ParseText(old(Rest())) == Some(Parsed(text.value, Rest()))
    {
      var length := NextLength();
      if length.None? { return None; }
      var slice := NextBytes(length.value);
      if slice.None? || !WellFormed(slice.value) || !ValidId(slice.value) { return None; }
      var value: Text := slice.value;
      text := Some(value);
    }

    method NextNonce() returns (nonce: Option<Text>)
      requires Valid()
      modifies this
      ensures Valid()
      ensures nonce.None? <==> ParseNonce(old(Rest())).None?
      ensures nonce.Some? ==> ParseNonce(old(Rest())) == Some(Parsed(nonce.value, Rest()))
    {
      var length := NextByte();
      if length.None? { return None; }
      var slice := NextBytes(length.value as nat);
      if slice.None? || !WellFormed(slice.value) || !ValidNonce(slice.value) { return None; }
      var value: Text := slice.value;
      nonce := Some(value);
    }

    predicate IsEmpty()
      requires Valid()
      reads this
    {
      offset == |bytes|
    }
  }

  lemma TwoBytes(s: Bytes)
    requires |s| >= 2
    ensures Number(s[..2]) == s[0] as nat + 256 * s[1] as nat
  {
    assert s[..2][1..] == [s[1]];
    assert Number([s[1]]) == s[1] as nat;
  }

  method DecodeIds(cursor: Cursor) returns (ids: Option<(Text, Text)>)
    requires cursor.Valid()
    modifies cursor
    ensures cursor.Valid()
    ensures ids.None? <==> ParseIds(old(cursor.Rest())).None?
    ensures ids.Some? ==> ParseIds(old(cursor.Rest())) == Some(Parsed(ids.value, cursor.Rest()))
  {
    var instance := cursor.NextText();
    if instance.None? { return None; }
    var incarnation := cursor.NextText();
    if incarnation.None? { return None; }
    ids := Some((instance.value, incarnation.value));
  }

  method DecodeControlFrom(cursor: Cursor, start: bool) returns (result: Result<Request, PlatformError>)
    requires cursor.Valid()
    modifies cursor
    ensures result == DecodeControl(start, old(cursor.Rest()))
  {
    var code := cursor.NextByte();
    if code.None? { return Err(Invalid); }
    var component := ComponentFrom(code.value);
    if component.None? { return Err(Invalid); }
    var ids := DecodeIds(cursor);
    if ids.None? || !cursor.IsEmpty() { return Err(Invalid); }
    result := Ok(if start then Start(component.value, ids.value.0, ids.value.1)
                 else Stop(component.value, ids.value.0, ids.value.1));
  }

  method DecodeHeartbeatFrom(cursor: Cursor) returns (result: Result<Request, PlatformError>)
    requires cursor.Valid()
    modifies cursor
    ensures result == DecodeHeartbeat(old(cursor.Rest()))
  {
    var ids := DecodeIds(cursor);
    if ids.None? { return Err(Invalid); }
    var beat := cursor.NextU64();
    if beat.None? || !cursor.IsEmpty() { return Err(Invalid); }
    result := Ok(Heartbeat(ids.value.0, ids.value.1, beat.value));
  }

  method DecodeRequestPayload(payload: Bytes) returns (result: Result<Request, PlatformError>)
    ensures result == DecodeRequest(payload)
  {
    var cursor := new Cursor(payload);
    assert cursor.Rest() == payload;
    var tag := cursor.NextByte();
    if tag.None? { return Err(Invalid); }
    if tag.value == 1 {
      result := DecodeControlFrom(cursor, true);
    } else if tag.value == 2 {
      result := DecodeControlFrom(cursor, false);
    } else if tag.value == 3 {
      result := DecodeHeartbeatFrom(cursor);
    } else {
      result := Err(Invalid);
    }
  }

  method DecodeHeader(cursor: Cursor) returns (capability: Option<Capability>)
    requires cursor.Valid()
    modifies cursor
    ensures cursor.Valid()
    ensures capability.None? <==> ParseHeader(old(cursor.Rest())).None?
    ensures capability.Some? ==> ParseHeader(old(cursor.Rest())) == Some(Parsed(capability.value, cursor.Rest()))
  {
    var magic := cursor.NextBytes(4);
    if magic.None? || magic.value != MAGIC { return None; }
    var version := cursor.NextByte();
    if version.None? || version.value != VERSION { return None; }
    var code := cursor.NextByte();
    if code.None? { return None; }
    capability := CapabilityFrom(code.value);
  }

  method DecodeEnvelope(cursor: Cursor) returns (envelope: Option<(U64, U64, Text)>)
    requires cursor.Valid()
    modifies cursor
    ensures cursor.Valid()
    ensures envelope.None? <==> ParseEnvelope(old(cursor.Rest())).None?
    ensures envelope.Some? ==> ParseEnvelope(old(cursor.Rest())) == Some(Parsed(envelope.value, cursor.Rest()))
  {
    var epoch := cursor.NextU64();
    if epoch.None? { return None; }
    var sequence := cursor.NextU64();
    if sequence.None? { return None; }
    var nonce := cursor.NextNonce();
    if nonce.None? { return None; }
    envelope := Some((epoch.value, sequence.value, nonce.value));
  }

  method DecodeBody(cursor: Cursor) returns (body: Option<Bytes>)
    requires cursor.Valid()
    modifies cursor
    ensures body == ParseBody(old(cursor.Rest()))
  {
    var length := cursor.NextLength();
    if length.None? { return None; }
    ghost var rest := cursor.Rest();
    body := cursor.NextBytes(length.value);
    if body.Some? && !cursor.IsEmpty() { return None; }
    assert body.Some? ==> rest[..length.value] == rest;
  }

  method DecodeFramePayload(payload: Bytes) returns (result: Result<Frame, PlatformError>)
    ensures result == DecodeFrame(payload)
  {
    var cursor := new Cursor(payload);
    assert cursor.Rest() == payload;
    var capability := DecodeHeader(cursor);
    if capability.None? { return Err(Invalid); }
    var envelope := DecodeEnvelope(cursor);
    if envelope.None? { return Err(Invalid); }
    var body := DecodeBody(cursor);
    if body.None? { return Err(Invalid); }
    var request := DecodeRequestPayload(body.value);
    if request.Err? { return Err(request.error); }
    var (epoch, sequence, nonce) := envelope.value;
    var frame := Frame(nonce, epoch, sequence, capability.value, request.value);
    var refusal := CheckFrame(frame);
    if refusal.Some? { return Err(refusal.value); }
    result := Ok(frame);
  }

  lemma Appended(tag: Byte, component: Component, instance: Text, incarnation: Text, beat: U64)
    ensures [] + [tag] + [ComponentCode(component)] + PutText(instance) + PutText(incarnation)
         == [tag] + ControlBytes(component, instance, incarnation)
    ensures [] + [tag] + PutText(instance) + PutText(incarnation) + LittleEndian(beat, 8)
         == [tag] + HeartbeatBytes(instance, incarnation, beat)
  {
  }

  lemma FrameAppended(frame: Frame)
    requires |frame.nonce| < 256
    ensures var body := RequestBytes(frame.request);
      [] + MAGIC + [VERSION] + [CapabilityCode(frame.capability)] + LittleEndian(frame.epoch, 8)
      + LittleEndian(frame.sequence, 8) + PutNonce(frame.nonce) + LittleEndian(|body|, 2) + body == FrameBytes(frame)
  {
  }

  method EncodeRequestPayload(request: Request) returns (result: Result<Bytes, PlatformError>)
    ensures result == EncodeRequest(request)
  {
    if !ValidRequest(request) { return Err(Invalid); }
    var bytes: Bytes := [];
    match request {
      case Start(component, instance, incarnation) =>
        bytes := bytes + [1];
        bytes := bytes + [ComponentCode(component)];
        bytes := bytes + PutText(instance);
        bytes := bytes + PutText(incarnation);
        Appended(1, component, instance, incarnation, 0);
      case Stop(component, instance, incarnation) =>
        bytes := bytes + [2];
        bytes := bytes + [ComponentCode(component)];
        bytes := bytes + PutText(instance);
        bytes := bytes + PutText(incarnation);
        Appended(2, component, instance, incarnation, 0);
      case Heartbeat(instance, incarnation, beat) =>
        bytes := bytes + [3];
        bytes := bytes + PutText(instance);
        bytes := bytes + PutText(incarnation);
        bytes := bytes + LittleEndian(beat, 8);
        Appended(3, Gateway, instance, incarnation, beat);
    }
    if |bytes| > MAX_PAYLOAD_BYTES { return Err(Invalid); }
    result := Ok(bytes);
  }

  method EncodeFramePayload(frame: Frame) returns (result: Result<Bytes, PlatformError>)
    ensures result == EncodeFrame(frame)
  {
    var refusal := CheckFrame(frame);
    if refusal.Some? { return Err(refusal.value); }
    var request := EncodeRequestPayload(frame.request);
    if request.Err? { return Err(request.error); }
    var bytes: Bytes := [];
    bytes := bytes + MAGIC;
    bytes := bytes + [VERSION];
    bytes := bytes + [CapabilityCode(frame.capability)];
    bytes := bytes + LittleEndian(frame.epoch, 8);
    bytes := bytes + LittleEndian(frame.sequence, 8);
    bytes := bytes + PutNonce(frame.nonce);
    Powers();
    if |request.value| >= 0x1_0000 { return Err(Invalid); }
    bytes := bytes + LittleEndian(|request.value|, 2);
    bytes := bytes + request.value;
    FrameAppended(frame);
    if |bytes| > MAX_PAYLOAD_BYTES { return Err(Invalid); }
    result := Ok(bytes);
  }
}
