/**
 The lifecycle frame codec: a closed request inside an envelope with magic,
 version, capability, epoch, sequence and nonce.  Encoding and decoding are
 mutual inverses.
 */
module LifecycleCodec {
  import opened Wrappers

  newtype Byte = n: int | 0 <= n < 256
  type Bytes = seq<Byte>
  type U64 = n: nat | n < 0x1_0000_0000_0000_0000

  const MAX_ID_BYTES := 128
  const MAX_NONCE_BYTES := 96
  const MAX_PAYLOAD_BYTES := 8 * 1024
  const MAGIC: Bytes := [65, 87, 76, 70]
  const VERSION: Byte := 1

  datatype PlatformError = Invalid | IdentityMismatch | Unavailable | Timeout | Native

  // ----- text -----

  predicate Continuation(b: Byte) { 0x80 <= b <= 0xbf }

  /** Length of the well-formed UTF-8 sequence a text starts with, or 0 if there is none. */
  function SequenceLength(s: Bytes): (n: nat)
    ensures n <= |s|
  {
    if s == [] then 0
    else if s[0] < 0x80 then 1
    else if |s| >= 2 && 0xc2 <= s[0] <= 0xdf && Continuation(s[1]) then 2
    else if |s| >= 3 && Continuation(s[1]) && Continuation(s[2])
            && ((s[0] == 0xe0 && s[1] >= 0xa0) || 0xe1 <= s[0] <= 0xec || (s[0] == 0xed && s[1] <= 0x9f)
                || 0xee <= s[0] <= 0xef) then 3
    else if |s| >= 4 && Continuation(s[1]) && Continuation(s[2]) && Continuation(s[3])
            && ((s[0] == 0xf0 && s[1] >= 0x90) || 0xf1 <= s[0] <= 0xf3 || (s[0] == 0xf4 && s[1] <= 0x8f)) then 4
    else 0
  }

  predicate WellFormed(s: Bytes) {
    s == [] || (SequenceLength(s) > 0 && WellFormed(s[SequenceLength(s)..]))
  }

  /** A Rust string, as its UTF-8 bytes. */
  type Text = s: Bytes | WellFormed(s) witness []

  /** Some character is a control character: U+0000 to U+001F or U+007F to U+009F. */
  predicate HasControl(s: Text) {
    s != [] && (s[0] < 0x20 || s[0] == 0x7f || (s[0] == 0xc2 && s[1] <= 0x9f) || HasControl(s[SequenceLength(s)..]))
  }

  predicate ValidId(value: Text) { 1 <= |value| <= MAX_ID_BYTES && !HasControl(value) }

  predicate NonceByte(b: Byte) {
    48 <= b <= 57 || 65 <= b <= 90 || 97 <= b <= 122 || b == 45 || b == 95
  }

  predicate ValidNonce(value: Text) {
    1 <= |value| <= MAX_NONCE_BYTES && forall i :: 0 <= i < |value| ==> NonceByte(value[i])
  }

  // ----- frames -----

  datatype Component = Gateway | Harness | HostBroker | Synthetic

  datatype Capability = StartCapability | StopCapability | HeartbeatCapability

  datatype Request =
    | Start(component: Component, instance: Text, incarnation: Text)
    | Stop(component: Component, instance: Text, incarnation: Text)
    | Heartbeat(instance: Text, incarnation: Text, beat: U64)

  datatype Frame = Frame(nonce: Text, epoch: U64, sequence: U64, capability: Capability, request: Request)

  function CapabilityOf(request: Request): Capability {
    match request
    case Start(_, _, _) => StartCapability
    case Stop(_, _, _) => StopCapability
    case Heartbeat(_, _, _) => HeartbeatCapability
  }

  predicate ValidRequest(request: Request) { ValidId(request.instance) && ValidId(request.incarnation) }

  /** `LifecycleFrame::validate`: None when the frame may be transported. */
  function CheckFrame(frame: Frame): Option<PlatformError> {
    if !ValidNonce(frame.nonce) || frame.epoch == 0 || frame.sequence == 0 then Some(Invalid)
    else if frame.capability != CapabilityOf(frame.request) then Some(IdentityMismatch)
    else if !ValidRequest(frame.request) then Some(Invalid)
    else None
  }

  function ComponentCode(component: Component): Byte {
    match component case Gateway => 1 case Harness => 2 case HostBroker => 3 case Synthetic => 4
  }

  function ComponentFrom(code: Byte): Option<Component> {
    if code == 1 then Some(Gateway) else if code == 2 then Some(Harness)
    else if code == 3 then Some(HostBroker) else if code == 4 then Some(Synthetic) else None
  }

  function CapabilityCode(capability: Capability): Byte {
    match capability case StartCapability => 1 case StopCapability => 2 case HeartbeatCapability => 3
  }

  function CapabilityFrom(code: Byte): Option<Capability> {
    if code == 1 then Some(StartCapability) else if code == 2 then Some(StopCapability)
    else if code == 3 then Some(HeartbeatCapability) else None
  }

  // ----- little-endian numbers -----

  function Power(k: nat): (p: nat)
    ensures p > 0
  {
    if k == 0 then 1 else 256 * Power(k - 1)
  }

  function LittleEndian(n: nat, k: nat): (s: Bytes)
    ensures |s| == k
  {
    if k == 0 then [] else [(n % 256) as Byte] + LittleEndian(n / 256, k - 1)
  }

  function Number(s: Bytes): (n: nat)
    ensures n < Power(|s|)
  {
    if s == [] then 0 else s[0] as nat + 256 * Number(s[1..])
  }

  lemma {:induction false} NumberOfBytes(n: nat, k: nat)
    requires n < Power(k)
    ensures Number(LittleEndian(n, k)) == n
    decreases k
  {
    if k > 0 {
      NumberOfBytes(n / 256, k - 1);
      assert LittleEndian(n, k)[1..] == LittleEndian(n / 256, k - 1);
    }
  }

  lemma {:induction false} BytesOfNumber(s: Bytes)
    ensures LittleEndian(Number(s), |s|) == s
  {
    if s != [] {
      BytesOfNumber(s[1..]);
      assert Number(s) % 256 == s[0] as nat && Number(s) / 256 == Number(s[1..]);
    }
  }

  lemma Powers()
    ensures Power(2) == 0x1_0000 && Power(8) == 0x1_0000_0000_0000_0000
  {
  }

  // ----- encoding -----

  function PutText(value: Text): Bytes { LittleEndian(|value|, 2) + value }

  function ControlBytes(component: Component, instance: Text, incarnation: Text): Bytes {
    [ComponentCode(component)] + (PutText(instance) + PutText(incarnation))
  }

  function HeartbeatBytes(instance: Text, incarnation: Text, beat: U64): Bytes {
    PutText(instance) + PutText(incarnation) + LittleEndian(beat, 8)
  }

  function RequestBytes(request: Request): Bytes {
    match request
    case Start(component, instance, incarnation) => [1] + ControlBytes(component, instance, incarnation)
    case Stop(component, instance, incarnation) => [2] + ControlBytes(component, instance, incarnation)
    case Heartbeat(instance, incarnation, beat) => [3] + HeartbeatBytes(instance, incarnation, beat)
  }

  function PutNonce(nonce: Text): Bytes
    requires |nonce| < 256
  {
    [|nonce| as Byte] + nonce
  }

  function HeaderBytes(capability: Capability): Bytes { MAGIC + [VERSION, CapabilityCode(capability)] }

  function EnvelopeBytes(frame: Frame): Bytes
    requires |frame.nonce| < 256
  {
    LittleEndian(frame.epoch, 8) + LittleEndian(frame.sequence, 8) + PutNonce(frame.nonce)
  }

  function BodyBytes(body: Bytes): Bytes { LittleEndian(|body|, 2) + body }

  function FrameBytes(frame: Frame): Bytes
    requires |frame.nonce| < 256
  {
    HeaderBytes(frame.capability) + (EnvelopeBytes(frame) + BodyBytes(RequestBytes(frame.request)))
  }

  function EncodeRequest(request: Request): Result<Bytes, PlatformError> {
    if !ValidRequest(request) then Err(Invalid)
    else if |RequestBytes(request)| > MAX_PAYLOAD_BYTES then Err(Invalid)
    else Ok(RequestBytes(request))
  }

  function EncodeFrame(frame: Frame): Result<Bytes, PlatformError> {
    var refusal := CheckFrame(frame);
    if refusal.Some? then Err(refusal.value)
    else
      var request := EncodeRequest(frame.request);
      if request.Err? then Err(request.error)
      else if |request.value| >= Power(2) then Err(Invalid)
      else if |FrameBytes(frame)| > MAX_PAYLOAD_BYTES then Err(Invalid)
      else Ok(FrameBytes(frame))
  }

  // ----- decoding -----

  /** A value read from the front of some bytes, and what is left. */
  datatype Parsed<T> = Parsed(value: T, rest: Bytes)

  function ParseU64(s: Bytes): Option<Parsed<U64>> {
    Powers();
    if |s| < 8 then None
    else
      var value: U64 := Number(s[..8]);
      Some(Parsed(value, s[8..]))
  }

  function ParseText(s: Bytes): Option<Parsed<Text>> {
    if |s| < 2 then None
    else
      var n, rest := Number(s[..2]), s[2..];
      if |rest| < n || !WellFormed(rest[..n]) || !ValidId(rest[..n]) then None
      else
        var value: Text := rest[..n];
        Some(Parsed(value, rest[n..]))
  }

  function ParseNonce(s: Bytes): Option<Parsed<Text>> {
    if s == [] then None
    else
      var n, rest := s[0] as nat, s[1..];
      if |rest| < n || !WellFormed(rest[..n]) || !ValidNonce(rest[..n]) then None
      else
        var value: Text := rest[..n];
        Some(Parsed(value, rest[n..]))
  }

  /** Two identities in a row. */
  function ParseIds(s: Bytes): Option<Parsed<(Text, Text)>> {
    var instance := ParseText(s);
    if instance.None? then None
    else
      var incarnation := ParseText(instance.value.rest);
      if incarnation.None? then None
      else Some(Parsed((instance.value.value, incarnation.value.value), incarnation.value.rest))
  }

  function DecodeControl(start: bool, s: Bytes): Result<Request, PlatformError> {
    if s == [] || ComponentFrom(s[0]).None? then Err(Invalid)
    else
      var component, ids := ComponentFrom(s[0]).value, ParseIds(s[1..]);
      if ids.None? || ids.value.rest != [] then Err(Invalid)
      else if start then Ok(Start(component, ids.value.value.0, ids.value.value.1))
      else Ok(Stop(component, ids.value.value.0, ids.value.value.1))
  }

  function DecodeHeartbeat(s: Bytes): Result<Request, PlatformError> {
    var ids := ParseIds(s);
    if ids.None? then Err(Invalid)
    else
      var beat := ParseU64(ids.value.rest);
      if beat.None? || beat.value.rest != [] then Err(Invalid)
      else Ok(Heartbeat(ids.value.value.0, ids.value.value.1, beat.value.value))
  }

  function DecodeRequest(s: Bytes): Result<Request, PlatformError> {
    if s == [] then Err(Invalid)
    else if s[0] == 1 then DecodeControl(true, s[1..])
    else if s[0] == 2 then DecodeControl(false, s[1..])
    else if s[0] == 3 then DecodeHeartbeat(s[1..])
    else Err(Invalid)
  }

  /** Epoch, sequence and nonce, from just after the capability byte. */
  function ParseEnvelope(s: Bytes): Option<Parsed<(U64, U64, Text)>> {
    var epoch := ParseU64(s);
    if epoch.None? then None
    else
      var sequence := ParseU64(epoch.value.rest);
      if sequence.None? then None
      else
        var nonce := ParseNonce(sequence.value.rest);
        if nonce.None? then None
        else Some(Parsed((epoch.value.value, sequence.value.value, nonce.value.value), nonce.value.rest))
  }

  /** The length-prefixed request, which must be all that is left. */
  function ParseBody(s: Bytes): Option<Bytes> {
    if |s| < 2 || |s| - 2 != Number(s[..2]) then None else Some(s[2..])
  }

  function ParseHeader(s: Bytes): Option<Parsed<Capability>> {
    if |s| < 6 || s[..4] != MAGIC || s[4] != VERSION || CapabilityFrom(s[5]).None? then None
    else Some(Parsed(CapabilityFrom(s[5]).value, s[6..]))
  }

  function Assemble(capability: Capability, envelope: (U64, U64, Text), body: Bytes): Result<Frame, PlatformError> {
    var request := DecodeRequest(body);
    if request.Err? then Err(request.error)
    else
      var frame := Frame(envelope.2, envelope.0, envelope.1, capability, request.value);
      var refusal := CheckFrame(frame);
      if refusal.Some? then Err(refusal.value) else Ok(frame)
  }

  function DecodeFrame(s: Bytes): Result<Frame, PlatformError> {
    var header := ParseHeader(s);
    if header.None? then Err(Invalid)
    else
      var envelope := ParseEnvelope(header.value.rest);
      if envelope.None? then Err(Invalid)
      else
        var body := ParseBody(envelope.value.rest);
        if body.None? then Err(Invalid) else Assemble(header.value.value, envelope.value.value, body.value)
  }

  // ----- parsing what was printed, and printing what was parsed -----

  lemma SplitFront(a: Bytes, b: Bytes)
    ensures (a + b)[..|a|] == a && (a + b)[|a|..] == b
  {
  }

  lemma TextParses(value: Text, rest: Bytes)
    requires ValidId(value)
    ensures ParseText(PutText(value) + rest) == Some(Parsed(value, rest))
  {
    var prefix := LittleEndian(|value|, 2);
    Powers();
    NumberOfBytes(|value|, 2);
    assert PutText(value) + rest == prefix + (value + rest);
    SplitFront(prefix, value + rest);
    SplitFront(value, rest);
  }

  lemma TextPrints(s: Bytes)
    requires ParseText(s).Some?
    ensures var p := ParseText(s).value; ValidId(p.value) && s == PutText(p.value) + p.rest
  {
    BytesOfNumber(s[..2]);
    assert s == s[..2] + (s[2..][..Number(s[..2])] + s[2..][Number(s[..2])..]);
  }

  lemma U64Parses(n: U64, rest: Bytes)
    ensures ParseU64(LittleEndian(n, 8) + rest) == Some(Parsed(n, rest))
  {
    Powers();
    NumberOfBytes(n, 8);
    SplitFront(LittleEndian(n, 8), rest);
  }

  lemma U64Prints(s: Bytes)
    requires ParseU64(s).Some?
    ensures var p := ParseU64(s).value; s == LittleEndian(p.value, 8) + p.rest
  {
    BytesOfNumber(s[..8]);
    assert s == s[..8] + s[8..];
  }

  lemma NonceParses(nonce: Text, rest: Bytes)
    requires ValidNonce(nonce)
    ensures ParseNonce(PutNonce(nonce) + rest) == Some(Parsed(nonce, rest))
  {
    assert PutNonce(nonce) + rest == [|nonce| as Byte] + (nonce + rest);
    SplitFront([|nonce| as Byte], nonce + rest);
    SplitFront(nonce, rest);
  }

  lemma NoncePrints(s: Bytes)
    requires ParseNonce(s).Some?
    ensures var p := ParseNonce(s).value; ValidNonce(p.value) && s == PutNonce(p.value) + p.rest
  {
    assert s == [s[0]] + (s[1..][..s[0] as nat] + s[1..][s[0] as nat..]);
  }

  lemma IdsParse(instance: Text, incarnation: Text, rest: Bytes)
    requires ValidId(instance) && ValidId(incarnation)
    ensures ParseIds(PutText(instance) + PutText(incarnation) + rest) == Some(Parsed((instance, incarnation), rest))
  {
    assert PutText(instance) + PutText(incarnation) + rest == PutText(instance) + (PutText(incarnation) + rest);
    TextParses(instance, PutText(incarnation) + rest);
    TextParses(incarnation, rest);
  }

  lemma IdsPrint(s: Bytes)
    requires ParseIds(s).Some?
    ensures var p := ParseIds(s).value;
      ValidId(p.value.0) && ValidId(p.value.1) && s == PutText(p.value.0) + PutText(p.value.1) + p.rest
  {
    var instance := ParseText(s).value;
    TextPrints(s);
    TextPrints(instance.rest);
  }

  lemma ControlParses(start: bool, component: Component, instance: Text, incarnation: Text)
    requires ValidId(instance) && ValidId(incarnation)
    ensures DecodeControl(start, ControlBytes(component, instance, incarnation))
         == Ok(if start then Start(component, instance, incarnation) else Stop(component, instance, incarnation))
  {
    var ids := PutText(instance) + PutText(incarnation);
    SplitFront([ComponentCode(component)], ids);
    IdsParse(instance, incarnation, []);
    assert ids + [] == ids;
  }

  lemma ControlPrints(start: bool, s: Bytes) returns (component: Component, instance: Text, incarnation: Text)
    requires DecodeControl(start, s).Ok?
    ensures DecodeControl(start, s)
         == Ok(if start then Start(component, instance, incarnation) else Stop(component, instance, incarnation))
    ensures ValidId(instance) && ValidId(incarnation) && ControlBytes(component, instance, incarnation) == s
  {
    var ids := ParseIds(s[1..]).value;
    component, instance, incarnation := ComponentFrom(s[0]).value, ids.value.0, ids.value.1;
    IdsPrint(s[1..]);
    NothingLeft(PutText(instance) + PutText(incarnation));
    FirstAndRest(s);
  }

  lemma NothingLeft(s: Bytes)
    ensures s + [] == s
  {
  }

  lemma FirstAndRest(s: Bytes)
    requires s != []
    ensures s == [s[0]] + s[1..]
  {
  }

  lemma HeartbeatParses(instance: Text, incarnation: Text, beat: U64)
    requires ValidId(instance) && ValidId(incarnation)
    ensures DecodeHeartbeat(HeartbeatBytes(instance, incarnation, beat)) == Ok(Heartbeat(instance, incarnation, beat))
  {
    IdsParse(instance, incarnation, LittleEndian(beat, 8));
    U64Parses(beat, []);
    assert LittleEndian(beat, 8) + [] == LittleEndian(beat, 8);
  }

  lemma HeartbeatPrints(s: Bytes)
    requires DecodeHeartbeat(s).Ok?
    ensures var r := DecodeHeartbeat(s).value;
      ValidRequest(r) && r.Heartbeat? && HeartbeatBytes(r.instance, r.incarnation, r.beat) == s
  {
    IdsPrint(s);
    U64Prints(ParseIds(s).value.rest);
  }

  lemma RequestParses(request: Request)
    requires ValidRequest(request)
    ensures DecodeRequest(RequestBytes(request)) == Ok(request)
  {
    match request
    case Start(component, instance, incarnation) =>
      TagParses(1, ControlBytes(component, instance, incarnation));
      ControlParses(true, component, instance, incarnation);
    case Stop(component, instance, incarnation) =>
      TagParses(2, ControlBytes(component, instance, incarnation));
      ControlParses(false, component, instance, incarnation);
    case Heartbeat(instance, incarnation, beat) =>
      TagParses(3, HeartbeatBytes(instance, incarnation, beat));
      HeartbeatParses(instance, incarnation, beat);
  }

  lemma TagParses(tag: Byte, s: Bytes)
    requires 1 <= tag <= 3
    ensures DecodeRequest([tag] + s)
         == if tag == 1 then DecodeControl(true, s) else if tag == 2 then DecodeControl(false, s) else DecodeHeartbeat(s)
  {
    SplitFront([tag], s);
  }

  lemma RequestPrints(s: Bytes)
    requires DecodeRequest(s).Ok?
    ensures ValidRequest(DecodeRequest(s).value) && RequestBytes(DecodeRequest(s).value) == s
  {
    FirstAndRest(s);
    if s[0] == 1 { var _, _, _ := ControlPrints(true, s[1..]); }
    else if s[0] == 2 { var _, _, _ := ControlPrints(false, s[1..]); }
    else { HeartbeatPrints(s[1..]); }
  }

  /** A valid request is at most 269 bytes, so no length limit is ever hit. */
  lemma RequestFits(request: Request)
    requires ValidRequest(request)
    ensures |RequestBytes(request)| <= 269
    ensures EncodeRequest(request) == Ok(RequestBytes(request))
  {
  }

  /** Requests: decoding undoes encoding, and only what encoding produces is decoded. */
  lemma RequestsRoundTrip(request: Request, s: Bytes)
    ensures EncodeRequest(request) == Ok(s) <==> DecodeRequest(s) == Ok(request)
  {
    if EncodeRequest(request) == Ok(s) { RequestParses(request); }
    if DecodeRequest(s) == Ok(request) {
      RequestPrints(s);
      RequestFits(request);
    }
  }

  lemma HeaderParses(capability: Capability, rest: Bytes)
    ensures ParseHeader(HeaderBytes(capability) + rest) == Some(Parsed(capability, rest))
  {
    var s := HeaderBytes(capability) + rest;
    assert s[..4] == MAGIC && s[6..] == rest;
  }

  lemma HeaderPrints(s: Bytes)
    requires ParseHeader(s).Some?
    ensures s == HeaderBytes(ParseHeader(s).value.value) + ParseHeader(s).value.rest
  {
    assert s == s[..4] + [s[4], s[5]] + s[6..];
  }

  lemma EnvelopeParses(frame: Frame, rest: Bytes)
    requires ValidNonce(frame.nonce)
    ensures ParseEnvelope(EnvelopeBytes(frame) + rest) == Some(Parsed((frame.epoch, frame.sequence, frame.nonce), rest))
  {
    var e, q, n := LittleEndian(frame.epoch, 8), LittleEndian(frame.sequence, 8), PutNonce(frame.nonce);
    assert EnvelopeBytes(frame) + rest == e + (q + (n + rest));
    U64Parses(frame.epoch, q + (n + rest));
    U64Parses(frame.sequence, n + rest);
    NonceParses(frame.nonce, rest);
  }

  lemma EnvelopePrints(s: Bytes)
    requires ParseEnvelope(s).Some?
    ensures var p := ParseEnvelope(s).value;
      && ValidNonce(p.value.2)
      && s == LittleEndian(p.value.0, 8) + LittleEndian(p.value.1, 8) + PutNonce(p.value.2) + p.rest
  {
    var epoch := ParseU64(s).value;
    var sequence := ParseU64(epoch.rest).value;
    U64Prints(s);
    U64Prints(epoch.rest);
    NoncePrints(sequence.rest);
  }

  lemma BodyParses(body: Bytes)
    requires |body| < 0x1_0000
    ensures ParseBody(BodyBytes(body)) == Some(body)
  {
    Powers();
    NumberOfBytes(|body|, 2);
    SplitFront(LittleEndian(|body|, 2), body);
  }

  lemma BodyPrints(s: Bytes)
    requires ParseBody(s).Some?
    ensures s == BodyBytes(ParseBody(s).value)
  {
    BytesOfNumber(s[..2]);
    assert s == s[..2] + s[2..];
  }

  lemma PartsParse(frame: Frame, body: Bytes)
    requires ValidNonce(frame.nonce) && |body| < 0x1_0000
    ensures DecodeFrame(HeaderBytes(frame.capability) + (EnvelopeBytes(frame) + BodyBytes(body)))
         == Assemble(frame.capability, (frame.epoch, frame.sequence, frame.nonce), body)
  {
    HeaderParses(frame.capability, EnvelopeBytes(frame) + BodyBytes(body));
    EnvelopeParses(frame, BodyBytes(body));
    BodyParses(body);
  }

  lemma FrameParses(frame: Frame)
    requires CheckFrame(frame).None?
    ensures DecodeFrame(FrameBytes(frame)) == Ok(frame)
  {
    RequestFits(frame.request);
    PartsParse(frame, RequestBytes(frame.request));
    RequestParses(frame.request);
  }

  lemma FramePrints(s: Bytes)
    requires DecodeFrame(s).Ok?
    ensures CheckFrame(DecodeFrame(s).value).None? && FrameBytes(DecodeFrame(s).value) == s
  {
    var header := ParseHeader(s).value;
    var envelope := ParseEnvelope(header.rest).value;
    HeaderPrints(s);
    EnvelopePrints(header.rest);
    BodyPrints(envelope.rest);
    RequestPrints(ParseBody(envelope.rest).value);
  }

  /** A valid frame is at most 390 bytes: the 8 KiB and 16-bit limits are never hit. */
  lemma FrameFits(frame: Frame)
    requires CheckFrame(frame).None?
    ensures |FrameBytes(frame)| <= 390
    ensures EncodeFrame(frame) == Ok(FrameBytes(frame))
  {
    RequestFits(frame.request);
    Powers();
  }

  /** Frames: decoding undoes encoding, and only what encoding produces is decoded. */
  lemma FramesRoundTrip(frame: Frame, s: Bytes)
    ensures EncodeFrame(frame) == Ok(s) <==> DecodeFrame(s) == Ok(frame)
  {
    if EncodeFrame(frame) == Ok(s) { FrameParses(frame); }
    if DecodeFrame(s) == Ok(frame) {
      FramePrints(s);
      FrameFits(frame);
    }
  }

  // ----- what is valid -----

  /** A control character starts at this byte: U+0000 to U+001F, U+007F, or U+0080 to U+009F in its two-byte form. */
  predicate ControlAt(s: Bytes, i: nat)
    requires i < |s|
  {
    s[i] < 0x20 || s[i] == 0x7f || (s[i] == 0xc2 && i + 1 < |s| && s[i + 1] <= 0x9f)
  }

  lemma InsideSequence(s: Bytes, i: nat)
    requires 0 < i < SequenceLength(s)
    ensures Continuation(s[i])
  {
  }

  /** Well-formed text holds a control character exactly when some byte begins one: no other character contains such bytes. */
  lemma {:induction false} ControlIff(s: Text)
    ensures HasControl(s) <==> exists i :: 0 <= i < |s| && ControlAt(s, i)
    decreases |s|
  {
    if s != [] {
      var n := SequenceLength(s);
      var rest: Text := s[n..];
      ControlIff(rest);
      assert s[0] == 0xc2 ==> |s| > 1;
      if i :| 0 <= i < |rest| && ControlAt(rest, i) { assert ControlAt(s, n + i); }
      if i :| 0 <= i < |s| && ControlAt(s, i) {
        if i >= n { assert ControlAt(rest, i - n); } else if i > 0 { InsideSequence(s, i); } else { assert ControlAt(s, 0); }
      }
      if ControlAt(s, 0) { assert HasControl(s); }
    }
  }

  predicate NonceSpelled(nonce: Text) {
    && 1 <= |nonce| <= 96
    && forall i :: 0 <= i < |nonce| ==>
         var c := nonce[i] as char;
         'a' <= c <= 'z' || 'A' <= c <= 'Z' || '0' <= c <= '9' || c == '-' || c == '_'
  }

  ghost predicate IdentitySpelled(value: Text) {
    1 <= |value| <= 128 && forall i :: 0 <= i < |value| ==> !ControlAt(value, i)
  }

  predicate KindMatches(frame: Frame) {
    match frame.request
    case Start(_, _, _) => frame.capability == StartCapability
    case Stop(_, _, _) => frame.capability == StopCapability
    case Heartbeat(_, _, _) => frame.capability == HeartbeatCapability
  }

  lemma NonceIff(nonce: Text)
    ensures ValidNonce(nonce) <==> NonceSpelled(nonce)
  {
  }

  lemma IdentityIff(value: Text)
    ensures ValidId(value) <==> IdentitySpelled(value)
  {
    ControlIff(value);
  }

  /** A frame is encoded exactly when nonce, epoch, sequence, capability and identities are in order, and the refusal tells which. */
  lemma EncodesIff(frame: Frame)
    ensures var envelope := NonceSpelled(frame.nonce) && frame.epoch > 0 && frame.sequence > 0;
      && (EncodeFrame(frame).Ok? <==>
            && envelope && KindMatches(frame)
            && IdentitySpelled(frame.request.instance) && IdentitySpelled(frame.request.incarnation))
      && (EncodeFrame(frame) == Err(IdentityMismatch) <==> envelope && !KindMatches(frame))
      && (EncodeFrame(frame).Err? ==> EncodeFrame(frame).error in {Invalid, IdentityMismatch})
  {
    NonceIff(frame.nonce);
    IdentityIff(frame.request.instance);
    IdentityIff(frame.request.incarnation);
    if CheckFrame(frame).None? { FrameFits(frame); }
  }

  /** Valid in every part, but with the capability of another kind of request. */
  predicate Misdirected(frame: Frame) {
    && ValidNonce(frame.nonce) && frame.epoch > 0 && frame.sequence > 0 && ValidRequest(frame.request)
    && !KindMatches(frame)
  }

  lemma MisdirectedParses(frame: Frame)
    requires Misdirected(frame)
    ensures DecodeFrame(FrameBytes(frame)) == Err(IdentityMismatch)
  {
    RequestFits(frame.request);
    PartsParse(frame, RequestBytes(frame.request));
    RequestParses(frame.request);
  }

  lemma MisdirectedPrints(s: Bytes) returns (frame: Frame)
    requires DecodeFrame(s) == Err(IdentityMismatch)
    ensures Misdirected(frame) && FrameBytes(frame) == s
  {
    var header := ParseHeader(s).value;
    var envelope := ParseEnvelope(header.rest).value;
    var body := ParseBody(envelope.rest).value;
    HeaderPrints(s);
    EnvelopePrints(header.rest);
    BodyPrints(envelope.rest);
    RequestErrors(body);
    RequestPrints(body);
    frame := Frame(envelope.value.2, envelope.value.0, envelope.value.1, header.value, DecodeRequest(body).value);
  }

  lemma RequestErrors(s: Bytes)
    ensures DecodeRequest(s).Err? ==> DecodeRequest(s).error == Invalid
  {
  }

  /** Decoding tells a mismatch exactly for the bytes of a frame that is misdirected; anything else undecodable is invalid. */
  lemma MismatchIff(s: Bytes)
    ensures DecodeFrame(s) == Err(IdentityMismatch) <==> exists frame :: Misdirected(frame) && FrameBytes(frame) == s
    ensures DecodeFrame(s).Err? ==> DecodeFrame(s).error in {Invalid, IdentityMismatch}
  {
    if DecodeFrame(s) == Err(IdentityMismatch) {
      var frame := MisdirectedPrints(s);
    }
    if frame :| Misdirected(frame) && FrameBytes(frame) == s { MisdirectedParses(frame); }
    DecodeErrors(s);
  }

  lemma DecodeErrors(s: Bytes)
    ensures DecodeFrame(s).Err? ==> DecodeFrame(s).error in {Invalid, IdentityMismatch}
  {
    if ParseHeader(s).Some? && ParseEnvelope(ParseHeader(s).value.rest).Some? {
      var body := ParseBody(ParseEnvelope(ParseHeader(s).value.rest).value.rest);
      if body.Some? { RequestErrors(body.value); }
    }
  }

  // ----- the layout on the wire -----

  lemma {:induction false} LittleEndianDigit(n: nat, k: nat, i: nat)
    requires i < k
    ensures LittleEndian(n, k)[i] as nat == (n / Power(i)) % 256
  {
    if i > 0 {
      LittleEndianDigit(n / 256, k - 1, i - 1);
      DivideTwice(n, Power(i - 1));
    }
  }

  lemma DivideTwice(n: nat, p: nat)
    requires p > 0
    ensures (n / 256) / p == n / (256 * p)
  {
    var q := n / (256 * p);
    var r := n - q * (256 * p);
    assert 0 <= r < 256 * p;
    assert n == 256 * (q * p) + r;
    assert n / 256 == q * p + r / 256;
    assert 0 <= r / 256 < p;
    Quotient(n / 256, p, q, r / 256);
  }

  lemma Quotient(n: nat, p: nat, q: nat, r: nat)
    requires p > 0 && n == q * p + r && r < p
    ensures n / p == q
  {
    var d := n / p - q;
    assert n == (n / p) * p + n % p;
    assert d * p == r - n % p;
    AtLeastOnce(d, p);
  }

  lemma AtLeastOnce(d: int, p: int)
    requires p >= 0
    ensures d > 0 ==> d * p >= p
    ensures d < 0 ==> d * p <= -p
  {
  }

  /** Eight bytes from a position are a number, least significant byte first. */
  ghost predicate U64At(s: Bytes, at: nat, n: nat) {
    at + 8 <= |s| && forall i :: 0 <= i < 8 ==> s[at + i] as nat == (n / Power(i)) % 256
  }

  /** A text from a position, after its length in two bytes. */
  ghost predicate TextAt(s: Bytes, at: nat, value: Text) {
    && at + 2 + |value| <= |s| && s[at] as nat + 256 * s[at + 1] as nat == |value|
    && s[at + 2..at + 2 + |value|] == value
  }

  lemma U64Placed(before: Bytes, n: U64, after: Bytes)
    ensures U64At(before + (LittleEndian(n, 8) + after), |before|, n)
  {
    var s := before + (LittleEndian(n, 8) + after);
    forall i | 0 <= i < 8 ensures s[|before| + i] as nat == (n / Power(i)) % 256 {
      LittleEndianDigit(n, 8, i);
      assert s[|before| + i] == LittleEndian(n, 8)[i];
    }
  }

  lemma ShortNumber(n: nat)
    requires n < 0x1_0000
    ensures LittleEndian(n, 2) == [(n % 256) as Byte, (n / 256) as Byte]
  {
    assert LittleEndian(n / 256, 1) == [(n / 256 % 256) as Byte] + LittleEndian(n / 256 / 256, 0);
  }

  lemma TextPlaced(before: Bytes, value: Text, after: Bytes)
    requires |value| < 0x1_0000
    ensures TextAt(before + (PutText(value) + after), |before|, value)
  {
    ShortNumber(|value|);
    var s := before + (PutText(value) + after);
    assert s[|before|] == LittleEndian(|value|, 2)[0] && s[|before| + 1] == LittleEndian(|value|, 2)[1];
    assert s[|before| + 2..|before| + 2 + |value|] == value;
  }

  /** The layout of an encoded frame, by offset. */
  ghost predicate FrameLayout(s: Bytes, frame: Frame, body: Bytes) {
    var n := |frame.nonce|;
    && |s| == 25 + n + |body|
    && s[0] == 65 && s[1] == 87 && s[2] == 76 && s[3] == 70 && s[4] == 1
    && s[5] == (match frame.request case Start(_, _, _) => 1 case Stop(_, _, _) => 2 case Heartbeat(_, _, _) => 3)
    && U64At(s, 6, frame.epoch) && U64At(s, 14, frame.sequence)
    && s[22] as nat == n && s[23..23 + n] == frame.nonce
    && s[23 + n] as nat + 256 * s[24 + n] as nat == |body| && s[25 + n..] == body
  }

  lemma FramePieces(frame: Frame)
    requires CheckFrame(frame).None?
    ensures FrameBytes(frame) == HeaderBytes(frame.capability) + (LittleEndian(frame.epoch, 8)
              + (LittleEndian(frame.sequence, 8) + (PutNonce(frame.nonce) + BodyBytes(RequestBytes(frame.request)))))
    ensures FrameBytes(frame) == (HeaderBytes(frame.capability) + LittleEndian(frame.epoch, 8)) + (LittleEndian(frame.sequence, 8)
              + (PutNonce(frame.nonce) + BodyBytes(RequestBytes(frame.request))))
    ensures FrameBytes(frame) == (HeaderBytes(frame.capability) + LittleEndian(frame.epoch, 8) + LittleEndian(frame.sequence, 8))
              + (PutNonce(frame.nonce) + BodyBytes(RequestBytes(frame.request)))
  {
  }

  lemma TailPlaced(before: Bytes, nonce: Text, body: Bytes)
    requires |before| == 22 && |nonce| < 256 && |body| < 0x1_0000
    ensures var s, n := before + (PutNonce(nonce) + BodyBytes(body)), |nonce|;
      && |s| == 25 + n + |body| && s[22] as nat == n && s[23..23 + n] == nonce
      && s[23 + n] as nat + 256 * s[24 + n] as nat == |body| && s[25 + n..] == body
  {
    ShortNumber(|body|);
    var s, n := before + (PutNonce(nonce) + BodyBytes(body)), |nonce|;
    assert s[23 + n] == LittleEndian(|body|, 2)[0] && s[24 + n] == LittleEndian(|body|, 2)[1];
  }

  /** An encoded frame has the magic, version and capability code, then epoch, sequence, nonce and request at fixed places. */
  lemma FrameIsLaidOut(frame: Frame)
    requires CheckFrame(frame).None?
    ensures EncodeFrame(frame).Ok? && FrameLayout(EncodeFrame(frame).value, frame, RequestBytes(frame.request))
  {
    FrameFits(frame);
    RequestFits(frame.request);
    FramePieces(frame);
    var header := HeaderBytes(frame.capability);
    var tail := PutNonce(frame.nonce) + BodyBytes(RequestBytes(frame.request));
    U64Placed(header, frame.epoch, LittleEndian(frame.sequence, 8) + tail);
    U64Placed(header + LittleEndian(frame.epoch, 8), frame.sequence, tail);
    TailPlaced(header + LittleEndian(frame.epoch, 8) + LittleEndian(frame.sequence, 8), frame.nonce, RequestBytes(frame.request));
  }

  /** The layout of an encoded request: its kind, for a control request its component, the two identities, for a heartbeat its count. */
  ghost predicate RequestLayout(s: Bytes, request: Request) {
    match request
    case Start(component, instance, incarnation) => s != [] && s[0] == 1 && ControlLayout(s, component, instance, incarnation)
    case Stop(component, instance, incarnation) => s != [] && s[0] == 2 && ControlLayout(s, component, instance, incarnation)
    case Heartbeat(instance, incarnation, beat) =>
      && |s| == 13 + |instance| + |incarnation| && s[0] == 3
      && TextAt(s, 1, instance) && TextAt(s, 3 + |instance|, incarnation)
      && U64At(s, 5 + |instance| + |incarnation|, beat)
  }

  ghost predicate ControlLayout(s: Bytes, component: Component, instance: Text, incarnation: Text) {
    && |s| == 6 + |instance| + |incarnation|
    && s[1] == (match component case Gateway => 1 case Harness => 2 case HostBroker => 3 case Synthetic => 4)
    && TextAt(s, 2, instance) && TextAt(s, 4 + |instance|, incarnation)
  }

  lemma ControlIsLaidOut(kind: Byte, component: Component, instance: Text, incarnation: Text)
    requires |instance| < 0x1_0000 && |incarnation| < 0x1_0000
    ensures ControlLayout([kind] + ControlBytes(component, instance, incarnation), component, instance, incarnation)
  {
    var s, start := [kind] + ControlBytes(component, instance, incarnation), [kind, ComponentCode(component)];
    assert s == start + (PutText(instance) + PutText(incarnation));
    assert s == (start + PutText(instance)) + (PutText(incarnation) + []);
    TextPlaced(start, instance, PutText(incarnation));
    TextPlaced(start + PutText(instance), incarnation, []);
  }

  lemma HeartbeatIsLaidOut(instance: Text, incarnation: Text, beat: U64)
    requires |instance| < 0x1_0000 && |incarnation| < 0x1_0000
    ensures RequestLayout(RequestBytes(Heartbeat(instance, incarnation, beat)), Heartbeat(instance, incarnation, beat))
  {
    var s, start: Bytes := RequestBytes(Heartbeat(instance, incarnation, beat)), [3];
    assert s == start + (PutText(instance) + (PutText(incarnation) + LittleEndian(beat, 8)));
    assert s == (start + PutText(instance)) + (PutText(incarnation) + LittleEndian(beat, 8));
    assert s == (start + PutText(instance) + PutText(incarnation)) + (LittleEndian(beat, 8) + []);
    TextPlaced(start, instance, PutText(incarnation) + LittleEndian(beat, 8));
    TextPlaced(start + PutText(instance), incarnation, LittleEndian(beat, 8));
    U64Placed(start + PutText(instance) + PutText(incarnation), beat, []);
  }

  lemma RequestIsLaidOut(request: Request)
    requires ValidRequest(request)
    ensures EncodeRequest(request).Ok? && RequestLayout(EncodeRequest(request).value, request)
  {
    RequestFits(request);
    match request
    case Start(component, instance, incarnation) => ControlIsLaidOut(1, component, instance, incarnation);
    case Stop(component, instance, incarnation) => ControlIsLaidOut(2, component, instance, incarnation);
    case Heartbeat(instance, incarnation, beat) => HeartbeatIsLaidOut(instance, incarnation, beat);
  }
}
