/** The controller of the composite sensor: exact reads over arbitrary chunks, retries and the recorded state
    (src/device_control/CompositeSensorController.cpp, src/hardware/serial/SerialPort.cpp). */
module SensorController {
  import opened Foundation
  import opened Bytes
  import opened SensorCommands

  // ---------------------------------------------------------------- the serial port

  /** What the device side does at one read: bytes arrive, nothing arrives in time, or the read fails. */
  datatype ReadEvent = Chunk(bytes: seq<byte>) | Quiet | ReadFault

  /** A port with everything the other side will ever do; an exhausted script stays quiet and accepts writes. */
  datatype Port = Port(open: bool, incoming: seq<ReadEvent>, writeFails: seq<bool>, sent: seq<seq<byte>>)

  /** One poll and read of at most `max` bytes; bytes beyond `max` stay for the next read. */
  function PortRead(p: Port, max: nat): (r: (Result<seq<byte>>, Port))
    ensures r.0.Ok? ==> |r.0.value| <= max
    ensures r.1.open == p.open && r.1.sent == p.sent
  {
    if !p.open then (Err(NotInitialized), p)
    else if max == 0 then (Err(InvalidArgument), p)
    else if p.incoming == [] then (Err(SerialReadTimeout), p)
    else
      var rest := p.incoming[1..];
      match p.incoming[0]
      case Quiet => (Err(SerialReadTimeout), p.(incoming := rest))
      case ReadFault => (Err(IoError), p.(incoming := rest))
      case Chunk(b) =>
        if |b| <= max then (Ok(b), p.(incoming := rest))
        else (Ok(b[..max]), p.(incoming := [Chunk(b[max..])] + rest))
  }

  function PortWrite(p: Port, bytes: seq<byte>): (r: (Result<Unit>, Port))
    ensures r.1.open == p.open && r.1.incoming == p.incoming
  {
    if !p.open then (Err(NotInitialized), p)
    else if bytes == [] then (Err(InvalidArgument), p)
    else if p.writeFails == [] then (Ok(Unit), p.(sent := p.sent + [bytes]))
    else if p.writeFails[0] then (Err(SerialWriteFailed), p.(writeFails := p.writeFails[1..]))
    else (Ok(Unit), p.(writeFails := p.writeFails[1..], sent := p.sent + [bytes]))
  }

  // ---------------------------------------------------------------- exact reads

  /** Read until `n` bytes are there; an empty chunk counts as a timeout. */
  function ReadExactly(p: Port, n: nat): (r: (Result<seq<byte>>, Port))
    ensures r.1.open == p.open && r.1.sent == p.sent
    decreases n
  {
    if n == 0 then (Ok([]), p)
    else
      var (chunk, p1) := PortRead(p, n);
      if chunk.Err? then (Err(chunk.code), p1)
      else if chunk.value == [] then (Err(SerialReadTimeout), p1)
      else
        var (rest, p2) := ReadExactly(p1, n - |chunk.value|);
        if rest.Err? then (Err(rest.code), p2) else (Ok(chunk.value + rest.value), p2)
  }

  /** The bytes that arrive before the first quiet poll, fault or empty chunk. */
  function Arriving(incoming: seq<ReadEvent>): seq<byte> {
    if incoming == [] || !incoming[0].Chunk? || incoming[0].bytes == [] then []
    else incoming[0].bytes + Arriving(incoming[1..])
  }

  /** One read takes what it returns off the front of what arrives, and returns nothing only when nothing is there. */
  lemma PortReadTakes(p: Port, max: nat)
    requires p.open && max > 0
    ensures var (chunk, p1) := PortRead(p, max);
            && (chunk.Ok? && chunk.value != [] <==> Arriving(p.incoming) != [])
            && (chunk.Ok? && chunk.value != [] ==> Arriving(p.incoming) == chunk.value + Arriving(p1.incoming))
            && (chunk.Err? ==> chunk.code == SerialReadTimeout || chunk.code == IoError)
  {
    if p.incoming != [] && p.incoming[0].Chunk? && |p.incoming[0].bytes| > max {
      var b, rest := p.incoming[0].bytes, p.incoming[1..];
      assert ([Chunk(b[max..])] + rest)[1..] == rest && b[..max] + b[max..] == b;
    }
  }

  /** However the bytes are chunked, an exact read returns the next `n` of them and leaves the others, and it
      fails only when fewer than `n` arrive. */
  lemma {:induction false} ReadExactlyTakesNext(p: Port, n: nat)
    requires p.open
    ensures var (r, p') := ReadExactly(p, n);
            && (r.Ok? <==> n <= |Arriving(p.incoming)|)
            && (r.Ok? ==> r.value == Arriving(p.incoming)[..n] && Arriving(p'.incoming) == Arriving(p.incoming)[n..])
            && (r.Err? ==> r.code == SerialReadTimeout || r.code == IoError)
    decreases n
  {
    hide PortRead, Arriving;
    if n > 0 {
      PortReadTakes(p, n);
      var (chunk, p1) := PortRead(p, n);
      if chunk.Ok? && chunk.value != [] {
        ReadExactlyTakesNext(p1, n - |chunk.value|);
      }
    }
  }

  /** A read that already has some bytes and then reads on. */
  function After(have: seq<byte>, more: (Result<seq<byte>>, Port)): (Result<seq<byte>>, Port) {
    if more.0.Err? then more else (Ok(have + more.0.value), more.1)
  }

  lemma NothingLeft(p: Port)
    ensures ReadExactly(p, 0) == (Ok([]), p)
    ensures forall more: (Result<seq<byte>>, Port) :: After([], more) == more
  {
    forall more: (Result<seq<byte>>, Port) ensures After([], more) == more {
      if more.0.Ok? { assert [] + more.0.value == more.0.value; }
    }
  }

  /** An exact read continues behind its first chunk, or ends with it. */
  lemma ReadFirstChunk(p: Port, n: nat, have: seq<byte>)
    requires n > 0
    ensures var (chunk, p1) := PortRead(p, n);
            After(have, ReadExactly(p, n)) ==
            if chunk.Err? then (Err(chunk.code), p1)
            else if chunk.value == [] then (Err(SerialReadTimeout), p1)
            else After(have + chunk.value, ReadExactly(p1, n - |chunk.value|))
  {
    var (chunk, p1) := PortRead(p, n);
    if chunk.Ok? && chunk.value != [] {
      var rest := ReadExactly(p1, n - |chunk.value|).0;
      assert rest.Ok? ==> have + (chunk.value + rest.value) == have + chunk.value + rest.value;
    }
    hide PortRead;
  }

  // ---------------------------------------------------------------- attempts

  /** One write command: send it, then read and check its acknowledgement. */
  function WriteOnce(ackRequired: bool, p: Port, command: seq<byte>): (r: (Result<Unit>, Port))
    ensures r.1.open == p.open
  {
    var (written, p1) := PortWrite(p, command);
    if written.Err? then (written, p1)
    else
      var (reply, p2) := ReadExactly(p1, WRITE_ACK_BYTES);
      if reply.Err? then
        if !ackRequired && reply.code == SerialReadTimeout then (Ok(Unit), p2) else (Err(reply.code), p2)
      else
        var ack := ParseWriteAck(reply.value);
        if ack.Err? then (Err(ack.code), p2) else (Ok(Unit), p2)
  }

  function ReadOnce(p: Port, command: seq<byte>): (r: (Result<Ack>, Port))
    ensures r.1.open == p.open
  {
    var (written, p1) := PortWrite(p, command);
    if written.Err? then (Err(written.code), p1)
    else
      var (reply, p2) := ReadExactly(p1, READ_ACK_BYTES);
      if reply.Err? then (Err(reply.code), p2) else (ParseReadAck(reply.value), p2)
  }

  function Attempts(retryCount: int): (n: nat)
    ensures n >= 1
  {
    Max(1, retryCount + 1)
  }

  /** The error of a failed attempt is replaced by one code of its own. */
  function WriteWithRetry(ackRequired: bool, p: Port, command: seq<byte>, attempts: nat): (r: (Result<Unit>, Port))
    ensures r.1.open == p.open
    ensures r.0.Err? ==> r.0.code == CompositeModeSwitchFailed
    decreases attempts
  {
    if attempts == 0 then (Err(CompositeModeSwitchFailed), p)
    else
      var (r, p1) := WriteOnce(ackRequired, p, command);
      if r.Ok? then (r, p1) else WriteWithRetry(ackRequired, p1, command, attempts - 1)
  }

  function ReadWithRetry(p: Port, command: seq<byte>, attempts: nat): (r: (Result<Ack>, Port))
    ensures r.1.open == p.open
    ensures r.0.Err? ==> r.0.code == CompositeModeSwitchFailed
    decreases attempts
  {
    if attempts == 0 then (Err(CompositeModeSwitchFailed), p)
    else
      var (r, p1) := ReadOnce(p, command);
      if r.Ok? then (r, p1) else ReadWithRetry(p1, command, attempts - 1)
  }

  /** The port after one attempt: the command is written and, if that worked, a reply of `n` bytes is read. */
  function PortAfter(p: Port, command: seq<byte>, n: nat): Port {
    var (written, p1) := PortWrite(p, command);
    if written.Err? then p1 else ReadExactly(p1, n).1
  }

  /** The port as the `k`-th attempt finds it, when every earlier attempt failed. */
  function PortBefore(p: Port, command: seq<byte>, n: nat, k: nat): Port
    decreases k
  {
    if k == 0 then p else PortBefore(PortAfter(p, command, n), command, n, k - 1)
  }

  /** The attempt gets its command out and reads exactly the executable acknowledgement or, where acknowledgements are
      optional, runs into a timeout. */
  predicate AttemptAccepted(ackRequired: bool, p: Port, command: seq<byte>) {
    var (written, p1) := PortWrite(p, command);
    var reply := ReadExactly(p1, 10).0;
    written.Ok? && (reply == Ok(WriteAckFrame()) || (!ackRequired && reply == Err(SerialReadTimeout)))
  }

  lemma AcceptedIsSuccess(ackRequired: bool, p: Port, command: seq<byte>)
    ensures WriteOnce(ackRequired, p, command).0.Ok? <==> AttemptAccepted(ackRequired, p, command)
    ensures WriteOnce(ackRequired, p, command).1 == PortAfter(p, command, 10)
  {
    var (written, p1) := PortWrite(p, command);
    if written.Ok? {
      var reply := ReadExactly(p1, WRITE_ACK_BYTES).0;
      if reply.Ok? { WriteAckExact(reply.value); }
    }
    hide ReadExactly, ParseWriteAck, PortWrite;
  }

  ghost predicate SomeAttemptAccepted(ackRequired: bool, p: Port, command: seq<byte>, attempts: nat) {
    exists k :: 0 <= k < attempts && AttemptAccepted(ackRequired, PortBefore(p, command, 10, k), command)
  }

  /** A command succeeds exactly when one of its attempts is accepted: acknowledged or, where that is optional, left
      unanswered. */
  lemma {:induction false} RetrySucceedsByAcknowledgement(ackRequired: bool, p: Port, command: seq<byte>, attempts: nat)
    ensures WriteWithRetry(ackRequired, p, command, attempts).0.Ok? <==>
            SomeAttemptAccepted(ackRequired, p, command, attempts)
    decreases attempts
  {
    if attempts > 0 {
      AcceptedIsSuccess(ackRequired, p, command);
      var p1 := PortAfter(p, command, 10);
      assert PortBefore(p, command, 10, 0) == p;
      assert forall k: nat | 0 < k :: PortBefore(p, command, 10, k) == PortBefore(p1, command, 10, k - 1);
      hide WriteOnce, AttemptAccepted, PortBefore, PortAfter;
      if WriteOnce(ackRequired, p, command).0.Err? {
        RetrySucceedsByAcknowledgement(ackRequired, p1, command, attempts - 1);
        if k: nat :| k < attempts - 1 && AttemptAccepted(ackRequired, PortBefore(p1, command, 10, k), command) {
          assert PortBefore(p, command, 10, k + 1) == PortBefore(p1, command, 10, k);
        }
      }
    }
  }

  /** The attempt gets its command out and reads exactly the acknowledgement that carries `data`. */
  predicate AttemptAnswered(p: Port, command: seq<byte>, data: u16) {
    var (written, p1) := PortWrite(p, command);
    written.Ok? && ReadExactly(p1, 12).0 == Ok(ReadAckFrame(data))
  }

  ghost predicate AttemptFailed(p: Port, command: seq<byte>) {
    forall data: u16 :: !AttemptAnswered(p, command, data)
  }

  lemma AnsweredIsSuccess(p: Port, command: seq<byte>, data: u16)
    ensures ReadOnce(p, command).0 == Ok(Ack(EXECUTABLE, data)) <==> AttemptAnswered(p, command, data)
    ensures ReadOnce(p, command).1 == PortAfter(p, command, 12)
    ensures ReadOnce(p, command).0.Ok? ==> ReadOnce(p, command).0.value.status == EXECUTABLE
  {
    var (written, p1) := PortWrite(p, command);
    if written.Ok? {
      var reply := ReadExactly(p1, READ_ACK_BYTES).0;
      if reply.Ok? { ReadAckExact(reply.value, data); }
    }
    hide ReadExactly, PortWrite;
  }

  lemma FailedIsError(p: Port, command: seq<byte>)
    ensures ReadOnce(p, command).0.Err? <==> AttemptFailed(p, command)
  {
    hide ReadOnce, AttemptAnswered, PortAfter;
    var r := ReadOnce(p, command).0;
    forall data: u16
      ensures r == Ok(Ack(EXECUTABLE, data)) <==> AttemptAnswered(p, command, data)
      ensures r.Ok? ==> r.value.status == EXECUTABLE
    {
      AnsweredIsSuccess(p, command, data);
    }
    if r.Ok? { assert r == Ok(Ack(EXECUTABLE, r.value.data)); }
  }

  /** The `k`-th attempt is the first that is answered, and the answer carries `data`. */
  ghost predicate AnsweredAt(p: Port, command: seq<byte>, k: nat, data: u16) {
    && AttemptAnswered(PortBefore(p, command, 12, k), command, data)
    && forall j :: 0 <= j < k ==> AttemptFailed(PortBefore(p, command, 12, j), command)
  }

  ghost predicate FirstAnswer(p: Port, command: seq<byte>, attempts: nat, data: u16) {
    exists k :: 0 <= k < attempts && AnsweredAt(p, command, k, data)
  }

  lemma FirstAnswerLater(p: Port, command: seq<byte>, attempts: nat, data: u16)
    requires attempts > 0 && AttemptFailed(p, command)
    ensures FirstAnswer(p, command, attempts, data) <==>
            FirstAnswer(PortAfter(p, command, 12), command, attempts - 1, data)
  {
    var p1 := PortAfter(p, command, 12);
    assert PortBefore(p, command, 12, 0) == p;
    assert forall k: nat | 0 < k :: PortBefore(p, command, 12, k) == PortBefore(p1, command, 12, k - 1);
    assert forall k: nat :: PortBefore(p, command, 12, k + 1) == PortBefore(p1, command, 12, k);
    hide AttemptAnswered, PortBefore, PortAfter;
    assert forall d: u16 :: !AttemptAnswered(p, command, d);
    hide AttemptFailed;
    if k: nat :| k < attempts && AnsweredAt(p, command, k, data) {
      assert k > 0;
      forall j: nat | j < k - 1 ensures AttemptFailed(PortBefore(p1, command, 12, j), command) {
        assert AttemptFailed(PortBefore(p, command, 12, j + 1), command);
      }
      assert AnsweredAt(p1, command, k - 1, data);
    }
    if k: nat :| k < attempts - 1 && AnsweredAt(p1, command, k, data) {
      assert AnsweredAt(p, command, k + 1, data);
    }
  }

  /** A read succeeds exactly with the data of its first answered attempt. */
  lemma {:induction false} RetryReadsFirstAnswer(p: Port, command: seq<byte>, attempts: nat, data: u16)
    ensures ReadWithRetry(p, command, attempts).0 == Ok(Ack(EXECUTABLE, data)) <==>
            FirstAnswer(p, command, attempts, data)
    ensures ReadWithRetry(p, command, attempts).0.Ok? ==>
              ReadWithRetry(p, command, attempts).0.value.status == EXECUTABLE
    decreases attempts
  {
    if attempts > 0 {
      AnsweredIsSuccess(p, command, data);
      FailedIsError(p, command);
      assert PortBefore(p, command, 12, 0) == p;
      hide ReadOnce, AttemptAnswered, PortAfter, PortBefore;
      if ReadOnce(p, command).0.Err? {
        RetryReadsFirstAnswer(PortAfter(p, command, 12), command, attempts - 1, data);
        FirstAnswerLater(p, command, attempts, data);
      } else {
        assert AttemptAnswered(p, command, data) ==> AnsweredAt(p, command, 0, data);
      }
    }
  }

  lemma OnceSends(ackRequired: bool, p: Port, command: seq<byte>)
    ensures var (r, p1) := WriteOnce(ackRequired, p, command);
            p1.sent == p.sent + [command] || (r.Err? && p1.sent == p.sent)
  {
    hide ReadExactly, ParseWriteAck;
  }

  /** The command goes out at most once an attempt, at least once for a success, and nothing else goes out. */
  lemma {:induction false} RetrySendsOnlyTheCommand(ackRequired: bool, p: Port, command: seq<byte>, attempts: nat)
    ensures var (r, p') := WriteWithRetry(ackRequired, p, command, attempts);
            var sent := p'.sent;
            && |p.sent| <= |sent| <= |p.sent| + attempts
            && (r.Ok? ==> |p.sent| < |sent|)
            && sent[..|p.sent|] == p.sent
            && forall k :: |p.sent| <= k < |sent| ==> sent[k] == command
    decreases attempts
  {
    hide WriteOnce;
    if attempts > 0 {
      var (r, p1) := WriteOnce(ackRequired, p, command);
      OnceSends(ackRequired, p, command);
      if r.Err? {
        RetrySendsOnlyTheCommand(ackRequired, p1, command, attempts - 1);
        var sent := WriteWithRetry(ackRequired, p1, command, attempts - 1).1.sent;
        assert sent[..|p.sent|] == sent[..|p1.sent|][..|p.sent|];
      }
    }
  }

  // ---------------------------------------------------------------- the controller

  datatype Sensor = Sensor(
    initialized: bool, serialOnline: bool, currentMode: OutputMode, switchCount: u32, errorCount: u32,
    hasError: bool, builderReady: bool, ackRequired: bool, retryCount: int, port: Port)

  function InitialSensor(): Sensor {
    Sensor(false, false, UnknownOutput, 0, 0, false, false, true, 3, Port(false, [], [], []))
  }

  predicate IsReady(s: Sensor) { s.initialized && s.serialOnline && s.port.open }

  function Next32(n: u32): u32 { (n + 1) % 0x1_0000_0000 }

  function RecordError(s: Sensor, code: ErrorCode): Sensor {
    s.(errorCount := Next32(s.errorCount), hasError := true,
       serialOnline := s.serialOnline
         && !(code == SerialOpenFailed || code == SerialReadTimeout || code == SerialWriteFailed || code == IoError))
  }

  /** What the operating system answers while the port is configured and opened. */
  datatype InitOutcome = InitOutcome(
    serialEnabled: bool, retryCount: int, portConfig: Result<Unit>, openOutcome: Result<Unit>,
    incoming: seq<ReadEvent>, writeFails: seq<bool>)

  function InitStep(s: Sensor, o: InitOutcome): (Result<Unit>, Sensor) {
    if s.initialized then (Err(AlreadyInitialized), s)
    else
      var s1 := s.(retryCount := o.retryCount);
      if !o.serialEnabled then (Err(ConfigError), RecordError(s1, ConfigError))
      else
        var s2 := s1.(builderReady := true);
        if o.portConfig.Err? then (o.portConfig, RecordError(s2, o.portConfig.code))
        else if s2.port.open then (Err(AlreadyInitialized), RecordError(s2, AlreadyInitialized))
        else if o.openOutcome.Err? then (o.openOutcome, RecordError(s2, o.openOutcome.code))
        else (Ok(Unit), s2.(initialized := true, serialOnline := true, hasError := false,
                            port := Port(true, o.incoming, o.writeFails, s2.port.sent)))
  }

  function ShutdownStep(s: Sensor): Sensor {
    s.(port := s.port.(open := false), serialOnline := false, initialized := false)
  }

  function WriteRegisterStep(s: Sensor, address: u16, value: u16): (Result<Unit>, Sensor) {
    if !IsReady(s) then (Err(NotInitialized), s)
    else
      var command := BuildCommand(s.builderReady, WriteRegister(address, value));
      if command.Err? then (Err(command.code), RecordError(s, command.code))
      else
        var (r, p) := WriteWithRetry(s.ackRequired, s.port, command.value, Attempts(s.retryCount));
        if r.Err? then (r, RecordError(s.(port := p), r.code)) else (r, s.(port := p, hasError := false))
  }

  function ReadRegisterStep(s: Sensor, address: u16): (Result<u16>, Sensor) {
    if !IsReady(s) then (Err(NotInitialized), s)
    else
      var command := BuildCommand(s.builderReady, ReadRegister(address));
      if command.Err? then (Err(command.code), RecordError(s, command.code))
      else
        var (r, p) := ReadWithRetry(s.port, command.value, Attempts(s.retryCount));
        if r.Err? then (Err(r.code), RecordError(s.(port := p), r.code))
        else (Ok(r.value.data), s.(port := p, hasError := false))
  }

  function SetFusionModeStep(s: Sensor, mode: OutputMode): (Result<Unit>, Sensor) {
    if mode == UnknownOutput then (Err(InvalidArgument), s)
    else
      var (r, s1) := WriteRegisterStep(s, FUSION_MODE_REGISTER, RegisterValue(mode));
      if r.Err? then (r, s1)
      else (r, s1.(currentMode := mode, switchCount := Next32(s1.switchCount), hasError := false))
  }

  function GetFusionModeStep(s: Sensor): (Result<OutputMode>, Sensor) {
    var (r, s1) := ReadRegisterStep(s, FUSION_MODE_REGISTER);
    if r.Err? then (Err(r.code), s1)
    else
      var mode := FromRegisterValue(r.value);
      if mode == UnknownOutput then (Err(SerialAckInvalid), s1) else (Ok(mode), s1.(currentMode := mode))
  }

  /** The number of attempts for a configured number of retries. */
  function Tries(retryCount: int): nat { if retryCount <= 0 then 1 else retryCount + 1 }

  /** What a failed access leaves: one more error modulo 2^32, the port as the attempts left it, all else unchanged. */
  predicate FailedOnce(s: Sensor, s': Sensor) {
    && s' == s.(errorCount := s'.errorCount, hasError := true, port := s'.port)
    && s'.errorCount == (s.errorCount + 1) % 0x1_0000_0000
  }

  /** A register write on a ready controller succeeds exactly when an attempt is acknowledged or, where
      acknowledgements are optional, left unanswered; otherwise it fails once, whatever the attempts failed of. */
  lemma WriteRegisterOutcome(s: Sensor, address: u16, value: u16)
    requires IsReady(s) && s.builderReady
    ensures var command := CommandFrame(WriteRegister(address, value));
            var (r, s') := WriteRegisterStep(s, address, value);
            && (r.Ok? <==> SomeAttemptAccepted(s.ackRequired, s.port, command, Tries(s.retryCount)))
            && (r.Ok? ==> s' == s.(hasError := false, port := s'.port) && |s.port.sent| < |s'.port.sent|)
            && (r.Err? ==> r.code == CompositeModeSwitchFailed && FailedOnce(s, s'))
            && |s'.port.sent| <= |s.port.sent| + Tries(s.retryCount)
            && (forall k :: |s.port.sent| <= k < |s'.port.sent| ==> s'.port.sent[k] == command)
  {
    var command := CommandFrame(WriteRegister(address, value));
    RetrySucceedsByAcknowledgement(s.ackRequired, s.port, command, Attempts(s.retryCount));
    RetrySendsOnlyTheCommand(s.ackRequired, s.port, command, Attempts(s.retryCount));
    hide SomeAttemptAccepted, CommandFrame, WriteWithRetry;
  }

  /** A register read on a ready controller returns exactly the data of the first answered attempt; otherwise it fails
      once. */
  lemma ReadRegisterOutcome(s: Sensor, address: u16, data: u16)
    requires IsReady(s) && s.builderReady
    ensures var command := CommandFrame(ReadRegister(address));
            var (r, s') := ReadRegisterStep(s, address);
            && (r == Ok(data) <==> FirstAnswer(s.port, command, Tries(s.retryCount), data))
            && (r.Ok? ==> s' == s.(hasError := false, port := s'.port))
            && (r.Err? ==> r.code == CompositeModeSwitchFailed && FailedOnce(s, s'))
  {
    var command := CommandFrame(ReadRegister(address));
    RetryReadsFirstAnswer(s.port, command, Attempts(s.retryCount), data);
    hide FirstAnswer, CommandFrame, ReadWithRetry;
  }

  /** Setting a mode writes its number to register 0x6500; a failure changes no mode and no switch count. */
  lemma SetFusionModeOutcome(s: Sensor, mode: OutputMode)
    requires mode != UnknownOutput && IsReady(s) && s.builderReady
    ensures var command := CommandFrame(WriteRegister(0x6500, NumberOf(mode)));
            var (r, s') := SetFusionModeStep(s, mode);
            && (r.Ok? <==> SomeAttemptAccepted(s.ackRequired, s.port, command, Tries(s.retryCount)))
            && (r.Ok? ==>
                  && s' == s.(currentMode := mode, switchCount := s'.switchCount, hasError := false, port := s'.port)
                  && s'.switchCount == (s.switchCount + 1) % 0x1_0000_0000 && |s.port.sent| < |s'.port.sent|)
            && (r.Err? ==> r.code == CompositeModeSwitchFailed && FailedOnce(s, s'))
            && |s'.port.sent| <= |s.port.sent| + Tries(s.retryCount)
            && (forall k :: |s.port.sent| <= k < |s'.port.sent| ==> s'.port.sent[k] == command)
  {
    WriteRegisterOutcome(s, FUSION_MODE_REGISTER, RegisterValue(mode));
    hide SomeAttemptAccepted, CommandFrame, WriteRegisterStep, FailedOnce;
  }

  /** The first answer to a query of register 0x6500 is the number of the mode. */
  ghost predicate ModeAnswered(s: Sensor, number: u16) {
    FirstAnswer(s.port, CommandFrame(ReadRegister(0x6500)), Tries(s.retryCount), number)
  }

  /** A mode query returns and records a mode exactly when the first answer is its number; no other answer and no
      failure changes the recorded mode. */
  lemma GetFusionModeOutcome(s: Sensor)
    requires IsReady(s) && s.builderReady
    ensures var (r, s') := GetFusionModeStep(s);
            && (r == Ok(ThermalOnly) <==> ModeAnswered(s, 1))
            && (r == Ok(LowlightOnly) <==> ModeAnswered(s, 2))
            && (r == Ok(LowlightThermalComposite) <==> ModeAnswered(s, 3))
            && (forall number: u16 :: number !in {1, 2, 3} && ModeAnswered(s, number) ==> r == Err(SerialAckInvalid))
            && r != Ok(UnknownOutput)
            && s'.currentMode == (if r.Ok? then r.value else s.currentMode)
            && s'.switchCount == s.switchCount
            && (r.Ok? || r.code == SerialAckInvalid ==> s'.errorCount == s.errorCount && !s'.hasError)
            && (r.Err? && r.code != SerialAckInvalid ==> r.code == CompositeModeSwitchFailed && FailedOnce(s, s'))
  {
    forall number: u16
      ensures ReadRegisterStep(s, 0x6500).0 == Ok(number) <==> ModeAnswered(s, number)
    {
      ReadRegisterOutcome(s, 0x6500, number);
    }
    ReadRegisterOutcome(s, 0x6500, 0);
    hide FirstAnswer, ModeAnswered, CommandFrame, ReadRegisterStep;
  }

  /** Init of a controller with a closed port opens it exactly when the port is enabled, its settings are good and the
      system opens it; otherwise the first failure is returned and counted, and nothing is ready. */
  lemma InitOpensIff(s: Sensor, o: InitOutcome)
    requires !s.initialized && !s.port.open && !s.serialOnline
    ensures var (r, s') := InitStep(s, o);
            var code := if !o.serialEnabled then Some(ConfigError)
                        else if o.portConfig.Err? then Some(o.portConfig.code)
                        else if o.openOutcome.Err? then Some(o.openOutcome.code) else None;
            && (code.None? ==>
                  && r.Ok? && IsReady(s') && s'.builderReady && !s'.hasError && s'.errorCount == s.errorCount
                  && s'.port.incoming == o.incoming && s'.port.writeFails == o.writeFails)
            && (code.Some? ==> r == Err(code.value) && !s'.initialized && !s'.port.open && !s'.serialOnline
                               && s'.hasError && s'.errorCount == (s.errorCount + 1) % 0x1_0000_0000)
            && s'.retryCount == o.retryCount && s'.port.sent == s.port.sent && s'.ackRequired == s.ackRequired
            && s'.currentMode == s.currentMode && s'.switchCount == s.switchCount
  {
  }

  /** After a shutdown every access is refused and changes nothing, and a new init meets what InitOpensIff asks for;
      without a shutdown it is refused. */
  lemma ShutdownRefuses(s: Sensor, address: u16, value: u16, mode: OutputMode, o: InitOutcome)
    ensures var s' := ShutdownStep(s);
            && WriteRegisterStep(s', address, value) == (Err(NotInitialized), s')
            && ReadRegisterStep(s', address) == (Err(NotInitialized), s')
            && SetFusionModeStep(s', mode) ==
               (Err(if mode == UnknownOutput then InvalidArgument else NotInitialized), s')
            && GetFusionModeStep(s') == (Err(NotInitialized), s')
            && s' == s.(initialized := false, serialOnline := false, port := s.port.(open := false))
    ensures s.initialized ==> InitStep(s, o) == (Err(AlreadyInitialized), s)
  {
  }

  // ---------------------------------------------------------------- whole runs

  datatype Op =
    | Init(outcome: InitOutcome)
    | Shutdown
    | SetAckRequired(required: bool)
    | WriteReg(address: u16, value: u16)
    | ReadReg(address: u16)
    | SetMode(mode: OutputMode)
    | GetMode

  function Step(s: Sensor, op: Op): Sensor {
    match op
    case Init(o) => InitStep(s, o).1
    case Shutdown => ShutdownStep(s)
    case SetAckRequired(required) => s.(ackRequired := required)
    case WriteReg(address, value) => WriteRegisterStep(s, address, value).1
    case ReadReg(address) => ReadRegisterStep(s, address).1
    case SetMode(mode) => SetFusionModeStep(s, mode).1
    case GetMode => GetFusionModeStep(s).1
  }

  function Run(s: Sensor, ops: seq<Op>): Sensor {
    if ops == [] then s else Step(Run(s, ops[..|ops| - 1]), ops[|ops| - 1])
  }

  /** How many mode settings in the run succeeded. */
  function ModeSwitches(s: Sensor, ops: seq<Op>): nat {
    if ops == [] then 0
    else
      var before, op := Run(s, ops[..|ops| - 1]), ops[|ops| - 1];
      ModeSwitches(s, ops[..|ops| - 1]) +
        if op.SetMode? && SetFusionModeStep(before, op.mode).0.Ok? then 1 else 0
  }

  predicate Consistent(s: Sensor) {
    s.initialized == s.port.open && (s.initialized ==> s.serialOnline && s.builderReady)
  }

  lemma StepKeepsConsistent(s: Sensor, op: Op)
    requires Consistent(s)
    ensures Consistent(Step(s, op))
    ensures s.initialized && op != Shutdown ==> Step(s, op).initialized
  {
    hide BuildCommand, RegisterValue, FromRegisterValue, WriteWithRetry, ReadWithRetry, Next32;
    forall command { BuilderReady(command); }
  }

  lemma BuilderReady(command: Command)
    ensures BuildCommand(true, command).Ok?
  {
  }

  /** In every reachable state initialised, online and open are the same thing. */
  lemma {:induction false} RunKeepsConsistent(ops: seq<Op>)
    ensures Consistent(Run(InitialSensor(), ops))
    ensures IsReady(Run(InitialSensor(), ops)) <==> Run(InitialSensor(), ops).initialized
  {
    if ops != [] {
      RunKeepsConsistent(ops[..|ops| - 1]);
      StepKeepsConsistent(Run(InitialSensor(), ops[..|ops| - 1]), ops[|ops| - 1]);
    }
  }

  /** The switch counter counts the successful settings of the run modulo 2^32. */
  lemma {:induction false} SwitchesCounted(s: Sensor, ops: seq<Op>)
    ensures Run(s, ops).switchCount == (s.switchCount + ModeSwitches(s, ops)) % 0x1_0000_0000
  {
    hide Step, SetFusionModeStep;
    if ops != [] {
      SwitchesCounted(s, ops[..|ops| - 1]);
      SwitchCountStep(Run(s, ops[..|ops| - 1]), ops[|ops| - 1]);
      Next32OfResidue(s.switchCount + ModeSwitches(s, ops[..|ops| - 1]));
    }
  }

  lemma Next32OfResidue(n: int)
    ensures (n % 0x1_0000_0000 + 1) % 0x1_0000_0000 == (n + 1) % 0x1_0000_0000
  {
  }

  lemma SwitchCountStep(s: Sensor, op: Op)
    ensures Step(s, op).switchCount ==
            if op.SetMode? && SetFusionModeStep(s, op.mode).0.Ok? then Next32(s.switchCount) else s.switchCount
  {
    hide BuildCommand, RegisterValue, FromRegisterValue, WriteWithRetry, ReadWithRetry, Next32;
  }

  /** Once initialised the controller stays online until it is shut down, whatever the port does. */
  lemma {:induction false} OnlineUntilShutdown(s: Sensor, ops: seq<Op>)
    requires Consistent(s) && s.initialized && Shutdown !in ops
    ensures Consistent(Run(s, ops)) && Run(s, ops).initialized && Run(s, ops).serialOnline
  {
    if ops != [] {
      OnlineUntilShutdown(s, ops[..|ops| - 1]);
      assert ops[|ops| - 1] in ops;
      StepKeepsConsistent(Run(s, ops[..|ops| - 1]), ops[|ops| - 1]);
    }
  }

  // ---------------------------------------------------------------- the class of the source

  class CompositeSensorController {
    var initialized: bool
    var serialOnline: bool
    var currentMode: OutputMode
    var switchCount: u32
    var errorCount: u32
    var hasError: bool
    var builderReady: bool
    var ackRequired: bool
    var retryCount: int
    var port: Port

    function View(): Sensor
      reads this
    {
      Sensor(initialized, serialOnline, currentMode, switchCount, errorCount, hasError, builderReady, ackRequired,
             retryCount, port)
    }

    constructor ()
      ensures View() == InitialSensor()
    {
      initialized, serialOnline, currentMode := false, false, UnknownOutput;
      switchCount, errorCount, hasError := 0, 0, false;
      builderReady, ackRequired, retryCount := false, true, 3;
      port := Port(false, [], [], []);
    }

    method Record(code: ErrorCode)
      modifies this
      ensures View() == RecordError(old(View()), code)
    {
      hide Next32;
      errorCount := Next32(errorCount);
      hasError := true;
      if code == SerialOpenFailed || code == SerialReadTimeout || code == SerialWriteFailed || code == IoError {
        serialOnline := false;
      }
    }

    method Initialise(o: InitOutcome) returns (r: Result<Unit>)
      modifies this
      ensures (r, View()) == InitStep(old(View()), o)
    {
      if initialized { return Err(AlreadyInitialized); }
      retryCount := o.retryCount;
      if !o.serialEnabled { Record(ConfigError); return Err(ConfigError); }
      builderReady := true;
      if o.portConfig.Err? { Record(o.portConfig.code); return o.portConfig; }
      if port.open { Record(AlreadyInitialized); return Err(AlreadyInitialized); }
      if o.openOutcome.Err? { Record(o.openOutcome.code); return o.openOutcome; }
      port := Port(true, o.incoming, o.writeFails, port.sent);
      initialized, serialOnline, hasError := true, true, false;
      return Ok(Unit);
    }

    method Close()
      modifies this
      ensures View() == ShutdownStep(old(View()))
    {
      port := port.(open := false);
      serialOnline := false;
      initialized := false;
    }

    method ReadExact(n: nat) returns (r: Result<seq<byte>>)
      modifies this`port
      ensures (r, port) == ReadExactly(old(port), n)
    {
      hide ReadExactly, PortRead;
      var out := [];
      NothingLeft(port);
      while |out| < n
        invariant |out| <= n
        invariant ReadExactly(old(port), n) == After(out, ReadExactly(port, n - |out|))
        decreases n - |out|
      {
        ReadFirstChunk(port, n - |out|, out);
        var (chunk, p) := PortRead(port, n - |out|);
        port := p;
        if chunk.Err? { return Err(chunk.code); }
        if chunk.value == [] { return Err(SerialReadTimeout); }
        out := out + chunk.value;
      }
      NothingLeft(port);
      assert out + [] == out;
      return Ok(out);
    }

    method SendWriteOnce(command: seq<byte>) returns (r: Result<Unit>)
      modifies this`port
      ensures (r, port) == WriteOnce(ackRequired, old(port), command)
    {
      var (written, p) := PortWrite(port, command);
      port := p;
      if written.Err? { return written; }
      var reply := ReadExact(WRITE_ACK_BYTES);
      if reply.Err? {
        if !ackRequired && reply.code == SerialReadTimeout { return Ok(Unit); }
        return Err(reply.code);
      }
      var ack := ParseWriteAck(reply.value);
      if ack.Err? { return Err(ack.code); }
      return Ok(Unit);
    }

    method SendReadOnce(command: seq<byte>) returns (r: Result<Ack>)
      modifies this`port
      ensures (r, port) == ReadOnce(old(port), command)
    {
      var (written, p) := PortWrite(port, command);
      port := p;
      if written.Err? { return Err(written.code); }
      var reply := ReadExact(READ_ACK_BYTES);
      if reply.Err? { return Err(reply.code); }
      r := ParseReadAck(reply.value);
    }

    method SendWriteCommandWithRetry(command: seq<byte>) returns (r: Result<Unit>)
      modifies this`port
      ensures (r, port) == WriteWithRetry(ackRequired, old(port), command, Attempts(retryCount))
    {
      var attempts := Attempts(retryCount);
      for i := 0 to attempts
        invariant WriteWithRetry(ackRequired, old(port), command, attempts)
               == WriteWithRetry(ackRequired, port, command, attempts - i)
      {
        r := SendWriteOnce(command);
        if r.Ok? { return r; }
      }
      return Err(CompositeModeSwitchFailed);
    }

    method SendReadCommandWithRetry(command: seq<byte>) returns (r: Result<Ack>)
      modifies this`port
      ensures (r, port) == ReadWithRetry(old(port), command, Attempts(retryCount))
    {
      var attempts := Attempts(retryCount);
      for i := 0 to attempts
        invariant ReadWithRetry(old(port), command, attempts) == ReadWithRetry(port, command, attempts - i)
      {
        r := SendReadOnce(command);
        if r.Ok? { return r; }
      }
      return Err(CompositeModeSwitchFailed);
    }

    method WriteReg(address: u16, value: u16) returns (r: Result<Unit>)
      modifies this
      ensures (r, View()) == WriteRegisterStep(old(View()), address, value)
    {
      if !(initialized && serialOnline && port.open) { return Err(NotInitialized); }
      var command := BuildCommand(builderReady, WriteRegister(address, value));
      if command.Err? { Record(command.code); return Err(command.code); }
      r := SendWriteCommandWithRetry(command.value);
      if r.Err? { Record(r.code); return r; }
      hasError := false;
    }

    method ReadReg(address: u16) returns (r: Result<u16>)
      modifies this
      ensures (r, View()) == ReadRegisterStep(old(View()), address)
    {
      if !(initialized && serialOnline && port.open) { return Err(NotInitialized); }
      var command := BuildCommand(builderReady, ReadRegister(address));
      if command.Err? { Record(command.code); return Err(command.code); }
      var ack := SendReadCommandWithRetry(command.value);
      if ack.Err? { Record(ack.code); return Err(ack.code); }
      hasError := false;
      return Ok(ack.value.data);
    }

    method SetFusionMode(mode: OutputMode) returns (r: Result<Unit>)
      modifies this
      ensures (r, View()) == SetFusionModeStep(old(View()), mode)
    {
      if mode == UnknownOutput { return Err(InvalidArgument); }
      r := WriteReg(FUSION_MODE_REGISTER, RegisterValue(mode));
      if r.Err? { return r; }
      currentMode := mode;
      switchCount := Next32(switchCount);
      hasError := false;
    }

    method GetFusionMode() returns (r: Result<OutputMode>)
      modifies this
      ensures (r, View()) == GetFusionModeStep(old(View()))
    {
      var value := ReadReg(FUSION_MODE_REGISTER);
      if value.Err? { return Err(value.code); }
      var mode := FromRegisterValue(value.value);
      if mode == UnknownOutput { return Err(SerialAckInvalid); }
      currentMode := mode;
      return Ok(mode);
    }
  }
}
