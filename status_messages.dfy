/**
  The byte cursor the application-layer messages parse from, and the two
  status messages of the model: the current basal profile and the pump status.

  A message is a value: `parse` reads its fields from the cursor, which it
  advances, and yields the message with those fields assigned. Fixed-point
  amounts stay integers: the basal amount is in hundredths of a unit, the raw
  signed 16-bit number the source divides by 100.
*/
module StatusMessages {
  import opened Wrappers

  newtype byte = x: int | 0 <= x < 256

  /** The application-layer service a message belongs to; only STATUS is used here. */
  datatype Service = Status | OtherService(id: int)

  /** Reading past the end of the payload. */
  datatype DecodeError = ReadPastEnd

  /** A 16-bit pattern read as a Java `short` (two's complement). */
  function SignedShort(u: int): (v: int)
    requires 0 <= u < 0x1_0000
    ensures -0x8000 <= v < 0x8000
    ensures v % 0x1_0000 == u
  {
    if u >= 0x8000 then u - 0x1_0000 else u
  }

  /** A signed 16-bit value from two bytes, low byte first. */
  function ShortLE(lo: byte, hi: byte): (r: int) {
    SignedShort(lo as int + 256 * hi as int)
  }

  /** A signed 16-bit value from two bytes, high byte first. */
  function ShortBE(hi: byte, lo: byte): (r: int) {
    SignedShort(256 * hi as int + lo as int)
  }

  /** The two bytes of a signed 16-bit value, low byte first. */
  function ShortLEBytes(v: int): (b: seq<byte>)
    requires -0x8000 <= v < 0x8000
    ensures |b| == 2
  {
    var u := if v < 0 then v + 0x1_0000 else v;
    [(u % 256) as byte, (u / 256) as byte]
  }

  /** Writing a signed 16-bit value little-endian and reading it back gives the value. */
  lemma ShortLERoundTrip(v: int)
    requires -0x8000 <= v < 0x8000
    ensures ShortLE(ShortLEBytes(v)[0], ShortLEBytes(v)[1]) == v
  {
    var u := if v < 0 then v + 0x1_0000 else v;
    assert (u % 256) + 256 * (u / 256) == u;
  }

  /** The two bytes of a signed 16-bit value, high byte first. */
  function ShortBEBytes(v: int): (b: seq<byte>)
    requires -0x8000 <= v < 0x8000
    ensures |b| == 2
  {
    var u := if v < 0 then v + 0x1_0000 else v;
    [(u / 256) as byte, (u % 256) as byte]
  }

  lemma ShortBERoundTrip(v: int)
    requires -0x8000 <= v < 0x8000
    ensures ShortBE(ShortBEBytes(v)[0], ShortBEBytes(v)[1]) == v
  {
    var u := if v < 0 then v + 0x1_0000 else v;
    assert 256 * (u / 256) + (u % 256) == u;
  }

  /**
    The read cursor over a received payload. Every read checks that enough
    bytes remain; a failed read reports ReadPastEnd and leaves the cursor where
    it was.
  */
  class ByteBuf {
    const bytes: seq<byte>
    var offset: nat

    ghost predicate Valid()
      reads this
    {
      offset <= |bytes|
    }

    /** The bytes not read yet. */
    ghost function Remaining(): seq<byte>
      reads this
      requires Valid()
    {
      bytes[offset..]
    }

    constructor (bytes: seq<byte>)
      ensures Valid() && this.bytes == bytes && offset == 0
    {
      this.bytes := bytes;
      offset := 0;
    }

    /** Skips `n` bytes. */
    method Shift(n: nat) returns (r: Result<(), DecodeError>)
      requires Valid()
      modifies this
      ensures Valid()
      ensures r.Success? <==> n <= |old(Remaining())|
      ensures offset == if r.Success? then old(offset) + n else old(offset)
    {
      if offset + n > |bytes| {
        return Failure(ReadPastEnd);
      }
      offset := offset + n;
      return Success(());
    }

    /** Reads a signed 16-bit value, low byte first. */
    method ReadShortLE() returns (r: Result<int, DecodeError>)
      requires Valid()
      modifies this
      ensures Valid()
      ensures r.Success? <==> 2 <= |old(Remaining())|
      ensures r.Success? ==> r.value == ShortLE(bytes[old(offset)], bytes[old(offset) + 1])
      ensures offset == if r.Success? then old(offset) + 2 else old(offset)
    {
      if offset + 2 > |bytes| {
        return Failure(ReadPastEnd);
      }
      r := Success(ShortLE(bytes[offset], bytes[offset + 1]));
      offset := offset + 2;
    }

    /** Reads a signed 16-bit value, high byte first. */
    method ReadShort() returns (r: Result<int, DecodeError>)
      requires Valid()
      modifies this
      ensures Valid()
      ensures r.Success? <==> 2 <= |old(Remaining())|
      ensures r.Success? ==> r.value == ShortBE(bytes[old(offset)], bytes[old(offset) + 1])
      ensures offset == if r.Success? then old(offset) + 2 else old(offset)
    {
      if offset + 2 > |bytes| {
        return Failure(ReadPastEnd);
      }
      r := Success(ShortBE(bytes[offset], bytes[offset + 1]));
      offset := offset + 2;
    }

    /** Reads an `n`-byte text field, as its raw UTF-8 bytes. */
    method ReadUTF8(n: nat) returns (r: Result<seq<byte>, DecodeError>)
      requires Valid()
      modifies this
      ensures Valid()
      ensures r.Success? <==> n <= |old(Remaining())|
      ensures r.Success? ==> r.value == bytes[old(offset)..old(offset) + n]
      ensures offset == if r.Success? then old(offset) + n else old(offset)
    {
      if offset + n > |bytes| {
        return Failure(ReadPastEnd);
      }
      r := Success(bytes[offset..offset + n]);
      offset := offset + n;
    }
  }

  // ---------------------------------------------------------------------------
  // CurrentBasalMessage
  // ---------------------------------------------------------------------------

  /** The command code `(short) 0xA905`. */
  const CURRENT_BASAL_COMMAND: int := SignedShort(0xA905)
  /** Bytes skipped before the profile name. */
  const CURRENT_BASAL_SKIP: nat := 2
  /** Width of the profile-name field. */
  const CURRENT_BASAL_NAME_LENGTH: nat := 62
  /** Bytes `parse` consumes: skip, name, amount. */
  const CURRENT_BASAL_LENGTH: nat := CURRENT_BASAL_SKIP + CURRENT_BASAL_NAME_LENGTH + 2

  /**
    The active basal profile's name (raw UTF-8 bytes; None before parsing)
    and its current rate in hundredths of a unit (0 before parsing).
  */
  datatype CurrentBasalMessage = CurrentBasalMessage(currentBasalName: Option<seq<byte>>, currentBasalAmount: int)
  {
    function Service(): Service { Status }
    function Command(): int { CURRENT_BASAL_COMMAND }
    predicate InCRC() { true }
  }

  /** A freshly created message, before `parse`. */
  const NEW_CURRENT_BASAL: CurrentBasalMessage := CurrentBasalMessage(None, 0)

  /** The fields `parse` assigns from a payload, or the error a short payload causes. */
  function DecodeCurrentBasal(payload: seq<byte>): (r: Result<CurrentBasalMessage, DecodeError>)
    ensures r.Success? <==> |payload| >= CURRENT_BASAL_LENGTH
    ensures r.Success? ==> r.value.currentBasalName.Some? && |r.value.currentBasalName.value| == CURRENT_BASAL_NAME_LENGTH
    ensures r.Success? ==> -0x8000 <= r.value.currentBasalAmount < 0x8000
  {
    if |payload| < CURRENT_BASAL_LENGTH then Failure(ReadPastEnd)
    else Success(CurrentBasalMessage(Some(payload[2..64]), ShortLE(payload[64], payload[65])))
  }

  /** The payload the pump sends for a profile name and an amount: two padding bytes, name, amount. */
  function EncodeCurrentBasal(name: seq<byte>, amount: int): (p: seq<byte>)
    requires |name| == CURRENT_BASAL_NAME_LENGTH && -0x8000 <= amount < 0x8000
    ensures |p| == CURRENT_BASAL_LENGTH
  {
    [0, 0] + name + ShortLEBytes(amount)
  }

  /** Decoding an encoded payload, whatever follows it, gives back the name and the amount. */
  lemma CurrentBasalRoundTrip(name: seq<byte>, amount: int, rest: seq<byte>)
    requires |name| == CURRENT_BASAL_NAME_LENGTH && -0x8000 <= amount < 0x8000
    ensures DecodeCurrentBasal(EncodeCurrentBasal(name, amount) + rest)
         == Success(CurrentBasalMessage(Some(name), amount))
  {
    var p := EncodeCurrentBasal(name, amount) + rest;
    assert p[2..64] == name;
    assert p[64] == ShortLEBytes(amount)[0] && p[65] == ShortLEBytes(amount)[1];
    ShortLERoundTrip(amount);
  }

  /**
    Decoding uses exactly bytes 2..65: payloads that agree there decode alike,
    and re-encoding the result rebuilds them (the two skipped bytes as zeros).
  */
  lemma CurrentBasalUsesExactLayout(p: seq<byte>, q: seq<byte>)
    requires |p| >= CURRENT_BASAL_LENGTH && |q| >= CURRENT_BASAL_LENGTH
    requires p[2..CURRENT_BASAL_LENGTH] == q[2..CURRENT_BASAL_LENGTH]
    ensures DecodeCurrentBasal(p) == DecodeCurrentBasal(q)
    ensures var m := DecodeCurrentBasal(p).value;
      EncodeCurrentBasal(m.currentBasalName.value, m.currentBasalAmount) == [0, 0] + p[2..CURRENT_BASAL_LENGTH]
  {
    assert p[2..64] == p[2..CURRENT_BASAL_LENGTH][..62];
    assert q[2..64] == q[2..CURRENT_BASAL_LENGTH][..62];
    assert p[64] == p[2..CURRENT_BASAL_LENGTH][62] && p[65] == p[2..CURRENT_BASAL_LENGTH][63];
    assert q[64] == q[2..CURRENT_BASAL_LENGTH][62] && q[65] == q[2..CURRENT_BASAL_LENGTH][63];
    var lo, hi := p[64], p[65];
    var u := lo as int + 256 * hi as int;
    var v := ShortLE(lo, hi);
    var w := if v < 0 then v + 0x1_0000 else v;
    assert w == u;
    assert ShortLEBytes(v) == [lo, hi];
    assert p[2..CURRENT_BASAL_LENGTH] == p[2..64] + [lo, hi];
  }

  /** Bytes 2C 01 in the amount field read as 300 hundredths, i.e. 3.00 units. */
  lemma CurrentBasalAmountExample(p: seq<byte>)
    requires |p| >= CURRENT_BASAL_LENGTH && p[64] == 0x2C && p[65] == 0x01
    ensures DecodeCurrentBasal(p) == Success(CurrentBasalMessage(Some(p[2..64]), 300))
  {
  }

  /** The parse step: skip 2, read the 62-byte name, read the little-endian amount. */
  method ParseCurrentBasal(buf: ByteBuf) returns (r: Result<CurrentBasalMessage, DecodeError>)
    requires buf.Valid()
    modifies buf
    ensures buf.Valid()
    ensures r == DecodeCurrentBasal(old(buf.Remaining()))
    ensures r.Success? ==> buf.offset == old(buf.offset) + CURRENT_BASAL_LENGTH
  {
    ghost var rest := buf.Remaining();
    var skipped := buf.Shift(CURRENT_BASAL_SKIP);
    if skipped.Failure? {
      assert |rest| < CURRENT_BASAL_LENGTH;
      return Failure(ReadPastEnd);
    }
    var name := buf.ReadUTF8(CURRENT_BASAL_NAME_LENGTH);
    if name.Failure? {
      return Failure(ReadPastEnd);
    }
    var amount := buf.ReadShortLE();
    if amount.Failure? {
      return Failure(ReadPastEnd);
    }
    assert name.value == rest[2..64];
    return Success(CurrentBasalMessage(Some(name.value), amount.value));
  }

  // ---------------------------------------------------------------------------
  // PumpStatusMessage
  // ---------------------------------------------------------------------------

  /** The command code `(short) 0xFC00`. */
  const PUMP_STATUS_COMMAND: int := SignedShort(0xFC00)
  /** Bytes `parse` consumes: one 16-bit value. */
  const PUMP_STATUS_LENGTH: nat := 2

  /** The pump's operating state; only STOPPED is told apart by the status sequence. */
  datatype PumpStatus = Started | Paused | Stopped

  /** The pump status (None before parsing, or when the code maps to no state). */
  datatype PumpStatusMessage = PumpStatusMessage(pumpStatus: Option<PumpStatus>)
  {
    function Service(): Service { Status }
    function Command(): int { PUMP_STATUS_COMMAND }
    predicate InCRC() { true }
  }

  const NEW_PUMP_STATUS: PumpStatusMessage := PumpStatusMessage(None)

  /**
    The status `parse` reads from a payload: `statusOf` (the enum's
    code-to-constant lookup) applied to the first 16-bit value.
  */
  function DecodePumpStatus(payload: seq<byte>, statusOf: int -> Option<PumpStatus>): (r: Result<PumpStatusMessage, DecodeError>)
    ensures r.Success? <==> |payload| >= PUMP_STATUS_LENGTH
  {
    if |payload| < PUMP_STATUS_LENGTH then Failure(ReadPastEnd)
    else Success(PumpStatusMessage(statusOf(ShortBE(payload[0], payload[1]))))
  }

  /** The status depends on the first two bytes only. */
  lemma PumpStatusDependsOnFirstShort(p: seq<byte>, q: seq<byte>, statusOf: int -> Option<PumpStatus>)
    requires |p| >= PUMP_STATUS_LENGTH && |q| >= PUMP_STATUS_LENGTH
    requires p[..2] == q[..2]
    ensures DecodePumpStatus(p, statusOf) == DecodePumpStatus(q, statusOf)
  {
    assert p[0] == p[..2][0] && p[1] == p[..2][1];
    assert q[0] == q[..2][0] && q[1] == q[..2][1];
  }

  /** A payload carrying `code` decodes to the state `statusOf` gives for it. */
  lemma PumpStatusRoundTrip(code: int, rest: seq<byte>, statusOf: int -> Option<PumpStatus>)
    requires -0x8000 <= code < 0x8000
    ensures DecodePumpStatus(ShortBEBytes(code) + rest, statusOf) == Success(PumpStatusMessage(statusOf(code)))
  {
    ShortBERoundTrip(code);
  }

  /** The parse step: one 16-bit read, mapped to a status. */
  method ParsePumpStatus(buf: ByteBuf, statusOf: int -> Option<PumpStatus>) returns (r: Result<PumpStatusMessage, DecodeError>)
    requires buf.Valid()
    modifies buf
    ensures buf.Valid()
    ensures r == DecodePumpStatus(old(buf.Remaining()), statusOf)
    ensures r.Success? ==> buf.offset == old(buf.offset) + PUMP_STATUS_LENGTH
  {
    ghost var rest := buf.Remaining();
    var code := buf.ReadShort();
    if code.Failure? {
      assert |rest| < PUMP_STATUS_LENGTH;
      return Failure(ReadPastEnd);
    }
    return Success(PumpStatusMessage(statusOf(code.value)));
  }

  /**
    A current-basal message belongs to the STATUS service, carries command
    `(short) 0xA905` (the bits A9 05, read as -22267), is checksummed, and
    starts with no name and an amount of 0.
  */
  lemma CurrentBasalIdentity(b: CurrentBasalMessage)
    ensures b.Service() == Status && b.InCRC()
    ensures b.Command() == -22267 && b.Command() % 0x1_0000 == 0xA905
    ensures NEW_CURRENT_BASAL.currentBasalName.None? && NEW_CURRENT_BASAL.currentBasalAmount == 0
  {
  }

  /**
    A pump-status message belongs to the STATUS service, carries command
    `(short) 0xFC00` (the bits FC 00, read as -1024), is checksummed, and its
    command differs from the current-basal one; it starts with no status.
  */
  lemma PumpStatusIdentity(s: PumpStatusMessage, b: CurrentBasalMessage)
    ensures s.Service() == Status && s.InCRC()
    ensures s.Command() == -1024 && s.Command() % 0x1_0000 == 0xFC00
    ensures s.Command() != b.Command()
    ensures NEW_PUMP_STATUS.pumpStatus.None?
  {
  }
}
