/** The commands ff-memless-next sends to the hardware-specific driver: the
    `mlnx_commands` enumeration, the payload structures and the tagged
    `mlnx_effect_command` that carries one of them. */
module Commands {
  import opened Wrappers
  import opened Effects

  /** The kernel's fixed-width integer types, as ranges of mathematical
      integers. */
  type s32 = x: int | -0x8000_0000 <= x < 0x8000_0000
  type u32 = x: int | 0 <= x < 0x1_0000_0000
  type u16 = x: int | 0 <= x < 0x1_0000

  /** Forces along the X axis (negative pulls left) and the Y axis (negative
      pulls away from the user). */
  datatype SimpleForce = SimpleForce(x: s32, y: s32)

  /** Strong and weak vibration magnitudes and their directions, the
      directions encoded as in `struct ff_effect`. */
  datatype RumbleForce = RumbleForce(strong: u32, weak: u32, strongDir: u16, weakDir: u16)

  /** An uncombinable effect: the id ff-core assigned to it and the effect
      the layer stores (the driver must not alter it). */
  datatype UncombEffect = UncombEffect(id: int, effect: FfEffect)

  /** A command with its payload; the constructor is the `cmd` field and the
      arguments are the union member that belongs to it. The two stop
      commands carry the force or rumble the device is left with. */
  datatype Command =
    | StartCombined(force: SimpleForce)
    | StopCombined(force: SimpleForce)
    | StartRumble(rumble: RumbleForce)
    | StopRumble(rumble: RumbleForce)
    | StartUncomb(uncomb: UncombEffect)
    | StopUncomb(uncomb: UncombEffect)
    | UploadUncomb(uncomb: UncombEffect)
    | EraseUncomb(uncomb: UncombEffect)

  /** True of the four commands that address one uncombinable effect. */
  predicate AddressesUncomb(c: Command)
  {
    c.StartUncomb? || c.StopUncomb? || c.UploadUncomb? || c.EraseUncomb?
  }

  /** The members of `enum mlnx_commands`, in declaration order. */
  datatype Opcode =
    | OpStartCombined | OpStopCombined
    | OpStartRumble | OpStopRumble
    | OpStartUncomb | OpStopUncomb
    | OpUploadUncomb | OpEraseUncomb

  /** The enumeration value C assigns to an opcode: its position, from 0. */
  function Ordinal(op: Opcode): (n: nat)
    ensures n < 8
  {
    match op
    case OpStartCombined => 0
    case OpStopCombined => 1
    case OpStartRumble => 2
    case OpStopRumble => 3
    case OpStartUncomb => 4
    case OpStopUncomb => 5
    case OpUploadUncomb => 6
    case OpEraseUncomb => 7
  }

  /** The opcode an enumeration value denotes, if any. */
  function FromOrdinal(n: int): (r: Option<Opcode>)
    ensures r.Some? <==> 0 <= n < 8
  {
    if n == 0 then Some(OpStartCombined)
    else if n == 1 then Some(OpStopCombined)
    else if n == 2 then Some(OpStartRumble)
    else if n == 3 then Some(OpStopRumble)
    else if n == 4 then Some(OpStartUncomb)
    else if n == 5 then Some(OpStopUncomb)
    else if n == 6 then Some(OpUploadUncomb)
    else if n == 7 then Some(OpEraseUncomb)
    else None
  }

  /** The enumeration values and the opcodes are in one-to-one
      correspondence: decoding a value gives back the opcode that encodes to
      it, both ways round. */
  lemma OrdinalRoundTrip(op: Opcode, n: int)
    ensures FromOrdinal(Ordinal(op)) == Some(op)
    ensures FromOrdinal(n).Some? ==> Ordinal(FromOrdinal(n).value) == n
  {
  }

  /** The union `u` of `struct mlnx_effect_command`, recording which member
      was last written. */
  datatype Payload =
    | SimplePayload(simple: SimpleForce)
    | RumblePayload(rumbleForce: RumbleForce)
    | UncombPayload(uncombEffect: UncombEffect)

  /** `struct mlnx_effect_command` as laid out in C: an opcode and a union. */
  datatype RawCommand = RawCommand(cmd: Opcode, u: Payload)

  function OpcodeOf(c: Command): Opcode
  {
    match c
    case StartCombined(_) => OpStartCombined
    case StopCombined(_) => OpStopCombined
    case StartRumble(_) => OpStartRumble
    case StopRumble(_) => OpStopRumble
    case StartUncomb(_) => OpStartUncomb
    case StopUncomb(_) => OpStopUncomb
    case UploadUncomb(_) => OpUploadUncomb
    case EraseUncomb(_) => OpEraseUncomb
  }

  /** Fills in the C structure for a command: the opcode, and the union
      member the opcode selects. */
  function Encode(c: Command): (r: RawCommand)
    ensures r.cmd == OpcodeOf(c)
  {
    match c
    case StartCombined(f) => RawCommand(OpStartCombined, SimplePayload(f))
    case StopCombined(f) => RawCommand(OpStopCombined, SimplePayload(f))
    case StartRumble(f) => RawCommand(OpStartRumble, RumblePayload(f))
    case StopRumble(f) => RawCommand(OpStopRumble, RumblePayload(f))
    case StartUncomb(e) => RawCommand(OpStartUncomb, UncombPayload(e))
    case StopUncomb(e) => RawCommand(OpStopUncomb, UncombPayload(e))
    case UploadUncomb(e) => RawCommand(OpUploadUncomb, UncombPayload(e))
    case EraseUncomb(e) => RawCommand(OpEraseUncomb, UncombPayload(e))
  }

  /** Which union member an opcode makes the driver read. */
  predicate ReadsMember(op: Opcode, u: Payload)
  {
    match op
    case OpStartCombined | OpStopCombined => u.SimplePayload?
    case OpStartRumble | OpStopRumble => u.RumblePayload?
    case _ => u.UncombPayload?
  }

  /** Reads a C command the way a driver does: the opcode picks the union
      member. Fails when the union holds a different member than the one
      the opcode selects. */
  function Decode(raw: RawCommand): (r: Option<Command>)
    ensures r.Some? <==> ReadsMember(raw.cmd, raw.u)
    ensures r.Some? ==> OpcodeOf(r.value) == raw.cmd
    ensures r.Some? ==> Encode(r.value) == raw
  {
    match raw.cmd
    case OpStartCombined => if raw.u.SimplePayload? then Some(StartCombined(raw.u.simple)) else None
    case OpStopCombined => if raw.u.SimplePayload? then Some(StopCombined(raw.u.simple)) else None
    case OpStartRumble => if raw.u.RumblePayload? then Some(StartRumble(raw.u.rumbleForce)) else None
    case OpStopRumble => if raw.u.RumblePayload? then Some(StopRumble(raw.u.rumbleForce)) else None
    case OpStartUncomb => if raw.u.UncombPayload? then Some(StartUncomb(raw.u.uncombEffect)) else None
    case OpStopUncomb => if raw.u.UncombPayload? then Some(StopUncomb(raw.u.uncombEffect)) else None
    case OpUploadUncomb => if raw.u.UncombPayload? then Some(UploadUncomb(raw.u.uncombEffect)) else None
    case OpEraseUncomb => if raw.u.UncombPayload? then Some(EraseUncomb(raw.u.uncombEffect)) else None
  }

  /** No force and no rumble: what the stop commands leave the device with. */
  const NoForce: SimpleForce := SimpleForce(0, 0)
  const NoRumble: RumbleForce := RumbleForce(0, 0, 0, 0)

  /** Every command survives being written into the C structure and read
      back by the driver. */
  lemma DecodeEncode(c: Command)
    ensures Decode(Encode(c)) == Some(c)
  {
  }
}
