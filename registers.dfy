/** Register map of the APDS-9960 and the byte arithmetic the driver performs
    on it: masked bit fields, the ENABLE mode bits, and 16-bit values split
    over two 8-bit registers. */
module Registers {

  /** A register address: the index of one byte of the device's register
      bank. */
  type Addr = a: int | 0 <= a < 256

  // Register addresses.
  const ENABLE: Addr := 0x80
  const ATIME: Addr := 0x81
  const WTIME: Addr := 0x83
  const AILTL: Addr := 0x84
  const AILTH: Addr := 0x85
  const AIHTL: Addr := 0x86
  const AIHTH: Addr := 0x87
  const PILT: Addr := 0x89
  const PIHT: Addr := 0x8B
  const PERS: Addr := 0x8C
  const CONFIG1: Addr := 0x8D
  const PPULSE: Addr := 0x8E
  const CONTROL: Addr := 0x8F
  const CONFIG2: Addr := 0x90
  const ID: Addr := 0x92
  const STATUS: Addr := 0x93
  const CDATAL: Addr := 0x94
  const CDATAH: Addr := 0x95
  const RDATAL: Addr := 0x96
  const RDATAH: Addr := 0x97
  const GDATAL: Addr := 0x98
  const GDATAH: Addr := 0x99
  const BDATAL: Addr := 0x9A
  const BDATAH: Addr := 0x9B
  const PDATA: Addr := 0x9C
  const POFFSET_UR: Addr := 0x9D
  const POFFSET_DL: Addr := 0x9E
  const CONFIG3: Addr := 0x9F
  const GPENTH: Addr := 0xA0
  const GEXTH: Addr := 0xA1
  const GCONF1: Addr := 0xA2
  const GCONF2: Addr := 0xA3
  const GOFFSET_U: Addr := 0xA4
  const GOFFSET_D: Addr := 0xA5
  const GPULSE: Addr := 0xA6
  const GOFFSET_L: Addr := 0xA7
  const GOFFSET_R: Addr := 0xA9
  const GCONF3: Addr := 0xAA
  const GCONF4: Addr := 0xAB
  const GFLVL: Addr := 0xAE
  const GSTATUS: Addr := 0xAF
  const PICLEAR: Addr := 0xE5
  const AICLEAR: Addr := 0xE7
  const GFIFO_U: Addr := 0xFC

  // Values with a fixed meaning.
  const ERROR: bv8 := 0xFF
  const ID_1: bv8 := 0xAB
  const ID_2: bv8 := 0x9C
  const GVALID: bv8 := 0x01

  // Mode numbers accepted by setMode: the bit of ENABLE they address.
  const POWER: bv8 := 0
  const AMBIENT_LIGHT: bv8 := 1
  const PROXIMITY: bv8 := 2
  const WAIT: bv8 := 3
  const AMBIENT_LIGHT_INT: bv8 := 4
  const PROXIMITY_INT: bv8 := 5
  const GESTURE: bv8 := 6
  const ALL: bv8 := 7

  // Default register values programmed by Start and the feature toggles.
  const DEFAULT_ATIME: bv8 := 219
  const DEFAULT_WTIME: bv8 := 246
  const DEFAULT_PROX_PPULSE: bv8 := 0x87
  const DEFAULT_GESTURE_PPULSE: bv8 := 0x89
  const DEFAULT_POFFSET_UR: bv8 := 0
  const DEFAULT_POFFSET_DL: bv8 := 0
  const DEFAULT_CONFIG1: bv8 := 0x60
  const DEFAULT_LDRIVE: bv8 := 0
  const DEFAULT_PGAIN: bv8 := 2
  const DEFAULT_AGAIN: bv8 := 1
  const DEFAULT_PILT: bv8 := 0
  const DEFAULT_PIHT: bv8 := 50
  const DEFAULT_AILT: bv16 := 0xFFFF
  const DEFAULT_AIHT: bv16 := 0
  const DEFAULT_PERS: bv8 := 0x11
  const DEFAULT_CONFIG2: bv8 := 0x01
  const DEFAULT_CONFIG3: bv8 := 0
  const DEFAULT_GPENTH: bv8 := 40
  const DEFAULT_GEXTH: bv8 := 30
  const DEFAULT_GGAIN: bv8 := 2
  const DEFAULT_GLDRIVE: bv8 := 0
  const DEFAULT_GWTIME: bv8 := 1
  const DEFAULT_GOFFSET: bv8 := 0
  const DEFAULT_GPULSE: bv8 := 0xC9
  const DEFAULT_GCONF3: bv8 := 0
  const DEFAULT_GIEN: bv8 := 0
  const LED_BOOST_300: bv8 := 3

  type BitIndex = i: bv8 | i < 8

  /** One bit field as an accessor pair handles it: the register, the shift of
      the field, the mask of the field's width, and the mask the setter ANDs
      the old byte with before OR-ing the new field in. */
  datatype Field = Field(reg: Addr, shift: BitIndex, mask: bv8, clear: bv8)

  const LedDrive := Field(CONTROL, 6, 0x03, 0x3F)
  const ProximityGain := Field(CONTROL, 2, 0x03, 0xF3)
  const AmbientLightGain := Field(CONTROL, 0, 0x03, 0xFC)
  const GestureGain := Field(GCONF2, 5, 0x03, 0x9F)
  const GestureLedDrive := Field(GCONF2, 3, 0x03, 0xE7)
  const GestureWaitTime := Field(GCONF2, 0, 0x07, 0xF8)
  // The driver keeps the LED boost in GCONF2 bits 5-4, on top of the
  // gesture gain and gesture LED drive fields.
  const LedBoost := Field(GCONF2, 4, 0x03, 0xCF)
  const GestureIntEnable := Field(GCONF4, 1, 0x01, 0xFD)
  const GestureMode := Field(GCONF4, 0, 0x01, 0xFE)
  const ProximityIntEnable := Field(ENABLE, 5, 0x01, 0xDF)
  const AmbientLightIntEnable := Field(ENABLE, 4, 0x01, 0xEF)
  const ProxPhotoMask := Field(CONFIG3, 0, 0x0F, 0xF0)
  // The clear mask 0xCF also wipes GCONF3 bit 4, outside the one-bit field.
  const ProxGainCompEnable := Field(GCONF3, 5, 0x01, 0xCF)

  /** The byte a setter writes back: the old byte with the clear mask applied
      and the masked value shifted into place. */
  function Insert(b: bv8, f: Field, v: bv8): bv8 {
    (b & f.clear) | ((v & f.mask) << f.shift)
  }

  /** The value a getter returns for the byte it has read. */
  function Extract(b: bv8, f: Field): bv8 {
    (b >> f.shift) & f.mask
  }

  /** A field whose clear mask is exactly the complement of the field's bits,
      and whose width fits above its shift. */
  predicate Exact(f: Field) {
    && f.clear == !(f.mask << f.shift)
    && (f.mask << f.shift) >> f.shift == f.mask
  }

  /** Get-after-set returns the value masked to the field's width, and a setter
      changes no bit outside the field. */
  lemma FieldRoundTrip(b: bv8, f: Field, v: bv8)
    requires Exact(f)
    ensures Extract(Insert(b, f, v), f) == v & f.mask
    ensures Insert(b, f, v) & f.clear == b & f.clear
  {
    FieldGetAfterSet(b, f, v);
    FieldSetKeepsRest(b, f, v);
  }

  lemma FieldGetAfterSet(b: bv8, f: Field, v: bv8)
    requires Exact(f)
    ensures Extract(Insert(b, f, v), f) == v & f.mask
  {
    match f
    case Field(_, shift, mask, clear) =>
      PlacedReadsBack(b, mask, clear, v, shift);
  }

  lemma FieldSetKeepsRest(b: bv8, f: Field, v: bv8)
    requires Exact(f)
    ensures Insert(b, f, v) & f.clear == b & f.clear
  {
    match f
    case Field(_, shift, mask, clear) =>
      PlacedKeepsRest(b, mask, clear, v, shift);
  }

  /** The round trip on the bytes themselves: a value masked, shifted into
      place over a byte cleared by the complement mask, and shifted back. */
  lemma PlacedReadsBack(b: bv8, mask: bv8, clear: bv8, v: bv8, shift: BitIndex)
    requires clear == !(mask << shift) && (mask << shift) >> shift == mask
    ensures (((b & clear) | ((v & mask) << shift)) >> shift) & mask == v & mask
  {
  }

  /** Placing a masked value leaves the bits the clear mask keeps. */
  lemma PlacedKeepsRest(b: bv8, mask: bv8, clear: bv8, v: bv8, shift: BitIndex)
    requires clear == !(mask << shift)
    ensures ((b & clear) | ((v & mask) << shift)) & clear == b & clear
  {
  }

  /** A getter's value has no bit outside the field's mask. */
  lemma ExtractWithinMask(b: bv8, f: Field)
    ensures Extract(b, f) & !f.mask == 0
  {
  }

  /** Every field accessor pair is exact except the proximity gain
      compensation pair, whose setter also clears a neighbouring bit. */
  lemma FieldTable()
    ensures Exact(LedDrive) && Exact(ProximityGain) && Exact(AmbientLightGain)
    ensures Exact(GestureGain) && Exact(GestureLedDrive) && Exact(GestureWaitTime)
    ensures Exact(LedBoost) && Exact(GestureIntEnable) && Exact(GestureMode)
    ensures Exact(ProximityIntEnable) && Exact(AmbientLightIntEnable) && Exact(ProxPhotoMask)
    ensures !Exact(ProxGainCompEnable)
  {
  }

  /** The LED boost setter overwrites the high bit of the gesture LED drive
      field and the low bit of the gesture gain field of GCONF2. */
  lemma LedBoostOverlapsGestureFields(b: bv8, v: bv8)
    ensures Extract(Insert(b, LedBoost, v), GestureGain) == (Extract(b, GestureGain) & 2) | ((v >> 1) & 1)
    ensures Extract(Insert(b, LedBoost, v), GestureLedDrive) == (Extract(b, GestureLedDrive) & 1) | ((v & 1) << 1)
    ensures Extract(Insert(b, LedBoost, v), GestureWaitTime) == Extract(b, GestureWaitTime)
  {
  }

  /** The gain compensation setter reads back as written, clears bit 4, and
      keeps every other bit. */
  lemma ProxGainCompClearsBit4(b: bv8, v: bv8)
    ensures Extract(Insert(b, ProxGainCompEnable, v), ProxGainCompEnable) == v & 1
    ensures Insert(b, ProxGainCompEnable, v) & 0x10 == 0
    ensures Insert(b, ProxGainCompEnable, v) & 0xCF == b & 0xCF
  {
  }

  /** The ENABLE byte setMode writes for the byte it read: a mode up to 6 sets
      or clears that one bit, ALL sets every feature bit or none, and any other
      mode writes the byte back unchanged. */
  function ModeByte(regVal: bv8, mode: bv8, enable: bv8): bv8 {
    var on := enable & 0x01;
    if mode <= 6 then
      (if on > 0 then regVal | (1 << mode) else regVal & !(1 << mode))
    else if mode == ALL then
      (if on > 0 then 0x7F else 0x00)
    else
      regVal
  }

  /** setMode with a single-bit mode changes exactly bit `mode`, to `enable & 1`. */
  lemma ModeByteSingleBit(regVal: bv8, mode: bv8, enable: bv8)
    requires mode <= 6
    ensures (ModeByte(regVal, mode, enable) >> mode) & 1 == enable & 1
    ensures ModeByte(regVal, mode, enable) & !(1 << mode) == regVal & !(1 << mode)
  {
  }

  /** setMode(ALL, e) ignores the old byte. */
  lemma ModeByteAll(regVal: bv8, enable: bv8)
    ensures ModeByte(regVal, ALL, enable) == if enable & 1 == 1 then 0x7F else 0x00
  {
  }

  /** The first byte of the big-endian encoding of x (its high byte). */
  function BigEndianFirst(x: bv16): bv8 {
    (x >> 8) as bv8
  }

  /** The second byte of the big-endian encoding of x (its low byte). */
  function BigEndianSecond(x: bv16): bv8 {
    (x & 0xFF) as bv8
  }

  /** The 16-bit value `low + (high << 8)` that the getters and readers form
      from a pair of registers. */
  function Combine(low: bv8, high: bv8): (w: bv16)
    ensures w & 0xFF == low as bv16 && w >> 8 == high as bv16
  {
    (low as bv16) + ((high as bv16) << 8)
  }

  /** x with its two bytes exchanged. */
  function Swap(x: bv16): bv16 {
    (x << 8) | (x >> 8)
  }

  /** Writing the big-endian bytes of x to a low/high register pair and reading
      the pair back little-endian yields x byte-swapped; swapping is its own
      inverse, and x is a fixed point exactly when its two bytes are equal. */
  lemma ThresholdReadBack(x: bv16)
    ensures Combine(BigEndianFirst(x), BigEndianSecond(x)) == Swap(x)
    ensures Swap(Swap(x)) == x
    ensures Swap(x) == x <==> BigEndianFirst(x) == BigEndianSecond(x)
  {
  }
}
