/**
 * Bit-level accessors of midi/src/main/kotlin/midituutti/midi/MessageDecoder.kt: the Set Tempo meta
 * event (FF 51, three bytes of microseconds per quarter note) and the Time Signature meta event
 * (FF 58, numerator and the power of two of the denominator) of the Standard MIDI Files 1.0
 * specification, and Note On / Note Off channel voice messages (0x9n / 0x8n) of the MIDI 1.0
 * Detailed Specification.
 */
module MessageDecoder {
  import opened Midi
  import opened Outcomes

  /** A JVM `Byte`: signed, two's complement. */
  type JByte = b: int | -128 <= b < 128

  /** `b and 0xFF`: `toInt()` sign-extends, the mask keeps the low eight bits, so no sign survives. */
  function ByteAndFF(b: JByte): (r: int)
    ensures 0 <= r <= 255
    ensures b >= 0 ==> r == b
    ensures b < 0 ==> r == b + 256
  {
    b % 256
  }

  /** The `(byte)` narrowing of a value 0..255, as a MetaMessage's data array stores it. */
  function ToJByte(u: int): (b: JByte)
    requires 0 <= u < 256
  {
    if u < 128 then u else u - 256
  }

  /** Masking undoes narrowing and narrowing undoes masking. */
  lemma ByteRoundTrip(u: int, b: JByte)
    requires 0 <= u < 256
    ensures ByteAndFF(ToJByte(u)) == u
    ensures ToJByte(ByteAndFF(b)) == b
  {
  }

  /**
   * `midiTempo = (d0 and 0xFF) shl 16 or (d1 and 0xFF) shl 8 or (d2 and 0xFF)`. The three masked bytes
   * occupy disjoint bit ranges of a non-negative Int, so the `or` of the shifts is this sum.
   */
  function MidiTempo(d0: JByte, d1: JByte, d2: JByte): (r: int)
    ensures 0 <= r < 0x100_0000
  {
    ByteAndFF(d0) * 0x1_0000 + ByteAndFF(d1) * 0x100 + ByteAndFF(d2)
  }

  /** `tempoAccessor`: the data of a Set Tempo event to beats per minute; 0.1 bpm when the value is 0. */
  function TempoOf(data: seq<JByte>): (r: Result<Tempo>)
    ensures r.Ok? <==> |data| >= 3
    ensures r.Ok? ==> r.value.bpm > 0.0
    ensures r.Ok? && MidiTempo(data[0], data[1], data[2]) == 0 ==> r.value == Tempo(0.1)
  {
    if |data| < 3 then Err(IndexOutOfBounds)
    else
      var midiTempo := MidiTempo(data[0], data[1], data[2]);
      var bpm := if midiTempo <= 0 then 0.1 else 60_000_000.0 / midiTempo as real;
      Ok(Tempo(bpm))
  }

  /** The three data bytes of a Set Tempo event for a number of microseconds per quarter note. */
  function EncodeTempo(micros: int): (data: seq<JByte>)
    requires 0 <= micros < 0x100_0000
    ensures |data| == 3
  {
    [ToJByte(micros / 0x1_0000), ToJByte(micros / 0x100 % 0x100), ToJByte(micros % 0x100)]
  }

  /** Decoding the encoded value gives back the microseconds, and the tempo is 60 000 000 / microseconds. */
  lemma TempoRoundTrip(micros: int)
    requires 0 < micros < 0x100_0000
    ensures MidiTempo(EncodeTempo(micros)[0], EncodeTempo(micros)[1], EncodeTempo(micros)[2]) == micros
    ensures TempoOf(EncodeTempo(micros)) == Ok(Tempo(60_000_000.0 / micros as real))
  {
    ByteRoundTrip(micros / 0x1_0000, 0);
    ByteRoundTrip(micros / 0x100 % 0x100, 0);
    ByteRoundTrip(micros % 0x100, 0);
    TempoDigits(micros);
  }

  /** The three base-256 digits of `micros` make it up again. */
  lemma TempoDigits(micros: int)
    requires 0 <= micros < 0x100_0000
    ensures micros / 0x1_0000 * 0x1_0000 + micros / 0x100 % 0x100 * 0x100 + micros % 0x100 == micros
  {
    assert micros == micros / 0x100 * 0x100 + micros % 0x100;
    assert micros / 0x100 == micros / 0x100 / 0x100 * 0x100 + micros / 0x100 % 0x100;
    assert micros / 0x100 / 0x100 == micros / 0x1_0000;
  }

  function Pow2(n: nat): (r: int)
    ensures r >= 1
  {
    if n == 0 then 1 else 2 * Pow2(n - 1)
  }

  /** JVM `1 shl n` on Int: only the low five bits of `n` count, and bit 31 is the sign bit. */
  function OneShl(n: nat): (r: int)
    ensures n < 31 ==> r == Pow2(n)
    ensures n % 32 == 31 ==> r == -0x8000_0000
  {
    var s := n % 32;
    if s == 31 then -0x8000_0000 else Pow2(s)
  }

  /** `timeSignatureAccessor`: numerator `d0`, denominator `2^d1`. */
  function TimeSignatureOf(data: seq<JByte>): (r: Result<TimeSignature>)
    ensures r.Ok? <==> |data| >= 2
    ensures r.Ok? ==> r.value.beats == ByteAndFF(data[0])
    ensures r.Ok? && ByteAndFF(data[1]) < 31 ==> r.value.unit == Pow2(ByteAndFF(data[1]))
  {
    if |data| < 2 then Err(IndexOutOfBounds)
    else Ok(TimeSignature(ByteAndFF(data[0]), OneShl(ByteAndFF(data[1]))))
  }

  /** A time signature `beats / 2^k` read back from its encoded numerator and exponent bytes. */
  lemma TimeSignatureRoundTrip(beats: int, k: nat, rest: seq<JByte>)
    requires 0 <= beats < 256 && k < 31
    ensures TimeSignatureOf([ToJByte(beats), ToJByte(k)] + rest) == Ok(TimeSignature(beats, Pow2(k)))
  {
    ByteRoundTrip(beats, 0);
    ByteRoundTrip(k, 0);
  }

  /** `noteAccessor`: command 0x90 is On, 0x80 is Off, anything else throws; the channel becomes 1-based. */
  function NoteOf(message: ShortMessage): (r: Result<Note>)
    ensures r.Ok? <==> message.Command() == NOTE_ON || message.Command() == NOTE_OFF
    ensures r.Err? ==> r.error == IllegalArgument
    ensures r.Ok? ==> r.value.onOff == (if message.Command() == NOTE_ON then On else Off)
    ensures r.Ok? ==> r.value.channel == message.Channel() + 1
    ensures r.Ok? ==> r.value.note == message.data1 && r.value.velocity == message.data2
  {
    if message.Command() == NOTE_ON then Ok(Note(On, message.Channel() + 1, message.data1, message.data2))
    else if message.Command() == NOTE_OFF then Ok(Note(Off, message.Channel() + 1, message.data1, message.data2))
    else Err(IllegalArgument)
  }

  /** Encoding a note for the wire (`NoteMessage.fromNote`) and decoding it again gives the note back. */
  lemma NoteRoundTrip(note: Note)
    requires EncodeNote(note).Ok?
    ensures NoteOf(EncodeNote(note).value) == Ok(note)
  {
    var s := EncodeNote(note).value;
    var base := if note.onOff == On then NOTE_ON else NOTE_OFF;
    assert s.status == base + (note.channel - 1);
    assert s.status % 16 == note.channel - 1;
  }

  datatype MetaType = TempoMeta | TimeSignatureMeta | NotSupported

  /** `metaTypeOf`: meta event type 0x51 is Set Tempo, 0x58 is Time Signature, anything else is not supported. */
  function MetaTypeOf(metaEventType: int): (r: MetaType)
    ensures r == TempoMeta <==> metaEventType == 0x51
    ensures r == TimeSignatureMeta <==> metaEventType == 0x58
  {
    if metaEventType == 0x51 then TempoMeta
    else if metaEventType == 0x58 then TimeSignatureMeta
    else NotSupported
  }

  /** `message.metaType()` of the message module the oldest engine uses: the meta type of a classified message. */
  function MessageMetaType(m: MidiMessage): (r: MetaType)
    ensures r == TempoMeta <==> m.TempoMessage?
    ensures r == TimeSignatureMeta <==> m.TimeSignatureMessage?
  {
    match m
    case TempoMessage(_, _) => TempoMeta
    case TimeSignatureMessage(_, _) => TimeSignatureMeta
    case _ => NotSupported
  }
}
