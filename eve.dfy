/**
  Model of the FT81x/BT81x SPI decoder, EmbeddedVideoEngine/EmbeddedVideoEngine.py.

  On chip-select release the buffered MOSI bytes are classified: three bytes are a host command
  named by byte 0; four or more bytes are a memory access whose first three bytes carry a 22-bit
  address (bit 7 of byte 0 set for a write, bit 6 ignored). A write's data is the little-endian
  value of up to four bytes after the address, disassembled as a coprocessor command or
  display-list instruction when it is a full word going to display-list RAM or REG_CMDB_WRITE; a
  read's data is the little-endian value of up to four MISO bytes after the address and the dummy
  byte.

  The MISO buffer is only created by the first 'enable' (the constructor does not create it), so
  the object records it as an `Option`, and touching it while it is missing raises
  AttributeError. As in the BT82x model, the rules take the dictionaries as a parameter `d`, which
  the analyzer object binds to `EveTables.EVE`.
*/
module EmbeddedVideoEngine {
  import opened Options
  import opened Bytes
  import opened Hex
  import opened Frames
  import opened Tables
  import opened EveTables
  import opened Disassembler
  import opened Labels

  // ---------------------------------------------------------------------------------------------
  // Payload decoders: decode_read_response (lines 314-332) and decode_write_data (lines 334-352).
  // ---------------------------------------------------------------------------------------------

  /** The bytes both decoders read: those after the first `skip`, at most four of them; None when there are none. */
  function TrailingBytes(bs: seq<byte>, skip: nat): (p: Option<seq<byte>>)
    ensures p.None? <==> |bs| <= skip
    ensures p.Some? ==> |p.value| == (if |bs| - skip >= 4 then 4 else |bs| - skip)
    ensures p.Some? ==> p.value == bs[skip..skip + |p.value|]
  {
    if |bs| <= skip then None
    else
      var data := bs[skip..];
      Some(if |data| > 4 then data[..4] else data)
  }

  /** The shared body of both decoders: those bytes as a little-endian number, in two hex digits per byte. */
  function TrailingWord(bs: seq<byte>, skip: nat): (r: Option<string>)
    ensures r.None? <==> |bs| <= skip
    ensures r.Some? ==>
              var p := TrailingBytes(bs, skip).value;
              && |r.value| == 2 + 2 * |p| && r.value[..2] == "0x"
              && ParseInt16(r.value) == Some(LeValue(p))
  {
    match TrailingBytes(bs, skip)
    case None => None
    case Some(p) =>
      var value := LeValue(p);
      Pow256IsPow16(|p|);
      FormatWidth(value, 2 * |p|);
      ParseFormat(value, 2 * |p|);
      Some(Literal(value, 2 * |p|))
  }

  /** decode_read_response on the MISO byte values: skips the three address bytes and the dummy byte. */
  function ReadResponse(miso: seq<byte>): (r: Option<string>)
    ensures r.None? <==> |miso| <= 4
  {
    TrailingWord(miso, 4)
  }

  /** decode_write_data on the MOSI byte values: skips the three address bytes. */
  function WriteValue(mosi: seq<byte>): (r: Option<string>)
    ensures r.None? <==> |mosi| <= 3
  {
    TrailingWord(mosi, 3)
  }

  /** The decoded text has one digit pair per data byte, 1 to 4 of them, and its value is below 256 to the power of that count. */
  lemma TrailingWordText(bs: seq<byte>, skip: nat)
    requires |bs| > skip
    ensures var n := if |bs| - skip >= 4 then 4 else |bs| - skip;
            var s := TrailingWord(bs, skip).value;
            && |s| == 2 + 2 * n && s[..2] == "0x" && (forall j :: 2 <= j < |s| ==> s[j] in DIGITS)
            && ParseInt16(s) == Some(LeValue(bs[skip..skip + n])) && LeValue(bs[skip..skip + n]) < Pow256(n)
  {
    var n := if |bs| - skip >= 4 then 4 else |bs| - skip;
    var p := TrailingBytes(bs, skip).value;
    assert p == bs[skip..skip + n];
    var s := Literal(LeValue(p), 2 * n);
    assert TrailingWord(bs, skip) == Some(s);
    var f := Format(LeValue(p), 2 * n);
    assert s == "0x" + f;
    assert forall j :: 2 <= j < |s| ==> s[j] == f[j - 2];
  }

  /** Bytes after the fourth data byte never change the result. */
  lemma TrailingWordPrefix(a: seq<byte>, b: seq<byte>, skip: nat)
    requires |a| >= skip + 4 && |b| >= skip + 4 && a[..skip + 4] == b[..skip + 4]
    ensures TrailingWord(a, skip) == TrailingWord(b, skip)
  {
    assert a[skip..skip + 4] == a[..skip + 4][skip..] == b[..skip + 4][skip..] == b[skip..skip + 4];
  }

  /** Two write transactions that agree on bytes 0-6 decode to the same write data: bytes beyond index 6 never matter. */
  lemma WriteValueIgnoresTail(a: seq<byte>, b: seq<byte>)
    requires |a| >= 7 && |b| >= 7 && a[..7] == b[..7]
    ensures WriteValue(a) == WriteValue(b)
  {
    TrailingWordPrefix(a, b, 3);
  }

  /** Two reads whose MISO bytes agree on bytes 0-7 decode to the same value: bytes beyond index 7 never matter. */
  lemma ReadResponseIgnoresTail(a: seq<byte>, b: seq<byte>)
    requires |a| >= 8 && |b| >= 8 && a[..8] == b[..8]
    ensures ReadResponse(a) == ReadResponse(b)
  {
    TrailingWordPrefix(a, b, 4);
  }

  /** Placing the n little-endian bytes of V after the skipped bytes, and nothing more unless n is 4, decodes to V in 2n hex digits. */
  lemma TrailingWordRoundTrip(header: seq<byte>, v: nat, n: nat, rest: seq<byte>)
    requires 1 <= n <= 4 && v < Pow256(n) && (n < 4 ==> rest == [])
    ensures TrailingWord(header + LeBytes(v, n) + rest, |header|) == Some(Literal(v, 2 * n))
  {
    var bs := header + LeBytes(v, n) + rest;
    assert bs[|header|..|header| + n] == LeBytes(v, n);
  }

  // ---------------------------------------------------------------------------------------------
  // Classifier (lines 395-420).
  // ---------------------------------------------------------------------------------------------

  /** The 22-bit address `(b0 & 0x3F) << 16 | b1 << 8 | b2` (lines 403-408); the fields do not overlap, so `|` adds.
      Its bytes, least significant first, are b2, b1 and b0 without bits 6 and 7. */
  function Address(b0: byte, b1: byte, b2: byte): (addr: nat)
    ensures addr < 0x40_0000
    ensures addr % 0x100 == b2 && addr / 0x100 % 0x100 == b1 && addr / 0x100 / 0x100 == b0 % 0x40
  {
    var top: byte := b0 % 0x40;
    ShiftIn(top, b1);
    ShiftIn(top * 0x100 + b1, b2);
    (top * 0x100 + b1) * 0x100 + b2
  }

  /** Two headers address the same location exactly when they agree on b1, b2 and the low six bits of b0:
      the operation bit 7 and bit 6 of b0 play no part in the address. */
  lemma AddressInjective(a0: byte, a1: byte, a2: byte, c0: byte, c1: byte, c2: byte)
    ensures Address(a0, a1, a2) == Address(c0, c1, c2) <==> a0 % 0x40 == c0 % 0x40 && a1 == c1 && a2 == c2
  {
    var a, c := Address(a0, a1, a2), Address(c0, c1, c2);
    if a0 % 0x40 == c0 % 0x40 && a1 == c1 && a2 == c2 {
      assert a == (a / 0x100 / 0x100 * 0x100 + a / 0x100 % 0x100) * 0x100 + a % 0x100;
      assert c == (c / 0x100 / 0x100 * 0x100 + c / 0x100 % 0x100) * 0x100 + c % 0x100;
    }
  }

  /** `(b0 & 0x80) != 0` (line 410). */
  predicate IsWrite(b0: byte)
  {
    b0 >= 0x80
  }

  /** The display-list RAM window, inclusive (line 414). */
  const RAM_DL: nat := 0x30_0000
  const RAM_DL_LAST: nat := 0x30_1FFF

  predicate InRamDl(addr: nat)
  {
    RAM_DL <= addr <= RAM_DL_LAST
  }

  /** Lines 414-418: the offset into display-list RAM, the register name, or the address in 8 hex digits. */
  function AddressLabel(d: Dictionaries, addr: nat): string
  {
    WindowLabel(d.registers, RAM_DL, RAM_DL_LAST, addr)
  }

  /** A label names display-list RAM exactly for the addresses of the window and then carries the offset in 4 hex
      digits; REG_CMDB_WRITE labels one address; an unnamed address is itself in 8 hex digits. */
  lemma AddressLabelClasses(d: Dictionaries, addr: nat)
    requires WellFormed(d)
    requires addr < 0x40_0000
    ensures StartsWith(AddressLabel(d, addr), RAM_DL_PREFIX) <==> InRamDl(addr)
    ensures InRamDl(addr) ==> |AddressLabel(d, addr)| == 13 && ParseInt16(AddressLabel(d, addr)[7..]) == Some(addr - RAM_DL)
    ensures !InRamDl(addr) && addr !in d.registers ==> |AddressLabel(d, addr)| == 10 && ParseInt16(AddressLabel(d, addr)) == Some(addr)
    ensures AddressLabel(d, addr) == "REG_CMDB_WRITE" <==> addr == REG_CMDB_WRITE_ADDR
    ensures IsDisassembled(AddressLabel(d, addr)) <==> InRamDl(addr) || addr == REG_CMDB_WRITE_ADDR
  {
    if InRamDl(addr) {
      WindowOffsetLabel(d.registers, RAM_DL, RAM_DL_LAST, addr);
    } else {
      EveryAt(d.registers, IsRegisterEntry, addr);
      OutsideWindowLabel(d.registers, RAM_DL, RAM_DL_LAST, addr);
    }
  }

  // ---------------------------------------------------------------------------------------------
  // Frame data (lines 422-458).
  // ---------------------------------------------------------------------------------------------

  /** The data of a write frame (lines 424-443): decode_write_data's string, disassembled when it holds a full word
      (ten characters) and the label is display-list RAM or REG_CMDB_WRITE, with byte 6 as the word's top byte. */
  function WriteData(d: Dictionaries, tag: string, mosi: seq<byte>): string
    requires |mosi| >= 4
  {
    var s := WriteValue(mosi).value;
    if |s| == 10 && IsDisassembled(tag) then Disassembly(d.coproCommands, d.dlCommands, s, ParseInt16(s).value, mosi[6])
    else s
  }

  /** A write of fewer than four data bytes, or to another label, carries decode_write_data's string; a full word to
      display-list RAM or REG_CMDB_WRITE carries the disassembly of the little-endian word at bytes 3-6. */
  lemma WriteDataCases(d: Dictionaries, tag: string, mosi: seq<byte>)
    requires |mosi| >= 4
    ensures !IsDisassembled(tag) || |mosi| < 7 ==> WriteData(d, tag, mosi) == WriteValue(mosi).value
    ensures IsDisassembled(tag) && |mosi| >= 7 ==>
              var v := LeValue(mosi[3..7]);
              v < 0x1_0000_0000 && WriteData(d, tag, mosi) == Disassembly(d.coproCommands, d.dlCommands, Literal(v, 8), v, v / 0x100_0000)
  {
    TrailingWordText(mosi, 3);
    if |mosi| >= 7 {
      WordBytes(mosi[3..7]);
    }
  }

  /** Write data is never empty: the hex string has at least one digit pair, and every rule of the disassembly yields a
      non-empty name. */
  lemma WriteDataNotEmpty(d: Dictionaries, tag: string, mosi: seq<byte>)
    requires WellFormed(d)
    requires |mosi| >= 4
    ensures |WriteData(d, tag, mosi)| > 0
  {
    var s := WriteValue(mosi).value;
    if |s| == 10 && IsDisassembled(tag) {
      DisassemblyNotEmpty(d.coproCommands, d.dlCommands, s, ParseInt16(s).value, mosi[6]);
    }
  }

  /** The precedence of the disassembly of a full word: a coprocessor command, then the vertex forms selected by the top
      two bits of byte 6, then a display-list opcode with its 24-bit operand, then the word itself. */
  lemma WriteDisassemblyPrecedence(d: Dictionaries, tag: string, mosi: seq<byte>)
    requires WellFormed(d)
    requires |mosi| >= 7 && IsDisassembled(tag)
    ensures var v := LeValue(mosi[3..7]);
            var r := WriteData(d, tag, mosi);
            && (v in d.coproCommands ==> r == d.coproCommands[v])
            && (mosi[6] / 0x40 == 1 ==> r == VERTEX2F + Format(Low30(v), 8))
            && (mosi[6] / 0x40 == 2 ==> r == VERTEX2II + Format(Low30(v), 8))
            && ((v !in d.coproCommands && mosi[6] / 0x40 != 1 && mosi[6] / 0x40 != 2 && TopByteMask(v) in d.dlCommands)
                  ==> r == d.dlCommands[TopByteMask(v)] + " + 0x" + Format(Low24(v), 6))
            && ((v !in d.coproCommands && mosi[6] / 0x40 != 1 && mosi[6] / 0x40 != 2 && TopByteMask(v) !in d.dlCommands)
                  ==> r == Literal(v, 8))
  {
    var v := LeValue(mosi[3..7]);
    WriteDataCases(d, tag, mosi);
    WordBytes(mosi[3..7]);
    assert mosi[6] / 0x40 == v / 0x4000_0000;
    DisassemblyOfWord(d.coproCommands, d.dlCommands, v);
  }

  /** The data shown for a read that returned no value. */
  const READ_ERROR: string := "READ_ERROR"

  /** `value_str or "READ_ERROR"` (line 457). */
  function ReadData(valueStr: Option<string>): (r: string)
    ensures r == READ_ERROR <==> valueStr.None? || valueStr.value in {"", READ_ERROR}
    ensures r != READ_ERROR ==> valueStr == Some(r)
  {
    if valueStr.None? || valueStr.value == "" then READ_ERROR else valueStr.value
  }

  // ---------------------------------------------------------------------------------------------
  // The transaction decoder (lines 387-460).
  // ---------------------------------------------------------------------------------------------

  /** What `decode` returns on 'disable' for the buffered bytes, the MISO buffer if it exists, and the recorded start time. */
  function Transaction(d: Dictionaries, mosiBuffer: seq<Timed>, misoBuffer: Option<seq<Timed>>, recorded: Option<Time>): Outcome
  {
    if |mosiBuffer| < 3 then NoFrame
    else
      var mosi := Values(mosiBuffer);
      var start := StartTime(recorded, mosiBuffer);
      var end := EndTime(mosiBuffer);
      if |mosi| == 3 then Emit(Frame(CommandName(d.commands, mosi[0]), start, end, NoFields))
      else
        var tag := AddressLabel(d, Address(mosi[0], mosi[1], mosi[2]));
        if IsWrite(mosi[0]) then Emit(Frame("WRITE " + tag, start, end, DataField(Some(WriteData(d, tag, mosi)))))
        else if |mosiBuffer| < 5 then NoFrame
        else
          match misoBuffer
          case None => Raise(AttributeError)
          case Some(miso) => Emit(Frame("READ " + tag, start, end, DataField(Some(ReadData(ReadResponse(Values(miso)))))))
  }

  /** No frame comes out exactly for fewer than three MOSI bytes and for a four-byte read. */
  lemma NoFrameCases(d: Dictionaries, mosiBuffer: seq<Timed>, misoBuffer: Option<seq<Timed>>, recorded: Option<Time>)
    ensures Transaction(d, mosiBuffer, misoBuffer, recorded) == NoFrame
            <==> |mosiBuffer| < 3 || (|mosiBuffer| == 4 && mosiBuffer[0].value < 0x80)
  {
  }

  /** Three bytes are a host command named by byte 0 alone: bytes 1 and 2 play no part. */
  lemma CommandFrame(d: Dictionaries, mosiBuffer: seq<Timed>, misoBuffer: Option<seq<Timed>>, recorded: Option<Time>)
    requires |mosiBuffer| == 3
    ensures Transaction(d, mosiBuffer, misoBuffer, recorded)
            == Emit(Frame(CommandName(d.commands, mosiBuffer[0].value), StartTime(recorded, mosiBuffer), EndTime(mosiBuffer), NoFields))
  {
  }

  /** Every write of four or more bytes emits a WRITE frame for the address of its first three bytes, and its data is never
      None: at least one data byte follows the address. */
  lemma WriteFrameHasData(d: Dictionaries, mosiBuffer: seq<Timed>, misoBuffer: Option<seq<Timed>>, recorded: Option<Time>)
    requires WellFormed(d)
    requires |mosiBuffer| >= 4 && mosiBuffer[0].value >= 0x80
    ensures var mosi := Values(mosiBuffer);
            var tag := AddressLabel(d, Address(mosi[0], mosi[1], mosi[2]));
            var out := Transaction(d, mosiBuffer, misoBuffer, recorded);
            && out.Emit? && out.frame.text == "WRITE " + tag
            && out.frame.start == StartTime(recorded, mosiBuffer) && out.frame.end == EndTime(mosiBuffer)
            && out.frame.fields.DataField? && out.frame.fields.data.Some?
            && |out.frame.fields.data.value| > 0
  {
    var mosi := Values(mosiBuffer);
    var tag := AddressLabel(d, Address(mosi[0], mosi[1], mosi[2]));
    WriteDataNotEmpty(d, tag, mosi);
  }

  /** A write that is not disassembled carries, when the n little-endian bytes of V follow the address, exactly V in 2n hex digits. */
  lemma PlainWriteRoundTrip(d: Dictionaries, mosiBuffer: seq<Timed>, misoBuffer: Option<seq<Timed>>, recorded: Option<Time>, v: nat)
    requires |mosiBuffer| >= 4 && mosiBuffer[0].value >= 0x80
    requires var n := if |mosiBuffer| >= 7 then 4 else |mosiBuffer| - 3;
             v < Pow256(n) && Values(mosiBuffer)[3..3 + n] == LeBytes(v, n)
    requires |mosiBuffer| < 7 || !IsDisassembled(AddressLabel(d, Address(mosiBuffer[0].value, mosiBuffer[1].value, mosiBuffer[2].value)))
    ensures var n := if |mosiBuffer| >= 7 then 4 else |mosiBuffer| - 3;
            var out := Transaction(d, mosiBuffer, misoBuffer, recorded);
            out.Emit? && out.frame.fields == DataField(Some(Literal(v, 2 * n)))
  {
    var mosi := Values(mosiBuffer);
    var n := if |mosi| >= 7 then 4 else |mosi| - 3;
    var tag := AddressLabel(d, Address(mosi[0], mosi[1], mosi[2]));
    assert mosi == mosi[..3] + LeBytes(v, n) + mosi[3 + n..];
    TrailingWordRoundTrip(mosi[..3], v, n, mosi[3 + n..]);
    WriteDataCases(d, tag, mosi);
  }

  /** A write of a full word to display-list RAM or REG_CMDB_WRITE carries the disassembly of that word. */
  lemma DisassembledWriteFrame(d: Dictionaries, mosiBuffer: seq<Timed>, misoBuffer: Option<seq<Timed>>, recorded: Option<Time>)
    requires |mosiBuffer| >= 7 && mosiBuffer[0].value >= 0x80
    requires IsDisassembled(AddressLabel(d, Address(mosiBuffer[0].value, mosiBuffer[1].value, mosiBuffer[2].value)))
    ensures var v := LeValue(Values(mosiBuffer)[3..7]);
            var out := Transaction(d, mosiBuffer, misoBuffer, recorded);
            && v < 0x1_0000_0000
            && out.Emit? && out.frame.fields == DataField(Some(Disassembly(d.coproCommands, d.dlCommands, Literal(v, 8), v, v / 0x100_0000)))
  {
    var mosi := Values(mosiBuffer);
    WriteDataCases(d, AddressLabel(d, Address(mosi[0], mosi[1], mosi[2])), mosi);
  }

  /** A read of five or more bytes raises AttributeError when the MISO buffer was never created; otherwise it carries the
      decoded MISO value, and READ_ERROR exactly when there are at most four MISO bytes. */
  lemma ReadFrame(d: Dictionaries, mosiBuffer: seq<Timed>, misoBuffer: Option<seq<Timed>>, recorded: Option<Time>)
    requires |mosiBuffer| >= 5 && mosiBuffer[0].value < 0x80
    ensures var mosi := Values(mosiBuffer);
            var tag := AddressLabel(d, Address(mosi[0], mosi[1], mosi[2]));
            var out := Transaction(d, mosiBuffer, misoBuffer, recorded);
            && (misoBuffer.None? ==> out == Raise(AttributeError))
            && (misoBuffer.Some? ==>
                  && out.Emit? && out.frame.text == "READ " + tag
                  && out.frame.start == StartTime(recorded, mosiBuffer) && out.frame.end == EndTime(mosiBuffer)
                  && out.frame.fields.DataField? && out.frame.fields.data.Some?
                  && (out.frame.fields.data.value == READ_ERROR <==> |misoBuffer.value| <= 4)
                  && (|misoBuffer.value| > 4 ==> out.frame.fields.data == ReadResponse(Values(misoBuffer.value))))
  {
    if misoBuffer.Some? && |misoBuffer.value| > 4 {
      TrailingWordText(Values(misoBuffer.value), 4);
      var s := ReadResponse(Values(misoBuffer.value)).value;
      assert s[0] != READ_ERROR[0];
    }
  }

  /** With one MISO byte per MOSI byte, as the analyzer buffers them, a read frame never shows READ_ERROR: it always
      carries the decoded value. */
  lemma ReadErrorUnreachable(d: Dictionaries, mosiBuffer: seq<Timed>, miso: seq<Timed>, recorded: Option<Time>)
    requires |mosiBuffer| >= 5 && mosiBuffer[0].value < 0x80 && |miso| == |mosiBuffer|
    ensures var out := Transaction(d, mosiBuffer, Some(miso), recorded);
            && out.Emit? && out.frame.fields.DataField?
            && out.frame.fields.data == ReadResponse(Values(miso)) && out.frame.fields.data != Some(READ_ERROR)
  {
    ReadFrame(d, mosiBuffer, Some(miso), recorded);
  }

  // ---------------------------------------------------------------------------------------------
  // The analyzer object (lines 354-460): the buffers of the open window and its start time.
  // ---------------------------------------------------------------------------------------------

  class Hla {
    /** The module-level dictionaries the decoder consults. */
    const dictionaries: Dictionaries
    var mosiBuffer: seq<Timed>
    /** None until the first 'enable' creates the attribute. */
    var misoBuffer: Option<seq<Timed>>
    var startTime: Option<Time>

    /** Once the MISO buffer exists, one byte pair is buffered per transfer, so the two buffers have the same length. */
    ghost predicate Valid()
      reads this
    {
      misoBuffer.Some? ==> |mosiBuffer| == |misoBuffer.value|
    }

    /** `__init__` (lines 361-363): creates the MOSI buffer and the start time, but no MISO buffer. */
    constructor ()
      ensures Valid() && dictionaries == EVE
      ensures mosiBuffer == [] && misoBuffer == None && startTime == None
    {
      dictionaries := EVE;
      mosiBuffer := [];
      misoBuffer := None;
      startTime := None;
    }

    /** `decode` (lines 365-460): 'enable' opens a window, 'result' buffers a byte pair, 'disable' decodes the window.
        A byte pair arriving before any 'enable' is appended to the MOSI buffer, and then appending to the missing MISO
        buffer raises. */
    method Decode(event: Event) returns (out: Outcome)
      requires Valid()
      modifies this
      ensures Valid()
      ensures event.Enable? ==>
                out == NoFrame && mosiBuffer == [] && misoBuffer == Some([]) && startTime == Some(event.start)
      ensures event.Transfer? ==>
                && startTime == old(startTime)
                && if event.mosi.Some? && event.miso.Some? then
                     && mosiBuffer == old(mosiBuffer) + [Timed(event.start, event.end, event.mosi.value)]
                     && (old(misoBuffer).Some? ==>
                           && out == NoFrame
                           && misoBuffer == Some(old(misoBuffer).value + [Timed(event.start, event.end, event.miso.value)]))
                     && (old(misoBuffer).None? ==> out == Raise(AttributeError) && misoBuffer == None)
                   else
                     out == NoFrame && mosiBuffer == old(mosiBuffer) && misoBuffer == old(misoBuffer)
      ensures event.Disable? ==>
                out == Transaction(dictionaries, old(mosiBuffer), old(misoBuffer), old(startTime)) && unchanged(this)
      ensures event.Other? ==> out == NoFrame && unchanged(this)
    {
      match event
      case Enable(start) =>
        mosiBuffer := [];
        misoBuffer := Some([]);
        startTime := Some(start);
        out := NoFrame;
      case Transfer(start, end, mosi, miso) =>
        out := NoFrame;
        if mosi.Some? && miso.Some? {
          mosiBuffer := mosiBuffer + [Timed(start, end, mosi.value)];
          if misoBuffer.None? {
            return Raise(AttributeError);
          }
          misoBuffer := Some(misoBuffer.value + [Timed(start, end, miso.value)]);
        }
      case Disable =>
        out := Transaction(dictionaries, mosiBuffer, misoBuffer, startTime);
      case Other =>
        out := NoFrame;
    }
  }
}
