/**
  Model of the BT82x SPI decoder, EmbeddedVideoEngine5/EmbeddedVideoEngine5.py.

  A transaction is the run of bytes between chip select asserted and released. On release it is
  classified by its MOSI bytes: five zero bytes are the ACTIVE heartbeat, five bytes starting
  0xFF 0xEx are a host command, and four or more bytes are a memory access whose first four
  bytes carry a 31-bit address (bit 7 of byte 0 set for a write). A write's data is the
  little-endian word at bytes 4-7, disassembled as a coprocessor command or display-list
  instruction when it goes to display-list RAM or REG_CMDB_WRITE; a read's data is the 1, 2 or
  4 bytes after the first 0x01 sync byte on MISO.

  The decoding rules take the dictionaries as a parameter `d`; the analyzer object binds it to
  the chip's own tables, `Eve5Tables.EVE5`, and the rules' properties hold for any dictionaries
  of the same shape (`WellFormed`).
*/
module EmbeddedVideoEngine5 {
  import opened Options
  import opened Bytes
  import opened Hex
  import opened Frames
  import opened Tables
  import opened Eve5Tables
  import opened Disassembler
  import opened Labels

  // ---------------------------------------------------------------------------------------------
  // Payload decoders: decode_read_response (lines 409-440) and decode_write (lines 442-472).
  // ---------------------------------------------------------------------------------------------

  /** The sync byte that precedes read data on MISO. */
  const SYNC: byte := 0x01

  /** `s.index(x)`, with None where Python raises `ValueError`. */
  function IndexOf(s: seq<byte>, x: byte): (r: Option<nat>)
    ensures r.None? <==> x !in s
    ensures r.Some? ==> r.value < |s| && s[r.value] == x && x !in s[..r.value]
  {
    if s == [] then None
    else if s[0] == x then Some(0)
    else
      match IndexOf(s[1..], x)
      case None => None
      case Some(i) =>
        assert s[..i + 1] == [s[0]] + s[1..][..i];
        Some(i + 1)
  }

  /** The first occurrence is the one `IndexOf` finds. */
  lemma {:induction false} IndexOfFirst(s: seq<byte>, x: byte, i: nat)
    requires i < |s| && s[i] == x && x !in s[..i]
    ensures IndexOf(s, x) == Some(i)
  {
    if i > 0 {
      assert s[0] in s[..i];
      assert s[1..][..i - 1] == s[1..i];
      assert forall y :: y in s[1..i] ==> y in s[..i];
      IndexOfFirst(s[1..], x, i - 1);
    }
  }

  /** How many bytes after the sync byte are read: 4 if there are 4, else 2 if there are 2, else 1 if there is one (lines 426-433). */
  function ReadLength(available: nat): (n: nat)
    ensures n <= available
    ensures n == 0 <==> available == 0
  {
    if available >= 4 then 4 else if available >= 2 then 2 else if available >= 1 then 1 else 0
  }

  /** The bytes that decode_read_response decodes, or None when it returns None. */
  function ReadPayload(miso: seq<byte>): (p: Option<seq<byte>>)
    ensures p.None? <==> SYNC !in miso || (miso[|miso| - 1] == SYNC && SYNC !in miso[..|miso| - 1])
    ensures p.Some? ==> |p.value| == 1 || |p.value| == 2 || |p.value| == 4
  {
    match IndexOf(miso, SYNC)
    case None => None
    case Some(i) =>
      var data := miso[i + 1..];
      var n := ReadLength(|data|);
      if n == 0 then None else Some(data[..n])
  }

  /** decode_read_response on the MISO byte values: the payload as a little-endian number, in two hex digits per byte. */
  function ReadResponse(miso: seq<byte>): (r: Option<string>)
    ensures r.None? <==> ReadPayload(miso).None?
  {
    match ReadPayload(miso)
    case None => None
    case Some(p) => Some(Literal(LeValue(p), 2 * |p|))
  }

  /** The read payload is taken after the FIRST sync byte: 4 bytes when at least 4 follow it, else 2 when at least 2, else 1; none when it is the last byte. */
  lemma ReadPayloadAfterFirstSync(miso: seq<byte>, i: nat)
    requires i < |miso| && miso[i] == SYNC && SYNC !in miso[..i]
    ensures var rest := |miso| - (i + 1);
            ReadPayload(miso) == if rest == 0 then None
                                 else Some(miso[i + 1..i + 1 + (if rest >= 4 then 4 else if rest >= 2 then 2 else 1)])
  {
    IndexOfFirst(miso, SYNC, i);
    var data := miso[i + 1..];
    var n := ReadLength(|data|);
    assert data[..n] == miso[i + 1..i + 1 + n];
  }

  /** A decoded read is "0x" followed by exactly two uppercase hex digits per payload byte, and reads back as the
      little-endian value of the payload, which is below 256 to the power of its length. */
  lemma ReadResponseText(miso: seq<byte>)
    requires ReadPayload(miso).Some?
    ensures var p := ReadPayload(miso).value;
            var s := ReadResponse(miso).value;
            && |s| == 2 + 2 * |p| && s[..2] == "0x"
            && (forall j :: 2 <= j < |s| ==> s[j] in DIGITS)
            && ParseInt16(s) == Some(LeValue(p)) && LeValue(p) < Pow256(|p|)
  {
    var p := ReadPayload(miso).value;
    Pow256IsPow16(|p|);
    FormatWidth(LeValue(p), 2 * |p|);
    ParseFormat(LeValue(p), 2 * |p|);
  }

  /** The loop `for b in bytes: value = (value << 8) | b` of both payload decoders. */
  method Accumulate(bs: seq<byte>) returns (value: nat)
    ensures value == BeValue(bs)
  {
    value := 0;
    for i := 0 to |bs|
      invariant value == BeValue(bs[..i])
    {
      assert bs[..i + 1][..i] == bs[..i];
      value := value * 256 + bs[i];
    }
    assert bs[..|bs|] == bs;
  }

  /** decode_read_response (lines 409-440): finds the sync byte, reverses the payload and accumulates it most significant byte first. */
  method DecodeReadResponse(misoBuffer: seq<Timed>) returns (r: Option<string>)
    ensures r == ReadResponse(Values(misoBuffer))
  {
    var misoBytes := Values(misoBuffer);
    var syncIndex := IndexOf(misoBytes, SYNC);
    if syncIndex.None? {
      return None;
    }
    var dataBytes := misoBytes[syncIndex.value + 1..];
    var dataLen := |dataBytes|;
    var length: nat;
    if dataLen >= 4 {
      length := 4;
    } else if dataLen >= 2 {
      length := 2;
    } else if dataLen >= 1 {
      length := 1;
    } else {
      return None;
    }
    assert ReadPayload(misoBytes) == Some(dataBytes[..length]);
    var value := Accumulate(Reversed(dataBytes[..length]));
    BeValueOfReversed(dataBytes[..length]);
    r := Some(Literal(value, length * 2));
  }

  /** decode_write on the MOSI byte values: the `number`-th 32-bit word after the 4 address bytes, little-endian,
      in 8 hex digits; None when the buffer ends before the word does. */
  function WriteWord(mosi: seq<byte>, number: nat): (r: Option<string>)
    ensures r.None? <==> |mosi| < 8 + 4 * number
    ensures r.Some? ==> |r.value| == 10 && r.value[..2] == "0x"
    ensures r.Some? ==> ParseInt16(r.value) == Some(LeValue(mosi[4 + 4 * number..8 + 4 * number]))
  {
    var start := 4 + 4 * number;
    if |mosi| < start + 4 then None
    else
      var value := LeValue(mosi[start..start + 4]);
      Pow256IsPow16(4);
      FormatWidth(value, 8);
      ParseFormat(value, 8);
      Some(Literal(value, 8))
  }

  lemma WriteWordValue(mosi: seq<byte>, number: nat)
    requires |mosi| >= 8 + 4 * number
    ensures WriteWord(mosi, number) == Some(Literal(LeValue(mosi[4 + 4 * number..8 + 4 * number]), 8))
  {
  }

  /** Placing the little-endian bytes of a 32-bit V at the word's position makes decode_write return V in 8 hex digits. */
  lemma WriteWordRoundTrip(header: seq<byte>, v: nat, rest: seq<byte>, number: nat)
    requires |header| == 4 + 4 * number && v < 0x1_0000_0000
    ensures v < Pow256(4)
    ensures WriteWord(header + LeBytes(v, 4) + rest, number) == Some(Literal(v, 8))
  {
    var mosi := header + LeBytes(v, 4) + rest;
    assert mosi[4 + 4 * number..8 + 4 * number] == LeBytes(v, 4);
  }

  /** `word_bytes.reverse()` (line 464). */
  method ReverseInPlace(a: array<byte>)
    modifies a
    ensures a[..] == Reversed(old(a[..]))
  {
    var n, i := a.Length, 0;
    while i < n / 2
      invariant 0 <= i <= n / 2
      invariant forall k :: 0 <= k < i ==> a[k] == old(a[n - 1 - k]) && a[n - 1 - k] == old(a[k])
      invariant forall k :: i <= k < n - i ==> a[k] == old(a[k])
    {
      a[i], a[n - 1 - i] := a[n - 1 - i], a[i];
      i := i + 1;
    }
    assert forall k :: 0 <= k < n ==> a[k] == old(a[n - 1 - k]);
  }

  /** decode_write (lines 442-472): copies the word's four bytes, reverses them in place and accumulates them most significant byte first. */
  method DecodeWrite(mosiBuffer: seq<Timed>, number: nat) returns (r: Option<string>)
    ensures r == WriteWord(Values(mosiBuffer), number)
  {
    var startIndex := 4 + number * 4;
    var endIndex := startIndex + 4;
    if |mosiBuffer| < endIndex {
      return None;
    }
    var word := Values(mosiBuffer)[startIndex..endIndex];
    var wordBytes := new byte[4];
    forall k | 0 <= k < 4 {
      wordBytes[k] := word[k];
    }
    assert wordBytes[..] == word;
    ReverseInPlace(wordBytes);
    var value := Accumulate(wordBytes[..]);
    BeValueOfReversed(word);
    WriteWordValue(Values(mosiBuffer), number);
    r := Some(Literal(value, 8));
  }


  // ---------------------------------------------------------------------------------------------
  // Classifier (lines 515-545).
  // ---------------------------------------------------------------------------------------------

  /** Case 1 (line 516): exactly five bytes, all zero. */
  predicate IsActive(mosi: seq<byte>)
  {
    |mosi| == 5 && forall b :: b in mosi ==> b == 0
  }

  /** Case 2 (line 520): exactly five bytes, 0xFF then a byte whose top nibble is 0xE (`b & 0xF0 == 0xE0`). */
  predicate IsHostCommand(mosi: seq<byte>)
  {
    |mosi| == 5 && mosi[0] == 0xFF && mosi[1] / 0x10 == 0xE
  }

  /** The 31-bit address `(b0 & 0x7F) << 24 | b1 << 16 | b2 << 8 | b3`; the fields do not overlap, so `|` adds.
      Its four bytes, least significant first, are b3, b2, b1 and b0 without bit 7. */
  function Address(b0: byte, b1: byte, b2: byte, b3: byte): (addr: nat)
    ensures addr < 0x8000_0000
    ensures addr % 0x100 == b3 && addr / 0x100 % 0x100 == b2 && addr / 0x100 / 0x100 % 0x100 == b1
    ensures addr / 0x100 / 0x100 / 0x100 == b0 % 0x80
  {
    var top: byte := b0 % 0x80;
    ShiftIn(top, b1);
    ShiftIn(top * 0x100 + b1, b2);
    ShiftIn((top * 0x100 + b1) * 0x100 + b2, b3);
    ((top * 0x100 + b1) * 0x100 + b2) * 0x100 + b3
  }

  /** `(b0 & 0x80) != 0`. */
  predicate IsWrite(b0: byte)
  {
    b0 >= 0x80
  }

  /** The display-list RAM window, inclusive. */
  const RAM_DL: nat := 0x7F00_8000
  const RAM_DL_LAST: nat := 0x7F00_BFFF

  predicate InRamDl(addr: nat)
  {
    RAM_DL <= addr <= RAM_DL_LAST
  }

  /** Lines 539-543: the offset into display-list RAM, the register name, or the address in 8 hex digits. */
  function AddressLabel(d: Dictionaries, addr: nat): string
  {
    WindowLabel(d.registers, RAM_DL, RAM_DL_LAST, addr)
  }

  /** REG_CMDB_WRITE and REG_BOOT_STATUS each label exactly one address. */
  lemma NamedRegisterLabels(d: Dictionaries, addr: nat)
    requires WellFormed(d)
    requires addr < 0x8000_0000
    ensures AddressLabel(d, addr) == "REG_CMDB_WRITE" <==> addr == REG_CMDB_WRITE_ADDR
    ensures AddressLabel(d, addr) == "REG_BOOT_STATUS" <==> addr == REG_BOOT_STATUS_ADDR
  {
    if InRamDl(addr) {
      WindowOffsetLabel(d.registers, RAM_DL, RAM_DL_LAST, addr);
    } else {
      EveryAt(d.registers, IsRegisterEntry, addr);
      OutsideWindowLabel(d.registers, RAM_DL, RAM_DL_LAST, addr);
    }
  }

  /** A label names display-list RAM exactly for the addresses of the window and then carries the offset in 4 hex
      digits; REG_CMDB_WRITE and REG_BOOT_STATUS each label one address; an unnamed address is itself in 8 hex digits. */
  lemma AddressLabelClasses(d: Dictionaries, addr: nat)
    requires WellFormed(d)
    requires addr < 0x8000_0000
    ensures StartsWith(AddressLabel(d, addr), RAM_DL_PREFIX) <==> InRamDl(addr)
    ensures InRamDl(addr) ==> |AddressLabel(d, addr)| == 13 && ParseInt16(AddressLabel(d, addr)[7..]) == Some(addr - RAM_DL)
    ensures !InRamDl(addr) && addr !in d.registers ==> |AddressLabel(d, addr)| == 10 && ParseInt16(AddressLabel(d, addr)) == Some(addr)
    ensures AddressLabel(d, addr) == "REG_CMDB_WRITE" <==> addr == REG_CMDB_WRITE_ADDR
    ensures AddressLabel(d, addr) == "REG_BOOT_STATUS" <==> addr == REG_BOOT_STATUS_ADDR
  {
    NamedRegisterLabels(d, addr);
    if InRamDl(addr) {
      WindowOffsetLabel(d.registers, RAM_DL, RAM_DL_LAST, addr);
    } else {
      EveryAt(d.registers, IsRegisterEntry, addr);
      OutsideWindowLabel(d.registers, RAM_DL, RAM_DL_LAST, addr);
    }
  }

  // ---------------------------------------------------------------------------------------------
  // Disassembler (lines 547-581).
  // ---------------------------------------------------------------------------------------------

  /** Lines 549-567 after decode_write: `int(value_str, 16)` raises TypeError when there was no word. */
  function RenderWrite(d: Dictionaries, tag: string, valueStr: Option<string>, mosi: seq<byte>): Result<Option<string>, PyError>
    requires valueStr == WriteWord(mosi, 0)
  {
    if IsDisassembled(tag) then
      match valueStr
      case None => Err(TypeError)
      case Some(s) => Ok(Some(Disassembly(d.coproCommands, d.dlCommands, s, ParseInt16(s).value, mosi[7])))
    else Ok(valueStr)
  }

  /** The data of a write frame. */
  function WriteData(d: Dictionaries, tag: string, mosi: seq<byte>): Result<Option<string>, PyError>
  {
    RenderWrite(d, tag, WriteWord(mosi, 0), mosi)
  }

  /** A write outside display-list RAM and REG_CMDB_WRITE carries decode_write's string unchanged, None included; a
      disassembled one raises TypeError without a full word and otherwise carries the disassembly of the word at bytes 4-7. */
  lemma WriteDataCases(d: Dictionaries, tag: string, mosi: seq<byte>)
    ensures !IsDisassembled(tag) ==> WriteData(d, tag, mosi) == Ok(WriteWord(mosi, 0))
    ensures IsDisassembled(tag) && |mosi| < 8 ==> WriteData(d, tag, mosi) == Err(TypeError)
    ensures IsDisassembled(tag) && |mosi| >= 8 ==>
              var v := LeValue(mosi[4..8]);
              v < 0x1_0000_0000 && WriteData(d, tag, mosi) == Ok(Some(Disassembly(d.coproCommands, d.dlCommands, Literal(v, 8), v, v / 0x100_0000)))
  {
    if |mosi| >= 8 {
      WordBytes(mosi[4..8]);
    }
  }

  /** Lines 577-581 after decode_read_response: the boot-status text for REG_BOOT_STATUS, and READ_ERROR for no value. */
  function ReadData(d: Dictionaries, tag: string, valueStr: Option<string>): string
  {
    var shown :=
      if tag == "REG_BOOT_STATUS" && valueStr.Some? && valueStr.value in d.bootStatus
      then Some(d.bootStatus[valueStr.value])
      else valueStr;
    if shown.None? || shown.value == "" then READ_ERROR else shown.value
  }

  /** A read frame shows READ_ERROR exactly when decode_read_response found no value; otherwise the value, translated
      through BOOT_STATUS for REG_BOOT_STATUS when it is a key. */
  lemma ReadDataCases(d: Dictionaries, tag: string, miso: seq<byte>)
    requires WellFormed(d)
    ensures ReadData(d, tag, ReadResponse(miso)) == READ_ERROR <==> ReadResponse(miso).None?
    ensures ReadResponse(miso).Some? ==>
              var s := ReadResponse(miso).value;
              ReadData(d, tag, ReadResponse(miso)) == if tag == "REG_BOOT_STATUS" && s in d.bootStatus then d.bootStatus[s] else s
  {
    if ReadPayload(miso).Some? {
      ReadResponseText(miso);
      var s := ReadResponse(miso).value;
      EveryAt(d.bootStatus, IsBootStatusEntry, s);
      assert s[0] != READ_ERROR[0];
    }
  }

  // ---------------------------------------------------------------------------------------------
  // The transaction decoder (lines 507-584).
  // ---------------------------------------------------------------------------------------------

  /** What `decode` returns on 'disable' for the buffered bytes and the recorded start time. */
  function Transaction(d: Dictionaries, mosiBuffer: seq<Timed>, misoBuffer: seq<Timed>, recorded: Option<Time>): Outcome
  {
    if mosiBuffer == [] then NoFrame
    else
      var mosi := Values(mosiBuffer);
      var start := StartTime(recorded, mosiBuffer);
      var end := EndTime(mosiBuffer);
      if IsActive(mosi) then Emit(Frame("ACTIVE", start, end, NoFields))
      else if IsHostCommand(mosi) then Emit(Frame(CommandName(d.commands, mosi[1]), start, end, NoFields))
      else if |mosi| >= 4 then
        var tag := AddressLabel(d, Address(mosi[0], mosi[1], mosi[2], mosi[3]));
        if IsWrite(mosi[0]) then
          match WriteData(d, tag, mosi)
          case Err(e) => Raise(e)
          case Ok(data) => Emit(Frame("WRITE " + tag, start, end, DataField(data)))
        else
          Emit(Frame("READ " + tag, start, end, DataField(Some(ReadData(d, tag, ReadResponse(Values(misoBuffer)))))))
      else NoFrame
  }

  /** Lines 507-584, calling the two payload decoders. */
  method DecodeTransaction(d: Dictionaries, mosiBuffer: seq<Timed>, misoBuffer: seq<Timed>, recorded: Option<Time>)
    returns (out: Outcome)
    ensures out == Transaction(d, mosiBuffer, misoBuffer, recorded)
  {
    if mosiBuffer == [] {
      return NoFrame;
    }
    var mosi := Values(mosiBuffer);
    var start := StartTime(recorded, mosiBuffer);
    var end := EndTime(mosiBuffer);
    if IsActive(mosi) {
      return Emit(Frame("ACTIVE", start, end, NoFields));
    }
    if IsHostCommand(mosi) {
      return Emit(Frame(CommandName(d.commands, mosi[1]), start, end, NoFields));
    }
    if |mosi| >= 4 {
      var tag := AddressLabel(d, Address(mosi[0], mosi[1], mosi[2], mosi[3]));
      if IsWrite(mosi[0]) {
        var valueStr := DecodeWrite(mosiBuffer, 0);
        match RenderWrite(d, tag, valueStr, mosi)
        case Err(e) => out := Raise(e);
        case Ok(data) => out := Emit(Frame("WRITE " + tag, start, end, DataField(data)));
      } else {
        var valueStr := DecodeReadResponse(misoBuffer);
        out := Emit(Frame("READ " + tag, start, end, DataField(Some(ReadData(d, tag, valueStr)))));
      }
      return;
    }
    return NoFrame;
  }

  /** A transaction yields no frame exactly when it has fewer than four MOSI bytes. */
  lemma NoFrameWhenShort(d: Dictionaries, mosiBuffer: seq<Timed>, misoBuffer: seq<Timed>, recorded: Option<Time>)
    ensures Transaction(d, mosiBuffer, misoBuffer, recorded) == NoFrame <==> |mosiBuffer| < 4
  {
    if |mosiBuffer| >= 4 {
      var mosi := Values(mosiBuffer);
      var tag := AddressLabel(d, Address(mosi[0], mosi[1], mosi[2], mosi[3]));
      if IsWrite(mosi[0]) && !IsActive(mosi) && !IsHostCommand(mosi) {
        match WriteData(d, tag, mosi)
        case Err(e) =>
        case Ok(data) =>
      }
    }
  }

  /** Five zero bytes are the ACTIVE heartbeat, checked before the read/write path that would read address 0. */
  lemma ActiveFrame(d: Dictionaries, mosiBuffer: seq<Timed>, misoBuffer: seq<Timed>, recorded: Option<Time>)
    requires |mosiBuffer| == 5 && forall i :: 0 <= i < 5 ==> mosiBuffer[i].value == 0
    ensures Transaction(d, mosiBuffer, misoBuffer, recorded)
            == Emit(Frame("ACTIVE", StartTime(recorded, mosiBuffer), EndTime(mosiBuffer), NoFields))
  {
    assert IsActive(Values(mosiBuffer));
  }

  /** Five bytes 0xFF, 0xEx, ... are a host command named from the table, or UNKNOWN_CMD with the code. */
  lemma HostCommandFrame(d: Dictionaries, mosiBuffer: seq<Timed>, misoBuffer: seq<Timed>, recorded: Option<Time>)
    requires |mosiBuffer| == 5 && mosiBuffer[0].value == 0xFF && mosiBuffer[1].value / 0x10 == 0xE
    ensures Transaction(d, mosiBuffer, misoBuffer, recorded)
            == Emit(Frame(CommandName(d.commands, mosiBuffer[1].value), StartTime(recorded, mosiBuffer), EndTime(mosiBuffer), NoFields))
  {
    assert !IsActive(Values(mosiBuffer)) by {
      assert Values(mosiBuffer)[0] in Values(mosiBuffer);
    }
  }

  /** Any other transaction of four or more bytes is a read or a write of the address in its first four bytes,
      labelled with the operation that bit 7 of byte 0 selects; a write fails only when its word is to be
      disassembled and is missing. */
  lemma AccessFrame(d: Dictionaries, mosiBuffer: seq<Timed>, misoBuffer: seq<Timed>, recorded: Option<Time>)
    requires |mosiBuffer| >= 4
    requires !IsActive(Values(mosiBuffer)) && !IsHostCommand(Values(mosiBuffer))
    ensures var mosi := Values(mosiBuffer);
            var tag := AddressLabel(d, Address(mosi[0], mosi[1], mosi[2], mosi[3]));
            var out := Transaction(d, mosiBuffer, misoBuffer, recorded);
            && (mosi[0] < 0x80 ==> out.Emit? && out.frame.text == "READ " + tag)
            && (mosi[0] >= 0x80 && out.Emit? ==> out.frame.text == "WRITE " + tag)
            && (mosi[0] >= 0x80 && !out.Emit? ==> IsDisassembled(tag) && |mosi| < 8 && out == Raise(TypeError))
            && (out.Emit? ==> out.frame.start == StartTime(recorded, mosiBuffer) && out.frame.end == EndTime(mosiBuffer))
  {
    var mosi := Values(mosiBuffer);
    var tag := AddressLabel(d, Address(mosi[0], mosi[1], mosi[2], mosi[3]));
    WriteDataCases(d, tag, mosi);
  }

  /** A read frame carries the decoded MISO value, READ_ERROR exactly when there is none, and the boot-status text
      for a read of REG_BOOT_STATUS that returned one of its codes. */
  lemma ReadFrame(d: Dictionaries, mosiBuffer: seq<Timed>, misoBuffer: seq<Timed>, recorded: Option<Time>)
    requires WellFormed(d)
    requires |mosiBuffer| >= 4 && mosiBuffer[0].value < 0x80 && !IsActive(Values(mosiBuffer))
    ensures var mosi := Values(mosiBuffer);
            var addr := Address(mosi[0], mosi[1], mosi[2], mosi[3]);
            var response := ReadResponse(Values(misoBuffer));
            var out := Transaction(d, mosiBuffer, misoBuffer, recorded);
            && out.Emit? && out.frame.fields.DataField? && out.frame.fields.data.Some?
            && (out.frame.fields.data.value == READ_ERROR <==> response.None?)
            && (response.Some? && addr != REG_BOOT_STATUS_ADDR ==> out.frame.fields.data == response)
            && ((response.Some? && addr == REG_BOOT_STATUS_ADDR && response.value in d.bootStatus)
                  ==> out.frame.fields.data == Some(d.bootStatus[response.value]))
  {
    var mosi := Values(mosiBuffer);
    var addr := Address(mosi[0], mosi[1], mosi[2], mosi[3]);
    AddressLabelClasses(d, addr);
    ReadDataCases(d, AddressLabel(d, addr), Values(misoBuffer));
  }

  /** A write of four or more bytes that is not a host command emits a WRITE frame with the write data, or raises what rendering it raised. */
  lemma WriteFrame(d: Dictionaries, mosiBuffer: seq<Timed>, misoBuffer: seq<Timed>, recorded: Option<Time>)
    requires |mosiBuffer| >= 4 && mosiBuffer[0].value >= 0x80 && !IsHostCommand(Values(mosiBuffer))
    ensures var mosi := Values(mosiBuffer);
            var tag := AddressLabel(d, Address(mosi[0], mosi[1], mosi[2], mosi[3]));
            var data := WriteData(d, tag, mosi);
            Transaction(d, mosiBuffer, misoBuffer, recorded)
              == if data.Err? then Raise(data.error)
                 else Emit(Frame("WRITE " + tag, StartTime(recorded, mosiBuffer), EndTime(mosiBuffer), DataField(data.value)))
  {
    var mosi := Values(mosiBuffer);
    assert !IsActive(mosi) by { assert mosi[0] in mosi; }
  }

  /** A write that is not disassembled carries, when the little-endian bytes of V follow the address, exactly V in 8 hex digits. */
  lemma PlainWriteRoundTrip(d: Dictionaries, mosiBuffer: seq<Timed>, misoBuffer: seq<Timed>, recorded: Option<Time>, v: nat)
    requires |mosiBuffer| >= 8 && mosiBuffer[0].value >= 0x80 && v < 0x1_0000_0000
    requires Values(mosiBuffer)[4..8] == LeBytes(v, 4)
    requires !IsDisassembled(AddressLabel(d, Address(mosiBuffer[0].value, mosiBuffer[1].value, mosiBuffer[2].value, mosiBuffer[3].value)))
    ensures var out := Transaction(d, mosiBuffer, misoBuffer, recorded);
            out.Emit? && out.frame.fields == DataField(Some(Literal(v, 8)))
  {
    var mosi := Values(mosiBuffer);
    var tag := AddressLabel(d, Address(mosi[0], mosi[1], mosi[2], mosi[3]));
    assert !IsHostCommand(mosi);
    assert LeValue(mosi[4..8]) == v;
    PlainWriteData(d, tag, mosi, v);
    WriteFrame(d, mosiBuffer, misoBuffer, recorded);
  }

  lemma PlainWriteData(d: Dictionaries, tag: string, mosi: seq<byte>, v: nat)
    requires |mosi| >= 8 && !IsDisassembled(tag) && LeValue(mosi[4..8]) == v
    ensures WriteData(d, tag, mosi) == Ok(Some(Literal(v, 8)))
  {
    WriteWordValue(mosi, 0);
  }

  /** A write to display-list RAM or REG_CMDB_WRITE with its word present carries the disassembly of that word. */
  lemma DisassembledWriteFrame(d: Dictionaries, mosiBuffer: seq<Timed>, misoBuffer: seq<Timed>, recorded: Option<Time>)
    requires |mosiBuffer| >= 8 && mosiBuffer[0].value >= 0x80
    requires IsDisassembled(AddressLabel(d, Address(mosiBuffer[0].value, mosiBuffer[1].value, mosiBuffer[2].value, mosiBuffer[3].value)))
    ensures var v := LeValue(Values(mosiBuffer)[4..8]);
            var out := Transaction(d, mosiBuffer, misoBuffer, recorded);
            && v < 0x1_0000_0000
            && out.Emit? && out.frame.fields == DataField(Some(Disassembly(d.coproCommands, d.dlCommands, Literal(v, 8), v, v / 0x100_0000)))
  {
    var mosi := Values(mosiBuffer);
    var tag := AddressLabel(d, Address(mosi[0], mosi[1], mosi[2], mosi[3]));
    WriteDataCases(d, tag, mosi);
    WriteFrame(d, mosiBuffer, misoBuffer, recorded);
  }

  /** A write of four to seven bytes to display-list RAM or REG_CMDB_WRITE raises TypeError instead of emitting a frame:
      there is no word for `int(value_str, 16)` to read. */
  lemma ShortDisassembledWriteRaises(d: Dictionaries, mosiBuffer: seq<Timed>, misoBuffer: seq<Timed>, recorded: Option<Time>)
    requires WellFormed(d)
    requires 4 <= |mosiBuffer| < 8 && mosiBuffer[0].value >= 0x80 && !IsHostCommand(Values(mosiBuffer))
    requires var addr := Address(mosiBuffer[0].value, mosiBuffer[1].value, mosiBuffer[2].value, mosiBuffer[3].value);
             InRamDl(addr) || addr == REG_CMDB_WRITE_ADDR
    ensures Transaction(d, mosiBuffer, misoBuffer, recorded) == Raise(TypeError)
  {
    var mosi := Values(mosiBuffer);
    var addr := Address(mosi[0], mosi[1], mosi[2], mosi[3]);
    AddressLabelClasses(d, addr);
    WriteDataCases(d, AddressLabel(d, addr), mosi);
    WriteFrame(d, mosiBuffer, misoBuffer, recorded);
  }

  // ---------------------------------------------------------------------------------------------
  // The analyzer object (lines 474-505): the buffers of the open window and its start time.
  // ---------------------------------------------------------------------------------------------

  class Hla {
    /** The module-level dictionaries the decoder consults. */
    const dictionaries: Dictionaries
    var mosiBuffer: seq<Timed>
    var misoBuffer: seq<Timed>
    var startTime: Option<Time>

    /** One byte pair is buffered per transfer, so the two buffers always have the same length. */
    ghost predicate Valid()
      reads this
    {
      |mosiBuffer| == |misoBuffer|
    }

    /** `__init__` (lines 480-483). */
    constructor ()
      ensures Valid() && dictionaries == EVE5
      ensures mosiBuffer == [] && misoBuffer == [] && startTime == None
    {
      dictionaries := EVE5;
      mosiBuffer := [];
      misoBuffer := [];
      startTime := None;
    }

    /** `decode` (lines 485-584): 'enable' opens a window, 'result' buffers a byte pair, 'disable' decodes the window. */
    method Decode(event: Event) returns (out: Outcome)
      requires Valid()
      modifies this
      ensures Valid()
      ensures event.Enable? ==>
                out == NoFrame && mosiBuffer == [] && misoBuffer == [] && startTime == Some(event.start)
      ensures event.Transfer? ==>
                && out == NoFrame && startTime == old(startTime)
                && if event.mosi.Some? && event.miso.Some? then
                     && mosiBuffer == old(mosiBuffer) + [Timed(event.start, event.end, event.mosi.value)]
                     && misoBuffer == old(misoBuffer) + [Timed(event.start, event.end, event.miso.value)]
                   else
                     mosiBuffer == old(mosiBuffer) && misoBuffer == old(misoBuffer)
      ensures event.Disable? ==>
                out == Transaction(dictionaries, old(mosiBuffer), old(misoBuffer), old(startTime)) && unchanged(this)
      ensures event.Other? ==> out == NoFrame && unchanged(this)
    {
      match event
      case Enable(start) =>
        mosiBuffer := [];
        misoBuffer := [];
        startTime := Some(start);
        out := NoFrame;
      case Transfer(start, end, mosi, miso) =>
        if mosi.Some? && miso.Some? {
          mosiBuffer := mosiBuffer + [Timed(start, end, mosi.value)];
          misoBuffer := misoBuffer + [Timed(start, end, miso.value)];
        }
        out := NoFrame;
      case Disable =>
        out := DecodeTransaction(dictionaries, mosiBuffer, misoBuffer, startTime);
      case Other =>
        out := NoFrame;
    }
  }
}
