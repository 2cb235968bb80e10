# Saleae high-level analyzers for Bridgetek EVE display controllers, in Dafny

The repository holds two Saleae Logic "high level analyzers". They turn a captured SPI
bus between a host and a Bridgetek EVE display controller into one annotated frame per
transaction. A transaction is the run of bytes between chip select asserted ('enable') and
released ('disable').

- `EmbeddedVideoEngine5` decodes the BT82x.
  - Five zero bytes are the ACTIVE heartbeat.
  - Five bytes starting 0xFF, 0xEx are a host command.
  - Four or more bytes are a read or a write of a 31-bit address.
  - Read data follows the first 0x01 sync byte on MISO and is 1, 2 or 4 bytes long.
  - Write data is the little-endian word at bytes 4-7.
- `EmbeddedVideoEngine` decodes the FT81x/BT81x.
  - Three bytes are a host command.
  - Four or more bytes access a 22-bit address.
  - Read data is up to four MISO bytes after the address and the dummy byte.
  - Write data is up to four bytes after the address.

Both decoders label an address in one of three ways:

- as an offset into display-list RAM;
- by its register name;
- by the address itself in hex.

A write to display-list RAM or to REG_CMDB_WRITE is disassembled when it carries a full 32-bit
word. The disassembly takes, in order of precedence:

1. the coprocessor command whose code is the word;
2. otherwise the display-list instruction named by the word's top byte;
3. overriding that, the two vertex forms, selected by the top two bits of the word's most significant byte.

Modules:

- `Options`, `Bytes`, `Hex`: Python's `None`, little-endian and shift-accumulated integers, `{v:0wX}` formatting and `int(s, 16)`.
- `Frames`: the host's events and the output frame, as values.
- `Tables`: `Every`, a property of every entry of a map.
- `Labels`: the host-command name and the address label both decoders build.
- `Disassembler`: the disassembly chain both decoders share.
- `Eve5Tables`, `EveTables`: each file's lookup tables as map literals, and the key and name shapes the rules rely on.
- `EmbeddedVideoEngine5`, `EmbeddedVideoEngine`: one module per source file.
  - Payload decoders, classifier and transaction decoder.
  - The analyzer class `Hla`, whose `Decode` updates the buffers in place.

How the model is set up:

- The decoding rules take the dictionaries as a parameter `d`.
  - `Hla` binds it to the file's own tables (`EVE5`, `EVE`).
  - `Eve5WellFormed` and `EveWellFormed` prove that those tables have the shape (`WellFormed`) the rule lemmas assume.
- The BT82x loops are methods proved against functions:
  - the sync-byte read decoder;
  - the in-place byte reversal;
  - the shift-and-or accumulation.
- Python exceptions are outcomes, `Raise(TypeError)` and `Raise(AttributeError)`.

## Model

| member | source | states |
|---|---|---|
| Bytes.BeValueOfReversed | EmbeddedVideoEngine5/EmbeddedVideoEngine5.py:435-438 | reversing the bytes and accumulating them with a shift-and-or loop gives their little-endian value |
| Bytes.WordBytes | EmbeddedVideoEngine5/EmbeddedVideoEngine5.py:563-566 | in a 4-byte little-endian word the last byte is the top byte `value >> 24`; the low 24 bits are the first three bytes |
| Hex.ParseFormat | EmbeddedVideoEngine5/EmbeddedVideoEngine5.py:552 | `int(s, 16)` reads back the value `f"0x{v:0wX}"` was made from, for every width |
| Hex.FormatWidth | EmbeddedVideoEngine5/EmbeddedVideoEngine5.py:440 | a value below 16^w is formatted with exactly w digits |
| Disassembler.VertexDisjoint | EmbeddedVideoEngine5/EmbeddedVideoEngine5.py:558-567 | a word with top bits 01 or 10 is neither a coprocessor command nor a display-list opcode key of well-formed tables |
| Disassembler.DisassemblyOfWord | EmbeddedVideoEngine5/EmbeddedVideoEngine5.py:553-567 | precedence: coprocessor command, then VERTEX2F/VERTEX2II on the low 30 bits, then "NAME + 0x%06X" of the opcode, else the word in 8 digits |
| Labels.UnknownCommandName | EmbeddedVideoEngine5/EmbeddedVideoEngine5.py:521-522 | an unknown host command is "UNKNOWN_CMD (0xNN)" with its code readable from the two digits (also EmbeddedVideoEngine.py lines 397-398) |
| Labels.WindowOffsetLabel | EmbeddedVideoEngine5/EmbeddedVideoEngine5.py:539-541 | an address in the display-list RAM window is "RAM-DL+0x" plus its offset in exactly 4 digits, which read back |
| Labels.OutsideWindowLabel | EmbeddedVideoEngine5/EmbeddedVideoEngine5.py:542-543 | outside the window: the register name, else the address in 8 digits that read back; never a RAM-DL label |
| Eve5Tables.RegisterNames | EmbeddedVideoEngine5/EmbeddedVideoEngine5.py:46-204 | every register name starts with "REG_"; REG_CMDB_WRITE and REG_BOOT_STATUS name only their own address |
| Eve5Tables.DlKeys | EmbeddedVideoEngine5/EmbeddedVideoEngine5.py:206-259 | every display-list key is an opcode of at most 0x34 in the top byte with a zero operand, and its name is not empty |
| Eve5Tables.CoproKeys | EmbeddedVideoEngine5/EmbeddedVideoEngine5.py:261-380 | every coprocessor key is 0xFFFFFFxx and its name starts with 'C' |
| Eve5Tables.BootStatusTexts | EmbeddedVideoEngine5/EmbeddedVideoEngine5.py:382-407 | no boot-status text is empty or "READ_ERROR" |
| Eve5Tables.NamedRegisters | EmbeddedVideoEngine5/EmbeddedVideoEngine5.py:46-204 | REG_CMDB_WRITE is 0x7F010000 and REG_BOOT_STATUS is 0x7F80044C in the table |
| Eve5Tables.Eve5WellFormed | EmbeddedVideoEngine5/EmbeddedVideoEngine5.py:33-407 | the BT82x dictionaries have every shape the decoding lemmas assume |
| EmbeddedVideoEngine5.IndexOf | EmbeddedVideoEngine5/EmbeddedVideoEngine5.py:417-420 | `list.index`: None exactly when the byte is absent, else the first position holding it |
| EmbeddedVideoEngine5.IndexOfFirst | EmbeddedVideoEngine5/EmbeddedVideoEngine5.py:418 | the first occurrence is the position found |
| EmbeddedVideoEngine5.ReadLength | EmbeddedVideoEngine5/EmbeddedVideoEngine5.py:425-433 | the chosen length never exceeds what is available and is 0 only when nothing is |
| EmbeddedVideoEngine5.ReadPayload | EmbeddedVideoEngine5/EmbeddedVideoEngine5.py:415-435 | None exactly when MISO holds no 0x01 or its first 0x01 is the last byte; otherwise 1, 2 or 4 bytes |
| EmbeddedVideoEngine5.ReadPayloadAfterFirstSync | EmbeddedVideoEngine5/EmbeddedVideoEngine5.py:422-435 | the payload is the 4, else 2, else 1 bytes right after the first sync byte |
| EmbeddedVideoEngine5.ReadResponseText | EmbeddedVideoEngine5/EmbeddedVideoEngine5.py:435-440 | the text is "0x" and exactly 2 uppercase digits per byte, and reads back as the payload's little-endian value, below 256^length |
| EmbeddedVideoEngine5.Accumulate | EmbeddedVideoEngine5/EmbeddedVideoEngine5.py:436-438 | the loop's value is the bytes read most significant first |
| EmbeddedVideoEngine5.DecodeReadResponse | EmbeddedVideoEngine5/EmbeddedVideoEngine5.py:409-440 | the method returns the specified read response |
| EmbeddedVideoEngine5.WriteWord | EmbeddedVideoEngine5/EmbeddedVideoEngine5.py:453-472 | None exactly when the buffer is shorter than 8+4n; otherwise 10 characters, "0x", reading back as the little-endian word at 4+4n |
| EmbeddedVideoEngine5.WriteWordRoundTrip | EmbeddedVideoEngine5/EmbeddedVideoEngine5.py:454-472 | placing the little-endian bytes of V at the word's position decodes to V in 8 digits |
| EmbeddedVideoEngine5.ReverseInPlace | EmbeddedVideoEngine5/EmbeddedVideoEngine5.py:464 | the array afterwards holds its old contents reversed |
| EmbeddedVideoEngine5.DecodeWrite | EmbeddedVideoEngine5/EmbeddedVideoEngine5.py:442-472 | the method returns the specified write word |
| EmbeddedVideoEngine5.Address | EmbeddedVideoEngine5/EmbeddedVideoEngine5.py:527-532 | the address is below 2^31 and its bytes are b3, b2, b1 and b0 without bit 7 |
| EmbeddedVideoEngine5.NamedRegisterLabels | EmbeddedVideoEngine5/EmbeddedVideoEngine5.py:538-543 | the label is REG_CMDB_WRITE (REG_BOOT_STATUS) exactly for its one address |
| EmbeddedVideoEngine5.AddressLabelClasses | EmbeddedVideoEngine5/EmbeddedVideoEngine5.py:538-543 | a label starts "RAM-DL+0x" iff 0x7F008000 <= addr <= 0x7F00BFFF; the offset and unnamed address read back |
| EmbeddedVideoEngine5.WriteDataCases | EmbeddedVideoEngine5/EmbeddedVideoEngine5.py:547-571 | other labels carry decode_write's result, None included; disassembled ones raise TypeError without a word, else carry its disassembly |
| EmbeddedVideoEngine5.ReadDataCases | EmbeddedVideoEngine5/EmbeddedVideoEngine5.py:573-582 | READ_ERROR exactly when no value was decoded; else the value, through BOOT_STATUS for REG_BOOT_STATUS |
| EmbeddedVideoEngine5.DecodeTransaction | EmbeddedVideoEngine5/EmbeddedVideoEngine5.py:507-584 | the method returns the specified transaction outcome |
| EmbeddedVideoEngine5.NoFrameWhenShort | EmbeddedVideoEngine5/EmbeddedVideoEngine5.py:508-526 | no frame exactly for fewer than four MOSI bytes |
| EmbeddedVideoEngine5.ActiveFrame | EmbeddedVideoEngine5/EmbeddedVideoEngine5.py:516-517 | five zero bytes give ACTIVE with no data, ahead of the read path |
| EmbeddedVideoEngine5.HostCommandFrame | EmbeddedVideoEngine5/EmbeddedVideoEngine5.py:520-523 | five bytes 0xFF 0xEx give the command name of byte 1 with no data |
| EmbeddedVideoEngine5.AccessFrame | EmbeddedVideoEngine5/EmbeddedVideoEngine5.py:526-545 | other frames are "READ"/"WRITE" + label by bit 7; a write fails only as a short disassembled one |
| EmbeddedVideoEngine5.ReadFrame | EmbeddedVideoEngine5/EmbeddedVideoEngine5.py:573-582 | a read frame always has data: READ_ERROR iff no value, boot-status text for REG_BOOT_STATUS codes |
| EmbeddedVideoEngine5.WriteFrame | EmbeddedVideoEngine5/EmbeddedVideoEngine5.py:547-571 | a write emits "WRITE " + label with its write data, or raises what rendering raised |
| EmbeddedVideoEngine5.PlainWriteRoundTrip | EmbeddedVideoEngine5/EmbeddedVideoEngine5.py:547-571 | a non-disassembled write of the little-endian bytes of V carries V in 8 digits |
| EmbeddedVideoEngine5.DisassembledWriteFrame | EmbeddedVideoEngine5/EmbeddedVideoEngine5.py:549-571 | a full-word write to RAM-DL or REG_CMDB_WRITE carries the disassembly of its word |
| EmbeddedVideoEngine5.ShortDisassembledWriteRaises | EmbeddedVideoEngine5/EmbeddedVideoEngine5.py:549-552 | a 4-7 byte write to RAM-DL or REG_CMDB_WRITE raises TypeError |
| EmbeddedVideoEngine5.Hla.constructor | EmbeddedVideoEngine5/EmbeddedVideoEngine5.py:480-483 | both buffers empty, no start time |
| EmbeddedVideoEngine5.Hla.Decode | EmbeddedVideoEngine5/EmbeddedVideoEngine5.py:485-584 | enable empties both buffers and records the start; a transfer with both bytes appends one entry to each, else nothing; disable decodes and changes nothing; buffers stay equal in length |
| EveTables.RegisterNames | EmbeddedVideoEngine/EmbeddedVideoEngine.py:46-158 | every register name starts with "REG_"; REG_CMDB_WRITE names only its own address |
| EveTables.DlKeys | EmbeddedVideoEngine/EmbeddedVideoEngine.py:160-209 | every display-list key has a top byte of at most 0x34 and a zero operand, and its name is not empty |
| EveTables.CoproKeys | EmbeddedVideoEngine/EmbeddedVideoEngine.py:211-312 | every coprocessor key is 0xFFFFFFxx and its name starts with 'C' |
| EveTables.NamedRegisters | EmbeddedVideoEngine/EmbeddedVideoEngine.py:46-158 | REG_CMDB_WRITE is 0x302578 in the table |
| EveTables.EveWellFormed | EmbeddedVideoEngine/EmbeddedVideoEngine.py:33-312 | the FT81x/BT81x dictionaries have every shape the decoding lemmas assume |
| EmbeddedVideoEngine.TrailingBytes | EmbeddedVideoEngine/EmbeddedVideoEngine.py:321-329 | None exactly when nothing follows the skipped bytes; else the next min(4, rest) bytes |
| EmbeddedVideoEngine.TrailingWord | EmbeddedVideoEngine/EmbeddedVideoEngine.py:319-332 | the text has 2 digits per data byte after "0x" and reads back as their little-endian value |
| EmbeddedVideoEngine.ReadResponse | EmbeddedVideoEngine/EmbeddedVideoEngine.py:314-332 | None exactly when there are at most 4 MISO bytes |
| EmbeddedVideoEngine.WriteValue | EmbeddedVideoEngine/EmbeddedVideoEngine.py:334-352 | None exactly when there are at most 3 MOSI bytes |
| EmbeddedVideoEngine.TrailingWordText | EmbeddedVideoEngine/EmbeddedVideoEngine.py:328-332 | width 2·min(4, rest) uppercase digits, parsing to the value, below 256^count |
| EmbeddedVideoEngine.TrailingWordPrefix | EmbeddedVideoEngine/EmbeddedVideoEngine.py:328-329 | inputs agreeing on the first skip+4 bytes decode alike |
| EmbeddedVideoEngine.WriteValueIgnoresTail | EmbeddedVideoEngine/EmbeddedVideoEngine.py:348-352 | bytes beyond index 6 never affect the write data |
| EmbeddedVideoEngine.ReadResponseIgnoresTail | EmbeddedVideoEngine/EmbeddedVideoEngine.py:328-332 | MISO bytes beyond index 7 never affect the read value |
| EmbeddedVideoEngine.TrailingWordRoundTrip | EmbeddedVideoEngine/EmbeddedVideoEngine.py:331-332 | n little-endian bytes of V after the header decode to V in 2n digits |
| EmbeddedVideoEngine.Address | EmbeddedVideoEngine/EmbeddedVideoEngine.py:403-408 | the address is below 2^22 and its bytes are b2, b1 and b0 & 0x3F |
| EmbeddedVideoEngine.AddressInjective | EmbeddedVideoEngine/EmbeddedVideoEngine.py:403-408 | two headers give the same address iff they agree on b1, b2 and b0's low six bits: bit 6 is ignored |
| EmbeddedVideoEngine.AddressLabelClasses | EmbeddedVideoEngine/EmbeddedVideoEngine.py:413-418 | "RAM-DL+0x" iff 0x300000 <= addr <= 0x301FFF; REG_CMDB_WRITE for exactly 0x302578; disassembled labels are exactly those |
| EmbeddedVideoEngine.WriteDataCases | EmbeddedVideoEngine/EmbeddedVideoEngine.py:424-443 | short or non-disassembled writes carry decode_write_data's string; a full word to RAM-DL/REG_CMDB_WRITE its disassembly |
| EmbeddedVideoEngine.WriteDataNotEmpty | EmbeddedVideoEngine/EmbeddedVideoEngine.py:422-447 | write data is never empty |
| EmbeddedVideoEngine.WriteDisassemblyPrecedence | EmbeddedVideoEngine/EmbeddedVideoEngine.py:427-443 | coprocessor hit, then byte 6 top bits 01/10 for the vertex forms, then the opcode's "NAME + 0x%06X", else the word |
| EmbeddedVideoEngine.ReadData | EmbeddedVideoEngine/EmbeddedVideoEngine.py:456-458 | READ_ERROR exactly when the value is None or empty or READ_ERROR itself; otherwise the value |
| EmbeddedVideoEngine.NoFrameCases | EmbeddedVideoEngine/EmbeddedVideoEngine.py:387-460 | no frame exactly for fewer than three MOSI bytes and for a four-byte read |
| EmbeddedVideoEngine.CommandFrame | EmbeddedVideoEngine/EmbeddedVideoEngine.py:396-399 | three bytes give the name of byte 0 with no data |
| EmbeddedVideoEngine.WriteFrameHasData | EmbeddedVideoEngine/EmbeddedVideoEngine.py:422-447 | every write frame is "WRITE " + label with non-None, non-empty data |
| EmbeddedVideoEngine.PlainWriteRoundTrip | EmbeddedVideoEngine/EmbeddedVideoEngine.py:422-447 | a non-disassembled write of n little-endian bytes of V carries V in 2n digits |
| EmbeddedVideoEngine.DisassembledWriteFrame | EmbeddedVideoEngine/EmbeddedVideoEngine.py:426-447 | a full-word write to RAM-DL or REG_CMDB_WRITE carries the disassembly of bytes 3-6 |
| EmbeddedVideoEngine.ReadFrame | EmbeddedVideoEngine/EmbeddedVideoEngine.py:449-458 | missing MISO buffer raises AttributeError; else READ_ERROR iff at most four MISO bytes, otherwise the decoded value |
| EmbeddedVideoEngine.ReadErrorUnreachable | EmbeddedVideoEngine/EmbeddedVideoEngine.py:449-458 | with equal-length buffers a read frame never shows READ_ERROR |
| EmbeddedVideoEngine.Hla.constructor | EmbeddedVideoEngine/EmbeddedVideoEngine.py:361-363 | empty MOSI buffer, no MISO buffer, no start time |
| EmbeddedVideoEngine.Hla.Decode | EmbeddedVideoEngine/EmbeddedVideoEngine.py:365-460 | enable resets both buffers; a transfer appends to MOSI, then to MISO or raises AttributeError when it is missing; disable decodes and changes nothing |

## Left out

- `result_types` in both files is display templates for the host; the decoders never evaluate them.
- The host classes are replaced by values.
  - `HighLevelAnalyzer`, `AnalyzerFrame` and the `saleae.analyzers` import are not part of this model.
  - An event carries only the first byte of `frame.data['mosi']` / `['miso']`.
  - An empty byte string there, on which `raw_mosi[0]` raises IndexError, is not modelled.
- `frame_start_time or buffer[0][0]` is modelled as an `Option` fallback. A recorded start time that Python treats as false (zero) is taken as recorded.
- `int(s, 16)` is modelled only on hex-digit strings with an optional `0x` prefix. Python also accepts underscores and surrounding whitespace, but the decoders never produce them.
- The lookup tables are written as unions of 16-entry blocks of the same entries in source order. No source table repeats a key, so the union is the table.
- The decoding rules take the tables as a parameter. The analyzer binds them to the file's tables, and the proofs hold for any tables of the same shape.
- `EmbeddedVideoEngine5.WriteWord` models `decode_write`'s `number` parameter for every word, but the decoder only uses word 0.
- Behaviour of the code that the model keeps as it is:
  - Closing a window does not clear the buffers; only the next 'enable' does.
  - A 4-7 byte BT82x write to RAM-DL or REG_CMDB_WRITE raises TypeError (`ShortDisassembledWriteRaises`).
  - In the FT81x/BT81x decoder, a transfer carrying both bytes, or a read of five or more MOSI bytes, before the first 'enable' raises AttributeError (`Hla.Decode`, `ReadFrame`).
  - A four-byte FT81x/BT81x read gives no frame (`NoFrameCases`).
