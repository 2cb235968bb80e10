/**
  The frame labels both decoders build the same way: a host command's name
  (EmbeddedVideoEngine5/EmbeddedVideoEngine5.py lines 521-522, EmbeddedVideoEngine/EmbeddedVideoEngine.py
  lines 397-398) and an address's label (lines 539-543 and 414-418 respectively), which is an offset into
  the display-list RAM window, a register name, or the address in 8 hex digits. The two chips differ only
  in the window's bounds and in the tables.
*/
module Labels {
  import opened Options
  import opened Bytes
  import opened Hex
  import opened Tables
  import opened Disassembler

  const UNKNOWN_CMD: string := "UNKNOWN_CMD ("

  /** `COMMANDS.get(cmd, f"UNKNOWN_CMD (0x{cmd:02X})")`. */
  function CommandName(commands: map<byte, string>, cmd: byte): string
  {
    if cmd in commands then commands[cmd] else UNKNOWN_CMD + Literal(cmd, 2) + ")"
  }

  /** An unknown host command is named by its code in two hex digits, which can be read back. */
  lemma UnknownCommandName(commands: map<byte, string>, cmd: byte)
    requires cmd !in commands
    ensures var name := CommandName(commands, cmd);
            |name| == 18 && name[..13] == UNKNOWN_CMD && name[17] == ')' && ParseInt16(name[13..17]) == Some(cmd as nat)
  {
    FormatWidth(cmd, 2);
    ParseFormat(cmd, 2);
    var name := CommandName(commands, cmd);
    assert name[13..17] == Literal(cmd, 2);
  }

  /** The label of `addr` when display-list RAM spans `base..last`: "RAM-DL+0x" and the offset in 4 hex
      digits inside the window, else the register name, else the address in 8 hex digits. */
  function WindowLabel(registers: map<nat, string>, base: nat, last: nat, addr: nat): string
  {
    if base <= addr <= last then RAM_DL_NAME + Literal(addr - base, 4)
    else if addr in registers then registers[addr]
    else Literal(addr, 8)
  }

  /** An address in a window of at most 64 KiB is labelled with its offset in exactly 4 hex digits, which read back. */
  lemma WindowOffsetLabel(registers: map<nat, string>, base: nat, last: nat, addr: nat)
    requires base <= addr <= last && last - base < 0x1_0000
    ensures var tag := WindowLabel(registers, base, last, addr);
            && StartsWith(tag, RAM_DL_PREFIX) && tag[1] == 'A'
            && |tag| == 13 && ParseInt16(tag[7..]) == Some(addr - base)
  {
    var off := addr - base;
    FormatWidth(off, 4);
    ParseFormat(off, 4);
    var lit := Literal(off, 4);
    var tag := RAM_DL_NAME + lit;
    assert tag[7..] == lit;
    assert tag[..9] == RAM_DL_NAME + lit[..2];
  }

  /** Outside the window a 32-bit address is labelled by its register name, or else by itself in 8 hex digits that
      read back; as long as register names start with "REG_", the label never looks like a window offset. */
  lemma OutsideWindowLabel(registers: map<nat, string>, base: nat, last: nat, addr: nat)
    requires !(base <= addr <= last) && addr < 0x1_0000_0000
    requires addr in registers ==> StartsWith(registers[addr], "REG_")
    ensures var tag := WindowLabel(registers, base, last, addr);
            && !StartsWith(tag, RAM_DL_PREFIX)
            && (addr in registers ==> tag == registers[addr])
            && (addr !in registers ==> |tag| == 10 && tag[1] == 'x' && ParseInt16(tag) == Some(addr))
  {
    if addr in registers {
      assert registers[addr][1] != RAM_DL_PREFIX[1];
    } else {
      FormatWidth(addr, 8);
      ParseFormat(addr, 8);
      assert Literal(addr, 8)[1] != RAM_DL_PREFIX[1];
    }
  }
}
