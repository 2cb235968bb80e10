/**
  The disassembler both decoders apply to a 32-bit word written to display-list RAM or to
  REG_CMDB_WRITE (EmbeddedVideoEngine5/EmbeddedVideoEngine5.py lines 553-567 and
  EmbeddedVideoEngine/EmbeddedVideoEngine.py lines 427-443 are the same chain): an exact
  coprocessor-command match wins; otherwise a display-list opcode is looked up by the word's
  top byte; the vertex patterns in the top two bits of the word's most significant byte then
  override the display-list rendering.
*/
module Disassembler {
  import opened Bytes
  import opened Hex
  import opened Tables

  const RAM_DL_NAME: string := "RAM-DL+"
  const RAM_DL_PREFIX: string := "RAM-DL+0x"
  const VERTEX2F: string := "'DL_VERTEX2F' + 0x"
  const VERTEX2II: string := "'DL_VERTEX2II' + 0x"

  /** A coprocessor command word is 0xFFFFFFxx, and its name starts with 'C' ("CMD_..."). */
  predicate IsCoproEntry(k: nat, name: string)
  {
    k / 0x100_0000 == 0xFF && k < 0x1_0000_0000 && name != [] && name[0] == 'C'
  }

  /** A display-list key is an opcode of at most 0x34 in the top byte with a zero operand; its name is not empty. */
  predicate IsDlEntry(k: nat, name: string)
  {
    k % 0x100_0000 == 0 && k / 0x100_0000 <= 0x34 && name != []
  }

  /** Writes whose word is disassembled: to display-list RAM or to REG_CMDB_WRITE. */
  predicate IsDisassembled(tag: string)
  {
    StartsWith(tag, RAM_DL_PREFIX) || tag == "REG_CMDB_WRITE"
  }

  /** The chain, given the decoded string `valueStr`, its value `value` and the raw MOSI byte `msb` that holds the
      word's top byte: `copro.get(value, valueStr)`; if that is not `valueStr` it is the result; otherwise the
      display-list name of `value & 0xFF000000` with the low 24 bits, and then the vertex forms on the low 30 bits
      when `msb & 0xC0` is 0x40 or 0x80. */
  function Disassembly(copro: map<nat, string>, dl: map<nat, string>, valueStr: string, value: nat, msb: byte): string
  {
    var cmdName := if value in copro then copro[value] else valueStr;
    if cmdName != valueStr then cmdName
    else
      var key := TopByteMask(value);
      var dlText := if key in dl && dl[key] != "" then dl[key] + " + 0x" + Format(Low24(value), 6) else valueStr;
      var vertex2f := if msb / 0x40 == 1 then VERTEX2F + Format(Low30(value), 8) else dlText;
      if msb / 0x40 == 2 then VERTEX2II + Format(Low30(value), 8) else vertex2f
  }

  /** The chain never yields an empty text from a non-empty one: every name it may substitute is non-empty. */
  lemma DisassemblyNotEmpty(copro: map<nat, string>, dl: map<nat, string>, valueStr: string, value: nat, msb: byte)
    requires Every(copro, IsCoproEntry) && valueStr != []
    ensures Disassembly(copro, dl, valueStr, value, msb) != []
  {
    EveryAt(copro, IsCoproEntry, value);
  }

  /** The vertex patterns never coincide with a table hit, so the override only ever replaces the raw hex. */
  lemma VertexDisjoint(copro: map<nat, string>, dl: map<nat, string>, v: nat)
    requires Every(copro, IsCoproEntry) && Every(dl, IsDlEntry)
    requires v < 0x1_0000_0000 && (v / 0x4000_0000 == 1 || v / 0x4000_0000 == 2)
    ensures v !in copro && TopByteMask(v) !in dl
  {
    EveryAt(copro, IsCoproEntry, v);
    EveryAt(dl, IsDlEntry, TopByteMask(v));
    assert TopByteMask(v) / 0x100_0000 == v / 0x100_0000;
  }

  /** The disassembly of a 32-bit word, rule by rule in order of precedence: a coprocessor command, the two vertex
      forms, a display-list opcode with its 24-bit operand, and otherwise the word itself in 8 hex digits. */
  lemma DisassemblyOfWord(copro: map<nat, string>, dl: map<nat, string>, v: nat)
    requires Every(copro, IsCoproEntry) && Every(dl, IsDlEntry)
    requires v < 0x1_0000_0000
    ensures var r := Disassembly(copro, dl, Literal(v, 8), v, v / 0x100_0000);
            && (v in copro ==> r == copro[v])
            && (v / 0x4000_0000 == 1 ==> r == VERTEX2F + Format(Low30(v), 8))
            && (v / 0x4000_0000 == 2 ==> r == VERTEX2II + Format(Low30(v), 8))
            && ((v !in copro && v / 0x4000_0000 != 1 && v / 0x4000_0000 != 2 && TopByteMask(v) in dl)
                  ==> r == dl[TopByteMask(v)] + " + 0x" + Format(Low24(v), 6))
            && ((v !in copro && v / 0x4000_0000 != 1 && v / 0x4000_0000 != 2 && TopByteMask(v) !in dl)
                  ==> r == Literal(v, 8))
  {
    var s := Literal(v, 8);
    var msb: byte := v / 0x100_0000;
    assert msb / 0x40 == v / 0x4000_0000;
    EveryAt(copro, IsCoproEntry, v);
    EveryAt(dl, IsDlEntry, TopByteMask(v));
    assert v in copro ==> copro[v][0] != s[0];
    if v / 0x4000_0000 == 1 || v / 0x4000_0000 == 2 {
      VertexDisjoint(copro, dl, v);
    }
  }
}
