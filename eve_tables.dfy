/**
  The lookup tables of the FT81x/BT81x decoder, EmbeddedVideoEngine/EmbeddedVideoEngine.py, lines
  33-312, with the facts about their keys and names that the decoding rules rely on.

  A large table is the union of blocks of 16 entries in source order; no key occurs twice in a
  source table, so the union is the table. A property of every entry is proved block by block.
*/
module EveTables {
  import opened Bytes
  import opened Tables
  import opened Disassembler

  const REG_CMDB_WRITE_ADDR: nat := 0x30_2578

  /** Register names start with "REG_"; REG_CMDB_WRITE names one address. */
  predicate IsRegisterEntry(k: nat, name: string)
  {
    && StartsWith(name, "REG_")
    && (name == "REG_CMDB_WRITE" ==> k == REG_CMDB_WRITE_ADDR)
  }

  const COMMANDS: map<byte, string> := map[
    0x00 := "ACTIVE",
    0x41 := "STANDBY",
    0x42 := "SLEEP",
    0x44 := "CLKEXT",
    0x48 := "CLKINT",
    0x50 := "PWRDOWN",
    0x61 := "CLKSEL",
    0x68 := "RST_PULSE",
    0x70 := "PINDRIVE",
    0x71 := "PIN_PD_STATE"
  ]

  const REGISTERS_0: map<nat, string> := map[
    0x30_2000 := "REG_ID",
    0x30_2004 := "REG_FRAMES",
    0x30_2008 := "REG_CLOCK",
    0x30_200C := "REG_FREQUENCY",
    0x30_2010 := "REG_RENDERMODE",
    0x30_2014 := "REG_SNAPY",
    0x30_2018 := "REG_SNAPSHOT",
    0x30_201C := "REG_SNAPFORMAT",
    0x30_2020 := "REG_CPURESET",
    0x30_2024 := "REG_TAP_CRC",
    0x30_2028 := "REG_TAP_MASK",
    0x30_202C := "REG_HCYCLE",
    0x30_2030 := "REG_HOFFSET",
    0x30_2034 := "REG_HSIZE",
    0x30_2038 := "REG_HSYNC0",
    0x30_203C := "REG_HSYNC1"
  ]

  const REGISTERS_1: map<nat, string> := map[
    0x30_2040 := "REG_VCYCLE",
    0x30_2044 := "REG_VOFFSET",
    0x30_2048 := "REG_VSIZE",
    0x30_204C := "REG_VSYNC0",
    0x30_2050 := "REG_VSYNC1",
    0x30_2054 := "REG_DLSWAP",
    0x30_2058 := "REG_ROTATE",
    0x30_205C := "REG_OUTBITS",
    0x30_2060 := "REG_DITHER",
    0x30_2064 := "REG_SWIZZLE",
    0x30_2068 := "REG_CSPREAD",
    0x30_206C := "REG_PCLK_POL",
    0x30_2070 := "REG_PCLK",
    0x30_2074 := "REG_TAG_X",
    0x30_2078 := "REG_TAG_Y",
    0x30_207C := "REG_TAG"
  ]

  const REGISTERS_2: map<nat, string> := map[
    0x30_2080 := "REG_VOL_PB",
    0x30_2084 := "REG_VOL_SOUND",
    0x30_2088 := "REG_SOUND",
    0x30_208C := "REG_PLAY",
    0x30_2090 := "REG_GPIO_DIR",
    0x30_2094 := "REG_GPIO",
    0x30_2098 := "REG_GPIOX_DIR",
    0x30_209C := "REG_GPIOX",
    0x30_20A8 := "REG_INT_FLAGS",
    0x30_20AC := "REG_INT_EN",
    0x30_20B0 := "REG_INT_MASK",
    0x30_20B4 := "REG_PLAYBACK_START",
    0x30_20B8 := "REG_PLAYBACK_LENGTH",
    0x30_20BC := "REG_PLAYBACK_READPTR",
    0x30_20C0 := "REG_PLAYBACK_FREQ",
    0x30_20C4 := "REG_PLAYBACK_FORMAT"
  ]

  const REGISTERS_3: map<nat, string> := map[
    0x30_20C8 := "REG_PLAYBACK_LOOP",
    0x30_20CC := "REG_PLAYBACK_PLAY",
    0x30_20D0 := "REG_PWM_HZ",
    0x30_20D4 := "REG_PWM_DUTY",
    0x30_20D8 := "REG_MACRO_0",
    0x30_20DC := "REG_MACRO_1",
    0x30_20F8 := "REG_CMD_READ",
    0x30_20FC := "REG_CMD_WRITE",
    0x30_2100 := "REG_CMD_DL",
    0x30_2104 := "REG_TOUCH_MODE",
    0x30_2108 := "REG_TOUCH_ADC_MODE",
    0x30_210C := "REG_TOUCH_CHARGE",
    0x30_2110 := "REG_TOUCH_SETTLE",
    0x30_2114 := "REG_TOUCH_OVERSAMPLE",
    0x30_2118 := "REG_TOUCH_RZTHRESH",
    0x30_211C := "REG_TOUCH_RAW_XY"
  ]

  const REGISTERS_4: map<nat, string> := map[
    0x30_2120 := "REG_TOUCH_RZ",
    0x30_2124 := "REG_TOUCH_SCREEN_XY",
    0x30_2128 := "REG_TOUCH_TAG_XY",
    0x30_212C := "REG_TOUCH_TAG",
    0x30_2130 := "REG_TOUCH_TAG1_XY",
    0x30_2134 := "REG_TOUCH_TAG1",
    0x30_2138 := "REG_TOUCH_TAG2_XY",
    0x30_213C := "REG_TOUCH_TAG2",
    0x30_2140 := "REG_TOUCH_TAG3_XY",
    0x30_2144 := "REG_TOUCH_TAG3",
    0x30_2148 := "REG_TOUCH_TAG4_XY",
    0x30_214C := "REG_TOUCH_TAG4",
    0x30_2150 := "REG_TOUCH_TRANSFORM_A",
    0x30_2154 := "REG_TOUCH_TRANSFORM_B",
    0x30_2158 := "REG_TOUCH_TRANSFORM_C",
    0x30_215C := "REG_TOUCH_TRANSFORM_D"
  ]

  const REGISTERS_5: map<nat, string> := map[
    0x30_2160 := "REG_TOUCH_TRANSFORM_E",
    0x30_2164 := "REG_TOUCH_TRANSFORM_F",
    0x30_2168 := "REG_TOUCH_CONFIG",
    0x30_216C := "REG_CTOUCH_TOUCH4_X",
    0x30_2174 := "REG_BIST_EN",
    0x30_2180 := "REG_TRIM",
    0x30_2184 := "REG_ANA_COMP",
    0x30_2188 := "REG_SPI_WIDTH",
    0x30_218C := "REG_TOUCH_DIRECT_XY",
    0x30_2190 := "REG_TOUCH_DIRECT_Z1Z2",
    0x30_2564 := "REG_DATESTAMP",
    0x30_2574 := "REG_CMDB_SPACE",
    0x30_2578 := "REG_CMDB_WRITE",
    0x30_257C := "REG_ADAPTIVE_FRAMERATE",
    0x30_25EC := "REG_PLAYBACK_PAUSE",
    0x30_25F0 := "REG_FLASH_STATUS"
  ]

  const REGISTERS_6: map<nat, string> := map[
    0x30_260C := "REG_UNDERRUN",
    0x30_2610 := "REG_AH_HCYCLE_MAX",
    0x30_2614 := "REG_PCLK_FREQ",
    0x30_2618 := "REG_PCLK_2X",
    0x30_9000 := "REG_TRACKER",
    0x30_9004 := "REG_TRACKER_1",
    0x30_9008 := "REG_TRACKER_2",
    0x30_900C := "REG_TRACKER_3",
    0x30_9010 := "REG_TRACKER_4",
    0x30_9014 := "REG_MEDIAFIFO_READ",
    0x30_9018 := "REG_MEDIAFIFO_WRITE",
    0x30_9024 := "REG_FLASH_SIZE",
    0x30_902C := "REG_ANIM_ACTIVE",
    0x30_914E := "REG_PLAY_CONTROL",
    0x30_9162 := "REG_COPRO_PATCH_PTR"
  ]

  const REGISTERS: map<nat, string> := REGISTERS_0 + REGISTERS_1 + REGISTERS_2 + REGISTERS_3 + REGISTERS_4 + REGISTERS_5 + REGISTERS_6

  const DL_COMMANDS_0: map<nat, string> := map[
    0x0 := "DL_DISPLAY",
    0x100_0000 := "DL_BITMAP_SOURCE",
    0x200_0000 := "DL_CLEAR_COLOR_RGB",
    0x300_0000 := "DL_TAG",
    0x400_0000 := "DL_COLOR_RGB",
    0x500_0000 := "DL_BITMAP_HANDLE",
    0x600_0000 := "DL_CELL",
    0x700_0000 := "DL_BITMAP_LAYOUT",
    0x800_0000 := "DL_BITMAP_SIZE",
    0x900_0000 := "DL_ALPHA_FUNC",
    0xA00_0000 := "DL_STENCIL_FUNC",
    0xB00_0000 := "DL_BLEND_FUNC",
    0xC00_0000 := "DL_STENCIL_OP",
    0xD00_0000 := "DL_POINT_SIZE",
    0xE00_0000 := "DL_LINE_WIDTH",
    0xF00_0000 := "DL_CLEAR_COLOR_A"
  ]

  const DL_COMMANDS_1: map<nat, string> := map[
    0x1000_0000 := "DL_COLOR_A",
    0x1100_0000 := "DL_CLEAR_STENCIL",
    0x1200_0000 := "DL_CLEAR_TAG",
    0x1300_0000 := "DL_STENCIL_MASK",
    0x1400_0000 := "DL_TAG_MASK",
    0x1500_0000 := "DL_BITMAP_TRANSFORM_A",
    0x1600_0000 := "DL_BITMAP_TRANSFORM_B",
    0x1700_0000 := "DL_BITMAP_TRANSFORM_C",
    0x1800_0000 := "DL_BITMAP_TRANSFORM_D",
    0x1900_0000 := "DL_BITMAP_TRANSFORM_E",
    0x1A00_0000 := "DL_BITMAP_TRANSFORM_F",
    0x1B00_0000 := "DL_SCISSOR_XY",
    0x1C00_0000 := "DL_SCISSOR_SIZE",
    0x1D00_0000 := "DL_CALL",
    0x1E00_0000 := "DL_JUMP",
    0x1F00_0000 := "DL_BEGIN"
  ]

  const DL_COMMANDS_2: map<nat, string> := map[
    0x2000_0000 := "DL_COLOR_MASK",
    0x2100_0000 := "DL_END",
    0x2200_0000 := "DL_SAVE_CONTEXT",
    0x2300_0000 := "DL_RESTORE_CONTEXT",
    0x2400_0000 := "DL_RETURN",
    0x2500_0000 := "DL_MACRO",
    0x2600_0000 := "DL_CLEAR",
    0x2700_0000 := "DL_VERTEX_FORMAT",
    0x2800_0000 := "DL_BITMAP_LAYOUT_H",
    0x2900_0000 := "DL_BITMAP_SIZE_H",
    0x2A00_0000 := "DL_PALETTE_SOURCE",
    0x2B00_0000 := "DL_VERTEX_TRANSLATE_X",
    0x2C00_0000 := "DL_VERTEX_TRANSLATE_Y",
    0x2D00_0000 := "DL_NOP",
    0x2E00_0000 := "DL_BITMAP_EXT_FORMAT",
    0x2F00_0000 := "DL_BITMAP_SWIZZLE"
  ]

  const DL_COMMANDS: map<nat, string> := DL_COMMANDS_0 + DL_COMMANDS_1 + DL_COMMANDS_2

  const COPRO_COMMANDS_0: map<nat, string> := map[
    0xFFFF_FF1E := "CMD_APPEND",
    0xFFFF_FF09 := "CMD_BGCOLOR",
    0xFFFF_FF0D := "CMD_BUTTON",
    0xFFFF_FF15 := "CMD_CALIBRATE",
    0xFFFF_FF14 := "CMD_CLOCK",
    0xFFFF_FF32 := "CMD_COLDSTART",
    0xFFFF_FF2D := "CMD_DIAL",
    0xFFFF_FF00 := "CMD_DLSTART",
    0xFFFF_FF0A := "CMD_FGCOLOR",
    0xFFFF_FF13 := "CMD_GAUGE",
    0xFFFF_FF33 := "CMD_GETMATRIX",
    0xFFFF_FF25 := "CMD_GETPROPS",
    0xFFFF_FF23 := "CMD_GETPTR",
    0xFFFF_FF34 := "CMD_GRADCOLOR",
    0xFFFF_FF0B := "CMD_GRADIENT",
    0xFFFF_FF22 := "CMD_INFLATE"
  ]

  const COPRO_COMMANDS_1: map<nat, string> := map[
    0xFFFF_FF02 := "CMD_INTERRUPT",
    0xFFFF_FF0E := "CMD_KEYS",
    0xFFFF_FF26 := "CMD_LOADIDENTITY",
    0xFFFF_FF24 := "CMD_LOADIMAGE",
    0xFFFF_FF31 := "CMD_LOGO",
    0xFFFF_FF39 := "CMD_MEDIAFIFO",
    0xFFFF_FF1D := "CMD_MEMCPY",
    0xFFFF_FF18 := "CMD_MEMCRC",
    0xFFFF_FF1B := "CMD_MEMSET",
    0xFFFF_FF1A := "CMD_MEMWRITE",
    0xFFFF_FF1C := "CMD_MEMZERO",
    0xFFFF_FF2E := "CMD_NUMBER",
    0xFFFF_FF3A := "CMD_PLAYVIDEO",
    0xFFFF_FF0F := "CMD_PROGRESS",
    0xFFFF_FF19 := "CMD_REGREAD",
    0xFFFF_FF3F := "CMD_ROMFONT"
  ]

  const COPRO_COMMANDS_2: map<nat, string> := map[
    0xFFFF_FF29 := "CMD_ROTATE",
    0xFFFF_FF28 := "CMD_SCALE",
    0xFFFF_FF2F := "CMD_SCREENSAVER",
    0xFFFF_FF11 := "CMD_SCROLLBAR",
    0xFFFF_FF38 := "CMD_SETBASE",
    0xFFFF_FF43 := "CMD_SETBITMAP",
    0xFFFF_FF2B := "CMD_SETFONT",
    0xFFFF_FF3B := "CMD_SETFONT2",
    0xFFFF_FF2A := "CMD_SETMATRIX",
    0xFFFF_FF36 := "CMD_SETROTATE",
    0xFFFF_FF3C := "CMD_SETSCRATCH",
    0xFFFF_FF30 := "CMD_SKETCH",
    0xFFFF_FF10 := "CMD_SLIDER",
    0xFFFF_FF1F := "CMD_SNAPSHOT",
    0xFFFF_FF37 := "CMD_SNAPSHOT2",
    0xFFFF_FF16 := "CMD_SPINNER"
  ]

  const COPRO_COMMANDS_3: map<nat, string> := map[
    0xFFFF_FF17 := "CMD_STOP",
    0xFFFF_FF01 := "CMD_SWAP",
    0xFFFF_FF42 := "CMD_SYNC",
    0xFFFF_FF0C := "CMD_TEXT",
    0xFFFF_FF12 := "CMD_TOGGLE",
    0xFFFF_FF2C := "CMD_TRACK",
    0xFFFF_FF27 := "CMD_TRANSLATE",
    0xFFFF_FF41 := "CMD_VIDEOFRAME",
    0xFFFF_FF40 := "CMD_VIDEOSTART",
    0xFFFF_FF21 := "CMD_BITMAP_TRANSFORM",
    0xFFFF_FF44 := "CMD_FLASHERASE",
    0xFFFF_FF45 := "CMD_FLASHWRITE",
    0xFFFF_FF46 := "CMD_FLASHREAD",
    0xFFFF_FF47 := "CMD_FLASHUPDATE",
    0xFFFF_FF48 := "CMD_FLASHDETACH",
    0xFFFF_FF49 := "CMD_FLASHATTACH"
  ]

  const COPRO_COMMANDS_4: map<nat, string> := map[
    0xFFFF_FF4A := "CMD_FLASHFAST",
    0xFFFF_FF4B := "CMD_FLASHSPIDESEL",
    0xFFFF_FF4C := "CMD_FLASHSPITX",
    0xFFFF_FF4D := "CMD_FLASHSPIRX",
    0xFFFF_FF4E := "CMD_FLASHSOURCE",
    0xFFFF_FF4F := "CMD_CLEARCACHE",
    0xFFFF_FF50 := "CMD_INFLATE2",
    0xFFFF_FF51 := "CMD_ROTATEAROUND",
    0xFFFF_FF52 := "CMD_RESETFONTS",
    0xFFFF_FF53 := "CMD_ANIMSTART",
    0xFFFF_FF54 := "CMD_ANIMSTOP",
    0xFFFF_FF55 := "CMD_ANIMXY",
    0xFFFF_FF56 := "CMD_ANIMDRAW",
    0xFFFF_FF57 := "CMD_GRADIENTA",
    0xFFFF_FF58 := "CMD_FILLWIDTH",
    0xFFFF_FF59 := "CMD_APPENDF"
  ]

  const COPRO_COMMANDS_5: map<nat, string> := map[
    0xFFFF_FF5A := "CMD_ANIMFRAME",
    0xFFFF_FF5F := "CMD_VIDEOSTARTF",
    0xFFFF_FF6D := "CMD_ANIMFRAMERAM",
    0xFFFF_FF6E := "CMD_ANIMSTARTRAM",
    0xFFFF_FF63 := "CMD_APILEVEL",
    0xFFFF_FF60 := "CMD_CALIBRATESUB",
    0xFFFF_FF67 := "CMD_CALLLIST",
    0xFFFF_FF69 := "CMD_ENDLIST",
    0xFFFF_FF70 := "CMD_FLASHPROGRAM",
    0xFFFF_FF6B := "CMD_FONTCACHE",
    0xFFFF_FF6C := "CMD_FONTCACHEQUERY",
    0xFFFF_FF64 := "CMD_GETIMAGE",
    0xFFFF_FF62 := "CMD_HSF",
    0xFFFF_FF5E := "CMD_LINETIME",
    0xFFFF_FF68 := "CMD_NEWLIST",
    0xFFFF_FF6A := "CMD_PCLKFREQ"
  ]

  const COPRO_COMMANDS_6: map<nat, string> := map[
    0xFFFF_FF66 := "CMD_RETURN",
    0xFFFF_FF6F := "CMD_RUNANIM",
    0xFFFF_FF61 := "CMD_TESTCARD",
    0xFFFF_FF65 := "CMD_WAIT"
  ]

  const COPRO_COMMANDS: map<nat, string> := COPRO_COMMANDS_0 + COPRO_COMMANDS_1 + COPRO_COMMANDS_2 + COPRO_COMMANDS_3 + COPRO_COMMANDS_4 + COPRO_COMMANDS_5 + COPRO_COMMANDS_6
  lemma RegisterBlock0() ensures Every(REGISTERS_0, IsRegisterEntry) {}
  lemma RegisterBlock1() ensures Every(REGISTERS_1, IsRegisterEntry) {}
  lemma RegisterBlock2() ensures Every(REGISTERS_2, IsRegisterEntry) {}
  lemma RegisterBlock3() ensures Every(REGISTERS_3, IsRegisterEntry) {}
  lemma RegisterBlock4() ensures Every(REGISTERS_4, IsRegisterEntry) {}
  lemma RegisterBlock5() ensures Every(REGISTERS_5, IsRegisterEntry) {}
  lemma RegisterBlock6() ensures Every(REGISTERS_6, IsRegisterEntry) {}

  lemma RegisterNames()
    ensures Every(REGISTERS, IsRegisterEntry)
  {
    RegisterBlock0(); RegisterBlock1(); RegisterBlock2(); RegisterBlock3(); RegisterBlock4(); RegisterBlock5(); RegisterBlock6();
    EveryUnion(REGISTERS_0, REGISTERS_1, IsRegisterEntry);
    EveryUnion(REGISTERS_0 + REGISTERS_1, REGISTERS_2, IsRegisterEntry);
    EveryUnion(REGISTERS_0 + REGISTERS_1 + REGISTERS_2, REGISTERS_3, IsRegisterEntry);
    EveryUnion(REGISTERS_0 + REGISTERS_1 + REGISTERS_2 + REGISTERS_3, REGISTERS_4, IsRegisterEntry);
    EveryUnion(REGISTERS_0 + REGISTERS_1 + REGISTERS_2 + REGISTERS_3 + REGISTERS_4, REGISTERS_5, IsRegisterEntry);
    EveryUnion(REGISTERS_0 + REGISTERS_1 + REGISTERS_2 + REGISTERS_3 + REGISTERS_4 + REGISTERS_5, REGISTERS_6, IsRegisterEntry);
  }

  lemma DlBlock0() ensures Every(DL_COMMANDS_0, IsDlEntry) {}
  lemma DlBlock1() ensures Every(DL_COMMANDS_1, IsDlEntry) {}
  lemma DlBlock2() ensures Every(DL_COMMANDS_2, IsDlEntry) {}

  lemma DlKeys()
    ensures Every(DL_COMMANDS, IsDlEntry)
  {
    DlBlock0(); DlBlock1(); DlBlock2();
    EveryUnion(DL_COMMANDS_0, DL_COMMANDS_1, IsDlEntry);
    EveryUnion(DL_COMMANDS_0 + DL_COMMANDS_1, DL_COMMANDS_2, IsDlEntry);
  }

  lemma CoproBlock0() ensures Every(COPRO_COMMANDS_0, IsCoproEntry) {}
  lemma CoproBlock1() ensures Every(COPRO_COMMANDS_1, IsCoproEntry) {}
  lemma CoproBlock2() ensures Every(COPRO_COMMANDS_2, IsCoproEntry) {}
  lemma CoproBlock3() ensures Every(COPRO_COMMANDS_3, IsCoproEntry) {}
  lemma CoproBlock4() ensures Every(COPRO_COMMANDS_4, IsCoproEntry) {}
  lemma CoproBlock5() ensures Every(COPRO_COMMANDS_5, IsCoproEntry) {}
  lemma CoproBlock6() ensures Every(COPRO_COMMANDS_6, IsCoproEntry) {}

  lemma CoproKeys()
    ensures Every(COPRO_COMMANDS, IsCoproEntry)
  {
    CoproBlock0(); CoproBlock1(); CoproBlock2(); CoproBlock3(); CoproBlock4(); CoproBlock5(); CoproBlock6();
    EveryUnion(COPRO_COMMANDS_0, COPRO_COMMANDS_1, IsCoproEntry);
    EveryUnion(COPRO_COMMANDS_0 + COPRO_COMMANDS_1, COPRO_COMMANDS_2, IsCoproEntry);
    EveryUnion(COPRO_COMMANDS_0 + COPRO_COMMANDS_1 + COPRO_COMMANDS_2, COPRO_COMMANDS_3, IsCoproEntry);
    EveryUnion(COPRO_COMMANDS_0 + COPRO_COMMANDS_1 + COPRO_COMMANDS_2 + COPRO_COMMANDS_3, COPRO_COMMANDS_4, IsCoproEntry);
    EveryUnion(COPRO_COMMANDS_0 + COPRO_COMMANDS_1 + COPRO_COMMANDS_2 + COPRO_COMMANDS_3 + COPRO_COMMANDS_4, COPRO_COMMANDS_5, IsCoproEntry);
    EveryUnion(COPRO_COMMANDS_0 + COPRO_COMMANDS_1 + COPRO_COMMANDS_2 + COPRO_COMMANDS_3 + COPRO_COMMANDS_4 + COPRO_COMMANDS_5, COPRO_COMMANDS_6, IsCoproEntry);
  }

  lemma CmdbWriteInBlock()
    ensures REG_CMDB_WRITE_ADDR in REGISTERS_5 && REGISTERS_5[REG_CMDB_WRITE_ADDR] == "REG_CMDB_WRITE"
    ensures REG_CMDB_WRITE_ADDR !in REGISTERS_6
  {
  }

  /** The register the decoder singles out by name is in the register table. */
  lemma NamedRegisters()
    ensures RegisterTableShape(REGISTERS)
  {
    CmdbWriteInBlock();
    LookupRight(REGISTERS_0 + REGISTERS_1 + REGISTERS_2 + REGISTERS_3 + REGISTERS_4, REGISTERS_5, REG_CMDB_WRITE_ADDR);
    LookupLeft(REGISTERS_0 + REGISTERS_1 + REGISTERS_2 + REGISTERS_3 + REGISTERS_4 + REGISTERS_5, REGISTERS_6, REG_CMDB_WRITE_ADDR);
  }

  /** REG_CMDB_WRITE is a register of the table. */
  predicate RegisterTableShape(registers: map<nat, string>)
  {
    REG_CMDB_WRITE_ADDR in registers && registers[REG_CMDB_WRITE_ADDR] == "REG_CMDB_WRITE"
  }

  /** The four dictionaries the decoder consults. */
  datatype Dictionaries = Dictionaries(
    commands: map<byte, string>,
    registers: map<nat, string>,
    dlCommands: map<nat, string>,
    coproCommands: map<nat, string>)

  const EVE: Dictionaries := Dictionaries(COMMANDS, REGISTERS, DL_COMMANDS, COPRO_COMMANDS)

  /** What the decoding rules rely on in the dictionaries. */
  ghost predicate WellFormed(d: Dictionaries)
  {
    && Every(d.registers, IsRegisterEntry) && RegisterTableShape(d.registers)
    && Every(d.dlCommands, IsDlEntry)
    && Every(d.coproCommands, IsCoproEntry)
  }

  /** The chip's own dictionaries have that shape. */
  lemma EveWellFormed()
    ensures WellFormed(EVE)
  {
    RegisterNames();
    NamedRegisters();
    DlKeys();
    CoproKeys();
  }
}
