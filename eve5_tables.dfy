/**
  The lookup tables of the BT82x decoder, EmbeddedVideoEngine5/EmbeddedVideoEngine5.py, lines
  33-407, with the facts about their keys and names that the decoding rules rely on.

  A large table is the union of blocks of 16 entries in source order; no key occurs twice in a
  source table, so the union is the table. A property of every entry is proved block by block.
*/
module Eve5Tables {
  import opened Bytes
  import opened Tables
  import opened Disassembler

  const COMMANDS: map<byte, string> := map[
    0xE0 := "STANDBY",
    0xE1 := "SLEEP",
    0xE2 := "PWRDOWN",
    0xE4 := "SETPLLSP1",
    0xE6 := "SETSYSCLKDIV",
    0xE7 := "RESET_PULSE",
    0xE8 := "SETTBOOTCFG",
    0xE9 := "BOOTCFGEN",
    0xEB := "SETDDRTYPE"
  ]

  const REGISTERS_0: map<nat, string> := map[
    0x7F00_4000 := "REG_TRACKER",
    0x7F00_4004 := "REG_TRACKER_1",
    0x7F00_4008 := "REG_TRACKER_2",
    0x7F00_400C := "REG_TRACKER_3",
    0x7F00_4010 := "REG_TRACKER_4",
    0x7F00_4014 := "REG_MEDIAFIFO_READ",
    0x7F00_4018 := "REG_MEDIAFIFO_WRITE",
    0x7F00_4024 := "REG_FLASH_SIZE",
    0x7F00_402C := "REG_ANIM_ACTIVE",
    0x7F00_4038 := "REG_OBJECT_COMPLETE",
    0x7F00_403C := "REG_EXTENT_X0",
    0x7F00_4040 := "REG_EXTENT_Y0",
    0x7F00_4044 := "REG_EXTENT_X1",
    0x7F00_4048 := "REG_EXTENT_Y1",
    0x7F00_4050 := "REG_PLAY_CONTROL",
    0x7F00_6000 := "REG_ID"
  ]

  const REGISTERS_1: map<nat, string> := map[
    0x7F00_6004 := "REG_FRAMES",
    0x7F00_6008 := "REG_CLOCK",
    0x7F00_600C := "REG_FREQUENCY",
    0x7F00_6010 := "REG_RE_DEST",
    0x7F00_6014 := "REG_RE_FORMAT",
    0x7F00_6018 := "REG_RE_ROTATE",
    0x7F00_601C := "REG_RE_W",
    0x7F00_6020 := "REG_RE_H",
    0x7F00_6024 := "REG_RE_DITHER",
    0x7F00_6028 := "REG_RE_ACTIVE",
    0x7F00_602C := "REG_RE_RENDERS",
    0x7F00_6034 := "REG_SC0_RESET",
    0x7F00_6038 := "REG_SC0_SIZE",
    0x7F00_603C := "REG_SC0_PTR0",
    0x7F00_6040 := "REG_SC0_PTR1",
    0x7F00_6044 := "REG_SC0_PTR2"
  ]

  const REGISTERS_2: map<nat, string> := map[
    0x7F00_6048 := "REG_SC0_PTR3",
    0x7F00_604C := "REG_SC1_RESET",
    0x7F00_6050 := "REG_SC1_SIZE",
    0x7F00_6054 := "REG_SC1_PTR0",
    0x7F00_6058 := "REG_SC1_PTR1",
    0x7F00_605C := "REG_SC1_PTR2",
    0x7F00_6060 := "REG_SC1_PTR3",
    0x7F00_6064 := "REG_SC2_RESET",
    0x7F00_6068 := "REG_SC2_SIZE",
    0x7F00_606C := "REG_SC2_PTR0",
    0x7F00_6070 := "REG_SC2_PTR1",
    0x7F00_6074 := "REG_SC2_PTR2",
    0x7F00_6078 := "REG_SC2_PTR3",
    0x7F00_6088 := "REG_CPURESET",
    0x7F00_608C := "REG_HCYCLE",
    0x7F00_6090 := "REG_HOFFSET"
  ]

  const REGISTERS_3: map<nat, string> := map[
    0x7F00_6094 := "REG_HSIZE",
    0x7F00_6098 := "REG_HSYNC0",
    0x7F00_609C := "REG_HSYNC1",
    0x7F00_60A0 := "REG_VCYCLE",
    0x7F00_60A4 := "REG_VOFFSET",
    0x7F00_60A8 := "REG_VSIZE",
    0x7F00_60AC := "REG_VSYNC0",
    0x7F00_60B0 := "REG_VSYNC1",
    0x7F00_60B4 := "REG_DLSWAP",
    0x7F00_60B8 := "REG_PCLK_POL",
    0x7F00_60BC := "REG_TAG_X",
    0x7F00_60C0 := "REG_TAG_Y",
    0x7F00_60C4 := "REG_TAG",
    0x7F00_60C8 := "REG_VOL_L_PB",
    0x7F00_60CC := "REG_VOL_R_PB",
    0x7F00_60D0 := "REG_VOL_SOUND"
  ]

  const REGISTERS_4: map<nat, string> := map[
    0x7F00_60D4 := "REG_SOUND",
    0x7F00_60D8 := "REG_PLAY",
    0x7F00_60DC := "REG_GPIO_DIR",
    0x7F00_60E0 := "REG_GPIO",
    0x7F00_60E4 := "REG_DISP",
    0x7F00_6100 := "REG_INT_FLAGS",
    0x7F00_6104 := "REG_INT_EN",
    0x7F00_6108 := "REG_INT_MASK",
    0x7F00_610C := "REG_PLAYBACK_START",
    0x7F00_6110 := "REG_PLAYBACK_LENGTH",
    0x7F00_6114 := "REG_PLAYBACK_READPTR",
    0x7F00_6118 := "REG_PLAYBACK_FREQ",
    0x7F00_611C := "REG_PLAYBACK_FORMAT",
    0x7F00_6120 := "REG_PLAYBACK_LOOP",
    0x7F00_6124 := "REG_PLAYBACK_PLAY",
    0x7F00_6128 := "REG_PWM_HZ"
  ]

  const REGISTERS_5: map<nat, string> := map[
    0x7F00_612C := "REG_PWM_DUTY",
    0x7F00_6130 := "REG_MACRO_0",
    0x7F00_6134 := "REG_MACRO_1",
    0x7F00_613C := "REG_AUD_PWM",
    0x7F00_614C := "REG_CMD_READ",
    0x7F00_6150 := "REG_CMD_WRITE",
    0x7F00_6154 := "REG_CMD_DL",
    0x7F00_6158 := "REG_TOUCH_MODE",
    0x7F00_615C := "REG_CTOUCH_EXTENDED",
    0x7F00_6160 := "REG_TOUCH_SCREEN_XY",
    0x7F00_6164 := "REG_TOUCH_RAW_XY",
    0x7F00_6168 := "REG_CTOUCH_TOUCHB_XY",
    0x7F00_616C := "REG_CTOUCH_TOUCHC_XY",
    0x7F00_6170 := "REG_CTOUCH_TOUCH4_XY",
    0x7F00_6174 := "REG_TOUCH_TAG_XY",
    0x7F00_6178 := "REG_TOUCH_TAG"
  ]

  const REGISTERS_6: map<nat, string> := map[
    0x7F00_617C := "REG_TOUCH_TAG1_XY",
    0x7F00_6180 := "REG_TOUCH_TAG1",
    0x7F00_6184 := "REG_TOUCH_TAG2_XY",
    0x7F00_6188 := "REG_TOUCH_TAG2",
    0x7F00_618C := "REG_TOUCH_TAG3_XY",
    0x7F00_6190 := "REG_TOUCH_TAG3",
    0x7F00_6194 := "REG_TOUCH_TAG4_XY",
    0x7F00_6198 := "REG_TOUCH_TAG4",
    0x7F00_619C := "REG_TOUCH_TRANSFORM_A",
    0x7F00_61A0 := "REG_TOUCH_TRANSFORM_B",
    0x7F00_61A4 := "REG_TOUCH_TRANSFORM_C",
    0x7F00_61A8 := "REG_TOUCH_TRANSFORM_D",
    0x7F00_61AC := "REG_TOUCH_TRANSFORM_E",
    0x7F00_61B0 := "REG_TOUCH_TRANSFORM_F",
    0x7F00_61B4 := "REG_TOUCH_CONFIG",
    0x7F00_6594 := "REG_CMDB_SPACE"
  ]

  const REGISTERS_7: map<nat, string> := map[
    0x7F00_65D0 := "REG_PLAYBACK_PAUSE",
    0x7F00_65D4 := "REG_FLASH_STATUS",
    0x7F00_65F4 := "REG_SO_MODE",
    0x7F00_65F8 := "REG_SO_SOURCE",
    0x7F00_65FC := "REG_SO_FORMAT",
    0x7F00_6600 := "REG_SO_EN",
    0x7F00_6628 := "REG_BOOT_CFG",
    0x7F00_6670 := "REG_LVDSRX_CORE_ENABLE",
    0x7F00_6674 := "REG_LVDSRX_CORE_CAPTURE",
    0x7F00_6678 := "REG_LVDSRX_CORE_SETUP",
    0x7F00_667C := "REG_LVDSRX_CORE_DEST",
    0x7F00_6680 := "REG_LVDSRX_CORE_FORMAT",
    0x7F00_6684 := "REG_LVDSRX_CORE_DITHER",
    0x7F00_6698 := "REG_LVDSRX_CORE_FRAMES",
    0x7F00_6714 := "REG_I2S_EN",
    0x7F00_6718 := "REG_I2S_FREQ"
  ]

  const REGISTERS_8: map<nat, string> := map[
    0x7F00_6780 := "REG_SC2_STATUS",
    0x7F00_6784 := "REG_SC2_ADDR",
    0x7F01_0000 := "REG_CMDB_WRITE",
    0x7F80_0300 := "REG_LVDSTX_EN",
    0x7F80_0304 := "REG_LVDSTX_PLLCFG",
    0x7F80_0314 := "REG_LVDSTX_CTRL_CH0",
    0x7F80_0318 := "REG_LVDSTX_CTRL_CH1",
    0x7F80_031C := "REG_LVDSTX_STAT",
    0x7F80_0320 := "REG_LVDSTX_ERR_STAT",
    0x7F80_0408 := "REG_PIN_DRV_0",
    0x7F80_040C := "REG_PIN_DRV_1",
    0x7F80_0410 := "REG_PIN_SLEW_0",
    0x7F80_0414 := "REG_PIN_TYPE_0",
    0x7F80_0418 := "REG_PIN_TYPE_1",
    0x7F80_0420 := "REG_SYS_CFG",
    0x7F80_0424 := "REG_SYS_STAT"
  ]

  const REGISTERS_9: map<nat, string> := map[
    0x7F80_0448 := "REG_CHIP_ID",
    0x7F80_044C := "REG_BOOT_STATUS",
    0x7F80_0454 := "REG_DDR_TYPE",
    0x7F80_0464 := "REG_PIN_DRV_2",
    0x7F80_0468 := "REG_PIN_SLEW_1",
    0x7F80_046C := "REG_PIN_TYPE_2",
    0x7F80_0500 := "REG_LVDSRX_SETUP",
    0x7F80_0504 := "REG_LVDSRX_CTRL",
    0x7F80_0508 := "REG_LVDSRX_STAT",
    0x7F80_0800 := "REG_I2S_CFG",
    0x7F80_0804 := "REG_I2S_CTL",
    0x7F80_0810 := "REG_I2S_STAT",
    0x7F80_0814 := "REG_I2S_PAD_CFG"
  ]

  const REGISTERS: map<nat, string> := REGISTERS_0 + REGISTERS_1 + REGISTERS_2 + REGISTERS_3 + REGISTERS_4 + REGISTERS_5 + REGISTERS_6 + REGISTERS_7 + REGISTERS_8 + REGISTERS_9

  const DL_COMMANDS_0: map<nat, string> := map[
    0x0 := "DL_DISPLAY",
    0x100_0000 := "DL_BITMAP_SOURCE",
    0x200_0000 := "DL_CLEAR_COLOR_RGB",
    0x300_0000 := "DL_TAG",
    0x400_0000 := "DL_COLOR_RGB",
    0x500_0000 := "DL_BITMAP_HANDLE",
    0x600_0000 := "DL_CELL",
    0x700_0000 := "DL_BITMAP_LAYOUT",
    0x800_0000 := "DL_BITMAP_SIZE",
    0x900_0000 := "DL_ALPHA_FUNC",
    0xA00_0000 := "DL_STENCIL_FUNC",
    0xB00_0000 := "DL_BLEND_FUNC",
    0xC00_0000 := "DL_STENCIL_OP",
    0xD00_0000 := "DL_POINT_SIZE",
    0xE00_0000 := "DL_LINE_WIDTH",
    0xF00_0000 := "DL_CLEAR_COLOR_A"
  ]

  const DL_COMMANDS_1: map<nat, string> := map[
    0x1000_0000 := "DL_COLOR_A",
    0x1100_0000 := "DL_CLEAR_STENCIL",
    0x1200_0000 := "DL_CLEAR_TAG",
    0x1300_0000 := "DL_STENCIL_MASK",
    0x1400_0000 := "DL_TAG_MASK",
    0x1500_0000 := "DL_BITMAP_TRANSFORM_A",
    0x1600_0000 := "DL_BITMAP_TRANSFORM_B",
    0x1700_0000 := "DL_BITMAP_TRANSFORM_C",
    0x1800_0000 := "DL_BITMAP_TRANSFORM_D",
    0x1900_0000 := "DL_BITMAP_TRANSFORM_E",
    0x1A00_0000 := "DL_BITMAP_TRANSFORM_F",
    0x1B00_0000 := "DL_SCISSOR_XY",
    0x1C00_0000 := "DL_SCISSOR_SIZE",
    0x1D00_0000 := "DL_CALL",
    0x1E00_0000 := "DL_JUMP",
    0x1F00_0000 := "DL_BEGIN"
  ]

  const DL_COMMANDS_2: map<nat, string> := map[
    0x2000_0000 := "DL_COLOR_MASK",
    0x2100_0000 := "DL_END",
    0x2200_0000 := "DL_SAVE_CONTEXT",
    0x2300_0000 := "DL_RESTORE_CONTEXT",
    0x2400_0000 := "DL_RETURN",
    0x2500_0000 := "DL_MACRO",
    0x2600_0000 := "DL_CLEAR",
    0x2700_0000 := "DL_VERTEX_FORMAT",
    0x2800_0000 := "DL_BITMAP_LAYOUT_H",
    0x2900_0000 := "DL_BITMAP_SIZE_H",
    0x2A00_0000 := "DL_PALETTE_SOURCE",
    0x2B00_0000 := "DL_VERTEX_TRANSLATE_X",
    0x2C00_0000 := "DL_VERTEX_TRANSLATE_Y",
    0x2D00_0000 := "DL_NOP",
    0x2E00_0000 := "DL_BITMAP_EXT_FORMAT",
    0x2F00_0000 := "DL_BITMAP_SWIZZLE"
  ]

  const DL_COMMANDS_3: map<nat, string> := map[
    0x3100_0000 := "DL_BITMAP_SOURCEH",
    0x3200_0000 := "DL_PALETTE_SOURCEH",
    0x3300_0000 := "DL_BITMAP_ZORDER",
    0x3400_0000 := "DL_REGION"
  ]

  const DL_COMMANDS: map<nat, string> := DL_COMMANDS_0 + DL_COMMANDS_1 + DL_COMMANDS_2 + DL_COMMANDS_3

  const COPRO_COMMANDS_0: map<nat, string> := map[
    0xFFFF_FF4F := "CMD_ANIMDRAW",
    0xFFFF_FF5E := "CMD_ANIMFRAME",
    0xFFFF_FF5F := "CMD_ANIMSTART",
    0xFFFF_FF4D := "CMD_ANIMSTOP",
    0xFFFF_FF4E := "CMD_ANIMXY",
    0xFFFF_FF1C := "CMD_APPEND",
    0xFFFF_FF52 := "CMD_APPENDF",
    0xFFFF_FF87 := "CMD_ARC",
    0xFFFF_FF07 := "CMD_BGCOLOR",
    0xFFFF_FF1F := "CMD_BITMAP_TRANSFORM",
    0xFFFF_FF0B := "CMD_BUTTON",
    0xFFFF_FF13 := "CMD_CALIBRATE",
    0xFFFF_FF56 := "CMD_CALIBRATESUB",
    0xFFFF_FF5B := "CMD_CALLLIST",
    0xFFFF_FF8A := "CMD_CGRADIENT",
    0xFFFF_FF12 := "CMD_CLOCK"
  ]

  const COPRO_COMMANDS_1: map<nat, string> := map[
    0xFFFF_FF2E := "CMD_COLDSTART",
    0xFFFF_FF88 := "CMD_COPYLIST",
    0xFFFF_FF65 := "CMD_DDRSHUTDOWN",
    0xFFFF_FF66 := "CMD_DDRSTARTUP",
    0xFFFF_FF29 := "CMD_DIAL",
    0xFFFF_FF00 := "CMD_DLSTART",
    0xFFFF_FF7E := "CMD_ENABLEREGION",
    0xFFFF_FF5D := "CMD_ENDLIST",
    0xFFFF_FF68 := "CMD_FENCE",
    0xFFFF_FF08 := "CMD_FGCOLOR",
    0xFFFF_FF51 := "CMD_FILLWIDTH",
    0xFFFF_FF43 := "CMD_FLASHATTACH",
    0xFFFF_FF42 := "CMD_FLASHDETACH",
    0xFFFF_FF3E := "CMD_FLASHERASE",
    0xFFFF_FF44 := "CMD_FLASHFAST",
    0xFFFF_FF64 := "CMD_FLASHPROGRAM"
  ]

  const COPRO_COMMANDS_2: map<nat, string> := map[
    0xFFFF_FF40 := "CMD_FLASHREAD",
    0xFFFF_FF48 := "CMD_FLASHSOURCE",
    0xFFFF_FF45 := "CMD_FLASHSPIDESEL",
    0xFFFF_FF47 := "CMD_FLASHSPIRX",
    0xFFFF_FF46 := "CMD_FLASHSPITX",
    0xFFFF_FF41 := "CMD_FLASHUPDATE",
    0xFFFF_FF3F := "CMD_FLASHWRITE",
    0xFFFF_FF8E := "CMD_FSDIR",
    0xFFFF_FF6D := "CMD_FSOPTIONS",
    0xFFFF_FF71 := "CMD_FSREAD",
    0xFFFF_FF80 := "CMD_FSSIZE",
    0xFFFF_FF7F := "CMD_FSSOURCE",
    0xFFFF_FF11 := "CMD_GAUGE",
    0xFFFF_FF58 := "CMD_GETIMAGE",
    0xFFFF_FF2F := "CMD_GETMATRIX",
    0xFFFF_FF22 := "CMD_GETPROPS"
  ]

  const COPRO_COMMANDS_3: map<nat, string> := map[
    0xFFFF_FF20 := "CMD_GETPTR",
    0xFFFF_FF8B := "CMD_GLOW",
    0xFFFF_FF30 := "CMD_GRADCOLOR",
    0xFFFF_FF09 := "CMD_GRADIENT",
    0xFFFF_FF50 := "CMD_GRADIENTA",
    0xFFFF_FF6B := "CMD_GRAPHICSFINISH",
    0xFFFF_FF69 := "CMD_I2SSTARTUP",
    0xFFFF_FF4A := "CMD_INFLATE",
    0xFFFF_FF02 := "CMD_INTERRUPT",
    0xFFFF_FF0C := "CMD_KEYS",
    0xFFFF_FF81 := "CMD_LOADASSET",
    0xFFFF_FF23 := "CMD_LOADIDENTITY",
    0xFFFF_FF21 := "CMD_LOADIMAGE",
    0xFFFF_FF85 := "CMD_LOADWAV",
    0xFFFF_FF2D := "CMD_LOGO",
    0xFFFF_FF34 := "CMD_MEDIAFIFO"
  ]

  const COPRO_COMMANDS_4: map<nat, string> := map[
    0xFFFF_FF1B := "CMD_MEMCPY",
    0xFFFF_FF16 := "CMD_MEMCRC",
    0xFFFF_FF19 := "CMD_MEMSET",
    0xFFFF_FF18 := "CMD_MEMWRITE",
    0xFFFF_FF1A := "CMD_MEMZERO",
    0xFFFF_FF5C := "CMD_NEWLIST",
    0xFFFF_FF53 := "CMD_NOP",
    0xFFFF_FF2A := "CMD_NUMBER",
    0xFFFF_FF35 := "CMD_PLAYVIDEO",
    0xFFFF_FF79 := "CMD_PLAYWAV",
    0xFFFF_FF0D := "CMD_PROGRESS",
    0xFFFF_FF17 := "CMD_REGREAD",
    0xFFFF_FF86 := "CMD_REGWRITE",
    0xFFFF_FF8D := "CMD_RENDERTARGET",
    0xFFFF_FF4C := "CMD_RESETFONTS",
    0xFFFF_FF7D := "CMD_RESTORECONTEXT"
  ]

  const COPRO_COMMANDS_5: map<nat, string> := map[
    0xFFFF_FF89 := "CMD_RESULT",
    0xFFFF_FF5A := "CMD_RETURN",
    0xFFFF_FF39 := "CMD_ROMFONT",
    0xFFFF_FF26 := "CMD_ROTATE",
    0xFFFF_FF4B := "CMD_ROTATEAROUND",
    0xFFFF_FF60 := "CMD_RUNANIM",
    0xFFFF_FF7C := "CMD_SAVECONTEXT",
    0xFFFF_FF25 := "CMD_SCALE",
    0xFFFF_FF2B := "CMD_SCREENSAVER",
    0xFFFF_FF0F := "CMD_SCROLLBAR",
    0xFFFF_FF6E := "CMD_SDATTACH",
    0xFFFF_FF6F := "CMD_SDBLOCKREAD",
    0xFFFF_FF33 := "CMD_SETBASE",
    0xFFFF_FF3D := "CMD_SETBITMAP",
    0xFFFF_FF36 := "CMD_SETFONT",
    0xFFFF_FF27 := "CMD_SETMATRIX"
  ]

  const COPRO_COMMANDS_6: map<nat, string> := map[
    0xFFFF_FF31 := "CMD_SETROTATE",
    0xFFFF_FF37 := "CMD_SETSCRATCH",
    0xFFFF_FF2C := "CMD_SKETCH",
    0xFFFF_FF8C := "CMD_SKIPCOND",
    0xFFFF_FF0E := "CMD_SLIDER",
    0xFFFF_FF1D := "CMD_SNAPSHOT",
    0xFFFF_FF14 := "CMD_SPINNER",
    0xFFFF_FF15 := "CMD_STOP",
    0xFFFF_FF01 := "CMD_SWAP",
    0xFFFF_FF3C := "CMD_SYNC",
    0xFFFF_FF57 := "CMD_TESTCARD",
    0xFFFF_FF0A := "CMD_TEXT",
    0xFFFF_FF84 := "CMD_TEXTDIM",
    0xFFFF_FF10 := "CMD_TOGGLE",
    0xFFFF_FF28 := "CMD_TRACK",
    0xFFFF_FF24 := "CMD_TRANSLATE"
  ]

  const COPRO_COMMANDS_7: map<nat, string> := map[
    0xFFFF_FF3B := "CMD_VIDEOFRAME",
    0xFFFF_FF3A := "CMD_VIDEOSTART",
    0xFFFF_FF59 := "CMD_WAIT",
    0xFFFF_FF67 := "CMD_WAITCHANGE",
    0xFFFF_FF78 := "CMD_WAITCOND",
    0xFFFF_FF83 := "CMD_WATCHDOG"
  ]

  const COPRO_COMMANDS: map<nat, string> := COPRO_COMMANDS_0 + COPRO_COMMANDS_1 + COPRO_COMMANDS_2 + COPRO_COMMANDS_3 + COPRO_COMMANDS_4 + COPRO_COMMANDS_5 + COPRO_COMMANDS_6 + COPRO_COMMANDS_7

  const BOOT_STATUS_0: map<string, string> := map[
    "0x492E2E2E" := "Coprocessor is running",
    "0x4F2E2E2E" := "Read system configuration",
    "0x442E2E2E" := "DDR initialization started",
    "0x444D3038" := "DDR initialization, waiting for DDR initialization done",
    "0x44433035" := "DDR initialization, waiting for DDR out of reset",
    "0x44553135" := "DDR initialization, 150 us delay",
    "0x44553730" := "DDR initialization, 700 us delay",
    "0x552E2E2E" := "Decompressing rom main image to DDR",
    "0x432E2E2E" := "Copying into program memory",
    "0x562E2E2E" := "Decompressing rom asset image to DDR",
    "0x4C2E2E2E" := "Initializing local variables",
    "0x542E2E2E" := "Copying into touch program memory",
    "0x462E2E2E" := "Attempting to attach to flash",
    "0x522E2E2E" := "Normal running",
    "0x452E2E2E" := "DDR shutdown started",
    "0x454D3130" := "DDR shutdown, waiting for DDR enter self-refresh state"
  ]

  const BOOT_STATUS_1: map<string, string> := map[
    "0x45433034" := "DDR shutdown, waiting for DDR enter reset",
    "0x5A2E2E2E" := "DDR shutdown state",
    "0x572E2E2E" := "DDR warm start, started",
    "0x57433035" := "DDR warm start, waiting for DDR out of reset",
    "0x574D3038" := "DDR warm start, waiting for DDR initialization done",
    "0x574D3130" := "DDR warm start, waiting for DDR enter self-refresh state",
    "0x576D3130" := "DDR warm start, waiting for DDR not in self-refresh state",
    "0x57553135" := "DDR warm start, 150 us delay"
  ]

  const BOOT_STATUS: map<string, string> := BOOT_STATUS_0 + BOOT_STATUS_1
  const REG_CMDB_WRITE_ADDR: nat := 0x7F01_0000
  const REG_BOOT_STATUS_ADDR: nat := 0x7F80_044C

  /** The data shown for a read that returned no value. */
  const READ_ERROR: string := "READ_ERROR"

  /** Register names start with "REG_"; REG_CMDB_WRITE and REG_BOOT_STATUS name one address each. */
  predicate IsRegisterEntry(k: nat, name: string)
  {
    && StartsWith(name, "REG_")
    && (name == "REG_CMDB_WRITE" ==> k == REG_CMDB_WRITE_ADDR)
    && (name == "REG_BOOT_STATUS" ==> k == REG_BOOT_STATUS_ADDR)
  }

  /** A boot-status text is never empty and never the read-error marker. */
  predicate IsBootStatusEntry(k: string, text: string)
  {
    text != "" && text != READ_ERROR
  }

  lemma RegisterBlock0() ensures Every(REGISTERS_0, IsRegisterEntry) {}
  lemma RegisterBlock1() ensures Every(REGISTERS_1, IsRegisterEntry) {}
  lemma RegisterBlock2() ensures Every(REGISTERS_2, IsRegisterEntry) {}
  lemma RegisterBlock3() ensures Every(REGISTERS_3, IsRegisterEntry) {}
  lemma RegisterBlock4() ensures Every(REGISTERS_4, IsRegisterEntry) {}
  lemma RegisterBlock5() ensures Every(REGISTERS_5, IsRegisterEntry) {}
  lemma RegisterBlock6() ensures Every(REGISTERS_6, IsRegisterEntry) {}
  lemma RegisterBlock7() ensures Every(REGISTERS_7, IsRegisterEntry) {}
  lemma RegisterBlock8() ensures Every(REGISTERS_8, IsRegisterEntry) {}
  lemma RegisterBlock9() ensures Every(REGISTERS_9, IsRegisterEntry) {}

  lemma RegisterNames()
    ensures Every(REGISTERS, IsRegisterEntry)
  {
    RegisterBlock0(); RegisterBlock1(); RegisterBlock2(); RegisterBlock3(); RegisterBlock4(); RegisterBlock5(); RegisterBlock6(); RegisterBlock7(); RegisterBlock8(); RegisterBlock9();
    EveryUnion(REGISTERS_0, REGISTERS_1, IsRegisterEntry);
    EveryUnion(REGISTERS_0 + REGISTERS_1, REGISTERS_2, IsRegisterEntry);
    EveryUnion(REGISTERS_0 + REGISTERS_1 + REGISTERS_2, REGISTERS_3, IsRegisterEntry);
    EveryUnion(REGISTERS_0 + REGISTERS_1 + REGISTERS_2 + REGISTERS_3, REGISTERS_4, IsRegisterEntry);
    EveryUnion(REGISTERS_0 + REGISTERS_1 + REGISTERS_2 + REGISTERS_3 + REGISTERS_4, REGISTERS_5, IsRegisterEntry);
    EveryUnion(REGISTERS_0 + REGISTERS_1 + REGISTERS_2 + REGISTERS_3 + REGISTERS_4 + REGISTERS_5, REGISTERS_6, IsRegisterEntry);
    EveryUnion(REGISTERS_0 + REGISTERS_1 + REGISTERS_2 + REGISTERS_3 + REGISTERS_4 + REGISTERS_5 + REGISTERS_6, REGISTERS_7, IsRegisterEntry);
    EveryUnion(REGISTERS_0 + REGISTERS_1 + REGISTERS_2 + REGISTERS_3 + REGISTERS_4 + REGISTERS_5 + REGISTERS_6 + REGISTERS_7, REGISTERS_8, IsRegisterEntry);
    EveryUnion(REGISTERS_0 + REGISTERS_1 + REGISTERS_2 + REGISTERS_3 + REGISTERS_4 + REGISTERS_5 + REGISTERS_6 + REGISTERS_7 + REGISTERS_8, REGISTERS_9, IsRegisterEntry);
  }

  lemma DlBlock0() ensures Every(DL_COMMANDS_0, IsDlEntry) {}
  lemma DlBlock1() ensures Every(DL_COMMANDS_1, IsDlEntry) {}
  lemma DlBlock2() ensures Every(DL_COMMANDS_2, IsDlEntry) {}
  lemma DlBlock3() ensures Every(DL_COMMANDS_3, IsDlEntry) {}

  lemma DlKeys()
    ensures Every(DL_COMMANDS, IsDlEntry)
  {
    DlBlock0(); DlBlock1(); DlBlock2(); DlBlock3();
    EveryUnion(DL_COMMANDS_0, DL_COMMANDS_1, IsDlEntry);
    EveryUnion(DL_COMMANDS_0 + DL_COMMANDS_1, DL_COMMANDS_2, IsDlEntry);
    EveryUnion(DL_COMMANDS_0 + DL_COMMANDS_1 + DL_COMMANDS_2, DL_COMMANDS_3, IsDlEntry);
  }

  lemma CoproBlock0() ensures Every(COPRO_COMMANDS_0, IsCoproEntry) {}
  lemma CoproBlock1() ensures Every(COPRO_COMMANDS_1, IsCoproEntry) {}
  lemma CoproBlock2() ensures Every(COPRO_COMMANDS_2, IsCoproEntry) {}
  lemma CoproBlock3() ensures Every(COPRO_COMMANDS_3, IsCoproEntry) {}
  lemma CoproBlock4() ensures Every(COPRO_COMMANDS_4, IsCoproEntry) {}
  lemma CoproBlock5() ensures Every(COPRO_COMMANDS_5, IsCoproEntry) {}
  lemma CoproBlock6() ensures Every(COPRO_COMMANDS_6, IsCoproEntry) {}
  lemma CoproBlock7() ensures Every(COPRO_COMMANDS_7, IsCoproEntry) {}

  lemma CoproKeys()
    ensures Every(COPRO_COMMANDS, IsCoproEntry)
  {
    CoproBlock0(); CoproBlock1(); CoproBlock2(); CoproBlock3(); CoproBlock4(); CoproBlock5(); CoproBlock6(); CoproBlock7();
    EveryUnion(COPRO_COMMANDS_0, COPRO_COMMANDS_1, IsCoproEntry);
    EveryUnion(COPRO_COMMANDS_0 + COPRO_COMMANDS_1, COPRO_COMMANDS_2, IsCoproEntry);
    EveryUnion(COPRO_COMMANDS_0 + COPRO_COMMANDS_1 + COPRO_COMMANDS_2, COPRO_COMMANDS_3, IsCoproEntry);
    EveryUnion(COPRO_COMMANDS_0 + COPRO_COMMANDS_1 + COPRO_COMMANDS_2 + COPRO_COMMANDS_3, COPRO_COMMANDS_4, IsCoproEntry);
    EveryUnion(COPRO_COMMANDS_0 + COPRO_COMMANDS_1 + COPRO_COMMANDS_2 + COPRO_COMMANDS_3 + COPRO_COMMANDS_4, COPRO_COMMANDS_5, IsCoproEntry);
    EveryUnion(COPRO_COMMANDS_0 + COPRO_COMMANDS_1 + COPRO_COMMANDS_2 + COPRO_COMMANDS_3 + COPRO_COMMANDS_4 + COPRO_COMMANDS_5, COPRO_COMMANDS_6, IsCoproEntry);
    EveryUnion(COPRO_COMMANDS_0 + COPRO_COMMANDS_1 + COPRO_COMMANDS_2 + COPRO_COMMANDS_3 + COPRO_COMMANDS_4 + COPRO_COMMANDS_5 + COPRO_COMMANDS_6, COPRO_COMMANDS_7, IsCoproEntry);
  }
  lemma BootStatusTexts()
    ensures Every(BOOT_STATUS, IsBootStatusEntry)
  {
  }

  lemma CmdbWriteInBlock()
    ensures REG_CMDB_WRITE_ADDR in REGISTERS_8 && REGISTERS_8[REG_CMDB_WRITE_ADDR] == "REG_CMDB_WRITE"
    ensures REG_CMDB_WRITE_ADDR !in REGISTERS_9
  {
  }

  lemma BootStatusInBlock()
    ensures REG_BOOT_STATUS_ADDR in REGISTERS_9 && REGISTERS_9[REG_BOOT_STATUS_ADDR] == "REG_BOOT_STATUS"
  {
  }

  lemma CmdbWriteUpToBlock8()
    ensures REG_CMDB_WRITE_ADDR in REGISTERS_0 + REGISTERS_1 + REGISTERS_2 + REGISTERS_3 + REGISTERS_4 + REGISTERS_5 + REGISTERS_6 + REGISTERS_7 + REGISTERS_8
    ensures (REGISTERS_0 + REGISTERS_1 + REGISTERS_2 + REGISTERS_3 + REGISTERS_4 + REGISTERS_5 + REGISTERS_6 + REGISTERS_7 + REGISTERS_8)[REG_CMDB_WRITE_ADDR] == "REG_CMDB_WRITE"
  {
    CmdbWriteInBlock();
    LookupRight(REGISTERS_0 + REGISTERS_1 + REGISTERS_2 + REGISTERS_3 + REGISTERS_4 + REGISTERS_5 + REGISTERS_6 + REGISTERS_7, REGISTERS_8, REG_CMDB_WRITE_ADDR);
  }

  /** The two registers the decoder singles out by name are in the register table. */
  lemma NamedRegisters()
    ensures RegisterTableShape(REGISTERS)
  {
    CmdbWriteUpToBlock8();
    CmdbWriteInBlock();
    LookupLeft(REGISTERS_0 + REGISTERS_1 + REGISTERS_2 + REGISTERS_3 + REGISTERS_4 + REGISTERS_5 + REGISTERS_6 + REGISTERS_7 + REGISTERS_8, REGISTERS_9, REG_CMDB_WRITE_ADDR);
    BootStatusInBlock();
    LookupRight(REGISTERS_0 + REGISTERS_1 + REGISTERS_2 + REGISTERS_3 + REGISTERS_4 + REGISTERS_5 + REGISTERS_6 + REGISTERS_7 + REGISTERS_8, REGISTERS_9, REG_BOOT_STATUS_ADDR);
  }

  /** REG_CMDB_WRITE and REG_BOOT_STATUS are registers of the table. */
  predicate RegisterTableShape(registers: map<nat, string>)
  {
    && REG_CMDB_WRITE_ADDR in registers && registers[REG_CMDB_WRITE_ADDR] == "REG_CMDB_WRITE"
    && REG_BOOT_STATUS_ADDR in registers && registers[REG_BOOT_STATUS_ADDR] == "REG_BOOT_STATUS"
  }

  /** The five dictionaries the decoder consults. */
  datatype Dictionaries = Dictionaries(
    commands: map<byte, string>,
    registers: map<nat, string>,
    dlCommands: map<nat, string>,
    coproCommands: map<nat, string>,
    bootStatus: map<string, string>)

  const EVE5: Dictionaries := Dictionaries(COMMANDS, REGISTERS, DL_COMMANDS, COPRO_COMMANDS, BOOT_STATUS)

  /** What the decoding rules rely on in the dictionaries. */
  ghost predicate WellFormed(d: Dictionaries)
  {
    && Every(d.registers, IsRegisterEntry) && RegisterTableShape(d.registers)
    && Every(d.dlCommands, IsDlEntry)
    && Every(d.coproCommands, IsCoproEntry)
    && Every(d.bootStatus, IsBootStatusEntry)
  }

  /** The chip's own dictionaries have that shape. */
  lemma Eve5WellFormed()
    ensures WellFormed(EVE5)
  {
    RegisterNames();
    NamedRegisters();
    DlKeys();
    CoproKeys();
    BootStatusTexts();
  }
}
