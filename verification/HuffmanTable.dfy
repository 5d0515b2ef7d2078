/** The code of Appendix B of RFC 7541, and the proof that it is a good code.

    The code is canonical: ordered by code word, the words of one length are consecutive
    numbers, and the words of the next length go on where those end. */
module HuffmanTable {
  import opened Base
  import opened Bits
  import opened Huffman


  /** The code word of a symbol, sixteen symbols to a row. */
  function Entry(symbol: int): HuffmanSym {
    match symbol / 16
    case 0 => Entry0(symbol % 16) case 1 => Entry1(symbol % 16) case 2 => Entry2(symbol % 16) case 3 => Entry3(symbol % 16)
    case 4 => Entry4(symbol % 16) case 5 => Entry5(symbol % 16) case 6 => Entry6(symbol % 16) case 7 => Entry7(symbol % 16)
    case 8 => Entry8(symbol % 16) case 9 => Entry9(symbol % 16) case 10 => Entry10(symbol % 16) case 11 => Entry11(symbol % 16)
    case 12 => Entry12(symbol % 16) case 13 => Entry13(symbol % 16) case 14 => Entry14(symbol % 16) case 15 => Entry15(symbol % 16)
    case _ => Entry16(symbol % 16)
  }

  function Entry0(i: int): HuffmanSym {
    match i
    case 0 => HuffmanSym(13, 0xffc0_0000) case 1 => HuffmanSym(23, 0xffff_b000) case 2 => HuffmanSym(28, 0xffff_fe20)
    case 3 => HuffmanSym(28, 0xffff_fe30) case 4 => HuffmanSym(28, 0xffff_fe40) case 5 => HuffmanSym(28, 0xffff_fe50)
    case 6 => HuffmanSym(28, 0xffff_fe60) case 7 => HuffmanSym(28, 0xffff_fe70) case 8 => HuffmanSym(28, 0xffff_fe80)
    case 9 => HuffmanSym(24, 0xffff_ea00) case 10 => HuffmanSym(30, 0xffff_fff0) case 11 => HuffmanSym(28, 0xffff_fe90)
    case 12 => HuffmanSym(28, 0xffff_fea0) case 13 => HuffmanSym(30, 0xffff_fff4) case 14 => HuffmanSym(28, 0xffff_feb0)
    case _ => HuffmanSym(28, 0xffff_fec0)
  }

  function Entry1(i: int): HuffmanSym {
    match i
    case 0 => HuffmanSym(28, 0xffff_fed0) case 1 => HuffmanSym(28, 0xffff_fee0) case 2 => HuffmanSym(28, 0xffff_fef0)
    case 3 => HuffmanSym(28, 0xffff_ff00) case 4 => HuffmanSym(28, 0xffff_ff10) case 5 => HuffmanSym(28, 0xffff_ff20)
    case 6 => HuffmanSym(30, 0xffff_fff8) case 7 => HuffmanSym(28, 0xffff_ff30) case 8 => HuffmanSym(28, 0xffff_ff40)
    case 9 => HuffmanSym(28, 0xffff_ff50) case 10 => HuffmanSym(28, 0xffff_ff60) case 11 => HuffmanSym(28, 0xffff_ff70)
    case 12 => HuffmanSym(28, 0xffff_ff80) case 13 => HuffmanSym(28, 0xffff_ff90) case 14 => HuffmanSym(28, 0xffff_ffa0)
    case _ => HuffmanSym(28, 0xffff_ffb0)
  }

  function Entry2(i: int): HuffmanSym {
    match i
    case 0 => HuffmanSym(6, 0x5000_0000) case 1 => HuffmanSym(10, 0xfe00_0000) case 2 => HuffmanSym(10, 0xfe40_0000)
    case 3 => HuffmanSym(12, 0xffa0_0000) case 4 => HuffmanSym(13, 0xffc8_0000) case 5 => HuffmanSym(6, 0x5400_0000)
    case 6 => HuffmanSym(8, 0xf800_0000) case 7 => HuffmanSym(11, 0xff40_0000) case 8 => HuffmanSym(10, 0xfe80_0000)
    case 9 => HuffmanSym(10, 0xfec0_0000) case 10 => HuffmanSym(8, 0xf900_0000) case 11 => HuffmanSym(11, 0xff60_0000)
    case 12 => HuffmanSym(8, 0xfa00_0000) case 13 => HuffmanSym(6, 0x5800_0000) case 14 => HuffmanSym(6, 0x5c00_0000)
    case _ => HuffmanSym(6, 0x6000_0000)
  }

  function Entry3(i: int): HuffmanSym {
    match i
    case 0 => HuffmanSym(5, 0x0000_0000) case 1 => HuffmanSym(5, 0x0800_0000) case 2 => HuffmanSym(5, 0x1000_0000)
    case 3 => HuffmanSym(6, 0x6400_0000) case 4 => HuffmanSym(6, 0x6800_0000) case 5 => HuffmanSym(6, 0x6c00_0000)
    case 6 => HuffmanSym(6, 0x7000_0000) case 7 => HuffmanSym(6, 0x7400_0000) case 8 => HuffmanSym(6, 0x7800_0000)
    case 9 => HuffmanSym(6, 0x7c00_0000) case 10 => HuffmanSym(7, 0xb800_0000) case 11 => HuffmanSym(8, 0xfb00_0000)
    case 12 => HuffmanSym(15, 0xfff8_0000) case 13 => HuffmanSym(6, 0x8000_0000) case 14 => HuffmanSym(12, 0xffb0_0000)
    case _ => HuffmanSym(10, 0xff00_0000)
  }

  function Entry4(i: int): HuffmanSym {
    match i
    case 0 => HuffmanSym(13, 0xffd0_0000) case 1 => HuffmanSym(6, 0x8400_0000) case 2 => HuffmanSym(7, 0xba00_0000)
    case 3 => HuffmanSym(7, 0xbc00_0000) case 4 => HuffmanSym(7, 0xbe00_0000) case 5 => HuffmanSym(7, 0xc000_0000)
    case 6 => HuffmanSym(7, 0xc200_0000) case 7 => HuffmanSym(7, 0xc400_0000) case 8 => HuffmanSym(7, 0xc600_0000)
    case 9 => HuffmanSym(7, 0xc800_0000) case 10 => HuffmanSym(7, 0xca00_0000) case 11 => HuffmanSym(7, 0xcc00_0000)
    case 12 => HuffmanSym(7, 0xce00_0000) case 13 => HuffmanSym(7, 0xd000_0000) case 14 => HuffmanSym(7, 0xd200_0000)
    case _ => HuffmanSym(7, 0xd400_0000)
  }

  function Entry5(i: int): HuffmanSym {
    match i
    case 0 => HuffmanSym(7, 0xd600_0000) case 1 => HuffmanSym(7, 0xd800_0000) case 2 => HuffmanSym(7, 0xda00_0000)
    case 3 => HuffmanSym(7, 0xdc00_0000) case 4 => HuffmanSym(7, 0xde00_0000) case 5 => HuffmanSym(7, 0xe000_0000)
    case 6 => HuffmanSym(7, 0xe200_0000) case 7 => HuffmanSym(7, 0xe400_0000) case 8 => HuffmanSym(8, 0xfc00_0000)
    case 9 => HuffmanSym(7, 0xe600_0000) case 10 => HuffmanSym(8, 0xfd00_0000) case 11 => HuffmanSym(13, 0xffd8_0000)
    case 12 => HuffmanSym(19, 0xfffe_0000) case 13 => HuffmanSym(13, 0xffe0_0000) case 14 => HuffmanSym(14, 0xfff0_0000)
    case _ => HuffmanSym(6, 0x8800_0000)
  }

  function Entry6(i: int): HuffmanSym {
    match i
    case 0 => HuffmanSym(15, 0xfffa_0000) case 1 => HuffmanSym(5, 0x1800_0000) case 2 => HuffmanSym(6, 0x8c00_0000)
    case 3 => HuffmanSym(5, 0x2000_0000) case 4 => HuffmanSym(6, 0x9000_0000) case 5 => HuffmanSym(5, 0x2800_0000)
    case 6 => HuffmanSym(6, 0x9400_0000) case 7 => HuffmanSym(6, 0x9800_0000) case 8 => HuffmanSym(6, 0x9c00_0000)
    case 9 => HuffmanSym(5, 0x3000_0000) case 10 => HuffmanSym(7, 0xe800_0000) case 11 => HuffmanSym(7, 0xea00_0000)
    case 12 => HuffmanSym(6, 0xa000_0000) case 13 => HuffmanSym(6, 0xa400_0000) case 14 => HuffmanSym(6, 0xa800_0000)
    case _ => HuffmanSym(5, 0x3800_0000)
  }

  function Entry7(i: int): HuffmanSym {
    match i
    case 0 => HuffmanSym(6, 0xac00_0000) case 1 => HuffmanSym(7, 0xec00_0000) case 2 => HuffmanSym(6, 0xb000_0000)
    case 3 => HuffmanSym(5, 0x4000_0000) case 4 => HuffmanSym(5, 0x4800_0000) case 5 => HuffmanSym(6, 0xb400_0000)
    case 6 => HuffmanSym(7, 0xee00_0000) case 7 => HuffmanSym(7, 0xf000_0000) case 8 => HuffmanSym(7, 0xf200_0000)
    case 9 => HuffmanSym(7, 0xf400_0000) case 10 => HuffmanSym(7, 0xf600_0000) case 11 => HuffmanSym(15, 0xfffc_0000)
    case 12 => HuffmanSym(11, 0xff80_0000) case 13 => HuffmanSym(14, 0xfff4_0000) case 14 => HuffmanSym(13, 0xffe8_0000)
    case _ => HuffmanSym(28, 0xffff_ffc0)
  }

  function Entry8(i: int): HuffmanSym {
    match i
    case 0 => HuffmanSym(20, 0xfffe_6000) case 1 => HuffmanSym(22, 0xffff_4800) case 2 => HuffmanSym(20, 0xfffe_7000)
    case 3 => HuffmanSym(20, 0xfffe_8000) case 4 => HuffmanSym(22, 0xffff_4c00) case 5 => HuffmanSym(22, 0xffff_5000)
    case 6 => HuffmanSym(22, 0xffff_5400) case 7 => HuffmanSym(23, 0xffff_b200) case 8 => HuffmanSym(22, 0xffff_5800)
    case 9 => HuffmanSym(23, 0xffff_b400) case 10 => HuffmanSym(23, 0xffff_b600) case 11 => HuffmanSym(23, 0xffff_b800)
    case 12 => HuffmanSym(23, 0xffff_ba00) case 13 => HuffmanSym(23, 0xffff_bc00) case 14 => HuffmanSym(24, 0xffff_eb00)
    case _ => HuffmanSym(23, 0xffff_be00)
  }

  function Entry9(i: int): HuffmanSym {
    match i
    case 0 => HuffmanSym(24, 0xffff_ec00) case 1 => HuffmanSym(24, 0xffff_ed00) case 2 => HuffmanSym(22, 0xffff_5c00)
    case 3 => HuffmanSym(23, 0xffff_c000) case 4 => HuffmanSym(24, 0xffff_ee00) case 5 => HuffmanSym(23, 0xffff_c200)
    case 6 => HuffmanSym(23, 0xffff_c400) case 7 => HuffmanSym(23, 0xffff_c600) case 8 => HuffmanSym(23, 0xffff_c800)
    case 9 => HuffmanSym(21, 0xfffe_e000) case 10 => HuffmanSym(22, 0xffff_6000) case 11 => HuffmanSym(23, 0xffff_ca00)
    case 12 => HuffmanSym(22, 0xffff_6400) case 13 => HuffmanSym(23, 0xffff_cc00) case 14 => HuffmanSym(23, 0xffff_ce00)
    case _ => HuffmanSym(24, 0xffff_ef00)
  }

  function Entry10(i: int): HuffmanSym {
    match i
    case 0 => HuffmanSym(22, 0xffff_6800) case 1 => HuffmanSym(21, 0xfffe_e800) case 2 => HuffmanSym(20, 0xfffe_9000)
    case 3 => HuffmanSym(22, 0xffff_6c00) case 4 => HuffmanSym(22, 0xffff_7000) case 5 => HuffmanSym(23, 0xffff_d000)
    case 6 => HuffmanSym(23, 0xffff_d200) case 7 => HuffmanSym(21, 0xfffe_f000) case 8 => HuffmanSym(23, 0xffff_d400)
    case 9 => HuffmanSym(22, 0xffff_7400) case 10 => HuffmanSym(22, 0xffff_7800) case 11 => HuffmanSym(24, 0xffff_f000)
    case 12 => HuffmanSym(21, 0xfffe_f800) case 13 => HuffmanSym(22, 0xffff_7c00) case 14 => HuffmanSym(23, 0xffff_d600)
    case _ => HuffmanSym(23, 0xffff_d800)
  }

  function Entry11(i: int): HuffmanSym {
    match i
    case 0 => HuffmanSym(21, 0xffff_0000) case 1 => HuffmanSym(21, 0xffff_0800) case 2 => HuffmanSym(22, 0xffff_8000)
    case 3 => HuffmanSym(21, 0xffff_1000) case 4 => HuffmanSym(23, 0xffff_da00) case 5 => HuffmanSym(22, 0xffff_8400)
    case 6 => HuffmanSym(23, 0xffff_dc00) case 7 => HuffmanSym(23, 0xffff_de00) case 8 => HuffmanSym(20, 0xfffe_a000)
    case 9 => HuffmanSym(22, 0xffff_8800) case 10 => HuffmanSym(22, 0xffff_8c00) case 11 => HuffmanSym(22, 0xffff_9000)
    case 12 => HuffmanSym(23, 0xffff_e000) case 13 => HuffmanSym(22, 0xffff_9400) case 14 => HuffmanSym(22, 0xffff_9800)
    case _ => HuffmanSym(23, 0xffff_e200)
  }

  function Entry12(i: int): HuffmanSym {
    match i
    case 0 => HuffmanSym(26, 0xffff_f800) case 1 => HuffmanSym(26, 0xffff_f840) case 2 => HuffmanSym(20, 0xfffe_b000)
    case 3 => HuffmanSym(19, 0xfffe_2000) case 4 => HuffmanSym(22, 0xffff_9c00) case 5 => HuffmanSym(23, 0xffff_e400)
    case 6 => HuffmanSym(22, 0xffff_a000) case 7 => HuffmanSym(25, 0xffff_f600) case 8 => HuffmanSym(26, 0xffff_f880)
    case 9 => HuffmanSym(26, 0xffff_f8c0) case 10 => HuffmanSym(26, 0xffff_f900) case 11 => HuffmanSym(27, 0xffff_fbc0)
    case 12 => HuffmanSym(27, 0xffff_fbe0) case 13 => HuffmanSym(26, 0xffff_f940) case 14 => HuffmanSym(24, 0xffff_f100)
    case _ => HuffmanSym(25, 0xffff_f680)
  }

  function Entry13(i: int): HuffmanSym {
    match i
    case 0 => HuffmanSym(19, 0xfffe_4000) case 1 => HuffmanSym(21, 0xffff_1800) case 2 => HuffmanSym(26, 0xffff_f980)
    case 3 => HuffmanSym(27, 0xffff_fc00) case 4 => HuffmanSym(27, 0xffff_fc20) case 5 => HuffmanSym(26, 0xffff_f9c0)
    case 6 => HuffmanSym(27, 0xffff_fc40) case 7 => HuffmanSym(24, 0xffff_f200) case 8 => HuffmanSym(21, 0xffff_2000)
    case 9 => HuffmanSym(21, 0xffff_2800) case 10 => HuffmanSym(26, 0xffff_fa00) case 11 => HuffmanSym(26, 0xffff_fa40)
    case 12 => HuffmanSym(28, 0xffff_ffd0) case 13 => HuffmanSym(27, 0xffff_fc60) case 14 => HuffmanSym(27, 0xffff_fc80)
    case _ => HuffmanSym(27, 0xffff_fca0)
  }

  function Entry14(i: int): HuffmanSym {
    match i
    case 0 => HuffmanSym(20, 0xfffe_c000) case 1 => HuffmanSym(24, 0xffff_f300) case 2 => HuffmanSym(20, 0xfffe_d000)
    case 3 => HuffmanSym(21, 0xffff_3000) case 4 => HuffmanSym(22, 0xffff_a400) case 5 => HuffmanSym(21, 0xffff_3800)
    case 6 => HuffmanSym(21, 0xffff_4000) case 7 => HuffmanSym(23, 0xffff_e600) case 8 => HuffmanSym(22, 0xffff_a800)
    case 9 => HuffmanSym(22, 0xffff_ac00) case 10 => HuffmanSym(25, 0xffff_f700) case 11 => HuffmanSym(25, 0xffff_f780)
    case 12 => HuffmanSym(24, 0xffff_f400) case 13 => HuffmanSym(24, 0xffff_f500) case 14 => HuffmanSym(26, 0xffff_fa80)
    case _ => HuffmanSym(23, 0xffff_e800)
  }

  function Entry15(i: int): HuffmanSym {
    match i
    case 0 => HuffmanSym(26, 0xffff_fac0) case 1 => HuffmanSym(27, 0xffff_fcc0) case 2 => HuffmanSym(26, 0xffff_fb00)
    case 3 => HuffmanSym(26, 0xffff_fb40) case 4 => HuffmanSym(27, 0xffff_fce0) case 5 => HuffmanSym(27, 0xffff_fd00)
    case 6 => HuffmanSym(27, 0xffff_fd20) case 7 => HuffmanSym(27, 0xffff_fd40) case 8 => HuffmanSym(27, 0xffff_fd60)
    case 9 => HuffmanSym(28, 0xffff_ffe0) case 10 => HuffmanSym(27, 0xffff_fd80) case 11 => HuffmanSym(27, 0xffff_fda0)
    case 12 => HuffmanSym(27, 0xffff_fdc0) case 13 => HuffmanSym(27, 0xffff_fde0) case 14 => HuffmanSym(27, 0xffff_fe00)
    case _ => HuffmanSym(26, 0xffff_fb80)
  }

  function Entry16(i: int): HuffmanSym {
    match i
    case _ => HuffmanSym(30, 0xffff_fffc)
  }

  /** The table the encoder and the decoder use. */
  const HUFFMAN_TABLE: Code := seq(257, symbol requires 0 <= symbol < 257 => Entry(symbol))

  /** The code word at a place of the order; each line is one length. */
  function WordAt(place: int): HuffmanSym {
    if place < 0 then HuffmanSym(0, 0)
    else if place < 10 then HuffmanSym(5, 0x0000_0000 + (place - 0) * 0x0800_0000)
    else if place < 36 then HuffmanSym(6, 0x5000_0000 + (place - 10) * 0x0400_0000)
    else if place < 68 then HuffmanSym(7, 0xb800_0000 + (place - 36) * 0x0200_0000)
    else if place < 74 then HuffmanSym(8, 0xf800_0000 + (place - 68) * 0x0100_0000)
    else if place < 79 then HuffmanSym(10, 0xfe00_0000 + (place - 74) * 0x0040_0000)
    else if place < 82 then HuffmanSym(11, 0xff40_0000 + (place - 79) * 0x0020_0000)
    else if place < 84 then HuffmanSym(12, 0xffa0_0000 + (place - 82) * 0x0010_0000)
    else if place < 90 then HuffmanSym(13, 0xffc0_0000 + (place - 84) * 0x0008_0000)
    else if place < 92 then HuffmanSym(14, 0xfff0_0000 + (place - 90) * 0x0004_0000)
    else if place < 95 then HuffmanSym(15, 0xfff8_0000 + (place - 92) * 0x0002_0000)
    else if place < 98 then HuffmanSym(19, 0xfffe_0000 + (place - 95) * 0x0000_2000)
    else if place < 106 then HuffmanSym(20, 0xfffe_6000 + (place - 98) * 0x0000_1000)
    else if place < 119 then HuffmanSym(21, 0xfffe_e000 + (place - 106) * 0x0000_0800)
    else if place < 145 then HuffmanSym(22, 0xffff_4800 + (place - 119) * 0x0000_0400)
    else if place < 174 then HuffmanSym(23, 0xffff_b000 + (place - 145) * 0x0000_0200)
    else if place < 186 then HuffmanSym(24, 0xffff_ea00 + (place - 174) * 0x0000_0100)
    else if place < 190 then HuffmanSym(25, 0xffff_f600 + (place - 186) * 0x0000_0080)
    else if place < 205 then HuffmanSym(26, 0xffff_f800 + (place - 190) * 0x0000_0040)
    else if place < 224 then HuffmanSym(27, 0xffff_fbc0 + (place - 205) * 0x0000_0020)
    else if place < 253 then HuffmanSym(28, 0xffff_fe20 + (place - 224) * 0x0000_0010)
    else HuffmanSym(30, 0xffff_fff0 + (place - 253) * 0x0000_0004)
  }

  /** The symbols in the order of their code words. */
  function Order(place: int): int {
    match place / 16
    case 0 => Order0(place % 16) case 1 => Order1(place % 16) case 2 => Order2(place % 16) case 3 => Order3(place % 16)
    case 4 => Order4(place % 16) case 5 => Order5(place % 16) case 6 => Order6(place % 16) case 7 => Order7(place % 16)
    case 8 => Order8(place % 16) case 9 => Order9(place % 16) case 10 => Order10(place % 16) case 11 => Order11(place % 16)
    case 12 => Order12(place % 16) case 13 => Order13(place % 16) case 14 => Order14(place % 16) case 15 => Order15(place % 16)
    case _ => Order16(place % 16)
  }

  function Order0(i: int): int {
    match i
    case 0 => 48 case 1 => 49 case 2 => 50 case 3 => 97 case 4 => 99 case 5 => 101 case 6 => 105 case 7 => 111
    case 8 => 115 case 9 => 116 case 10 => 32 case 11 => 37 case 12 => 45 case 13 => 46 case 14 => 47 case _ => 51
  }

  function Order1(i: int): int {
    match i
    case 0 => 52 case 1 => 53 case 2 => 54 case 3 => 55 case 4 => 56 case 5 => 57 case 6 => 61 case 7 => 65
    case 8 => 95 case 9 => 98 case 10 => 100 case 11 => 102 case 12 => 103 case 13 => 104 case 14 => 108 case _ => 109
  }

  function Order2(i: int): int {
    match i
    case 0 => 110 case 1 => 112 case 2 => 114 case 3 => 117 case 4 => 58 case 5 => 66 case 6 => 67 case 7 => 68
    case 8 => 69 case 9 => 70 case 10 => 71 case 11 => 72 case 12 => 73 case 13 => 74 case 14 => 75 case _ => 76
  }

  function Order3(i: int): int {
    match i
    case 0 => 77 case 1 => 78 case 2 => 79 case 3 => 80 case 4 => 81 case 5 => 82 case 6 => 83 case 7 => 84
    case 8 => 85 case 9 => 86 case 10 => 87 case 11 => 89 case 12 => 106 case 13 => 107 case 14 => 113 case _ => 118
  }

  function Order4(i: int): int {
    match i
    case 0 => 119 case 1 => 120 case 2 => 121 case 3 => 122 case 4 => 38 case 5 => 42 case 6 => 44 case 7 => 59
    case 8 => 88 case 9 => 90 case 10 => 33 case 11 => 34 case 12 => 40 case 13 => 41 case 14 => 63 case _ => 39
  }

  function Order5(i: int): int {
    match i
    case 0 => 43 case 1 => 124 case 2 => 35 case 3 => 62 case 4 => 0 case 5 => 36 case 6 => 64 case 7 => 91
    case 8 => 93 case 9 => 126 case 10 => 94 case 11 => 125 case 12 => 60 case 13 => 96 case 14 => 123 case _ => 92
  }

  function Order6(i: int): int {
    match i
    case 0 => 195 case 1 => 208 case 2 => 128 case 3 => 130 case 4 => 131 case 5 => 162 case 6 => 184 case 7 => 194
    case 8 => 224 case 9 => 226 case 10 => 153 case 11 => 161 case 12 => 167 case 13 => 172 case 14 => 176 case _ => 177
  }

  function Order7(i: int): int {
    match i
    case 0 => 179 case 1 => 209 case 2 => 216 case 3 => 217 case 4 => 227 case 5 => 229 case 6 => 230 case 7 => 129
    case 8 => 132 case 9 => 133 case 10 => 134 case 11 => 136 case 12 => 146 case 13 => 154 case 14 => 156 case _ => 160
  }

  function Order8(i: int): int {
    match i
    case 0 => 163 case 1 => 164 case 2 => 169 case 3 => 170 case 4 => 173 case 5 => 178 case 6 => 181 case 7 => 185
    case 8 => 186 case 9 => 187 case 10 => 189 case 11 => 190 case 12 => 196 case 13 => 198 case 14 => 228 case _ => 232
  }

  function Order9(i: int): int {
    match i
    case 0 => 233 case 1 => 1 case 2 => 135 case 3 => 137 case 4 => 138 case 5 => 139 case 6 => 140 case 7 => 141
    case 8 => 143 case 9 => 147 case 10 => 149 case 11 => 150 case 12 => 151 case 13 => 152 case 14 => 155 case _ => 157
  }

  function Order10(i: int): int {
    match i
    case 0 => 158 case 1 => 165 case 2 => 166 case 3 => 168 case 4 => 174 case 5 => 175 case 6 => 180 case 7 => 182
    case 8 => 183 case 9 => 188 case 10 => 191 case 11 => 197 case 12 => 231 case 13 => 239 case 14 => 9 case _ => 142
  }

  function Order11(i: int): int {
    match i
    case 0 => 144 case 1 => 145 case 2 => 148 case 3 => 159 case 4 => 171 case 5 => 206 case 6 => 215 case 7 => 225
    case 8 => 236 case 9 => 237 case 10 => 199 case 11 => 207 case 12 => 234 case 13 => 235 case 14 => 192 case _ => 193
  }

  function Order12(i: int): int {
    match i
    case 0 => 200 case 1 => 201 case 2 => 202 case 3 => 205 case 4 => 210 case 5 => 213 case 6 => 218 case 7 => 219
    case 8 => 238 case 9 => 240 case 10 => 242 case 11 => 243 case 12 => 255 case 13 => 203 case 14 => 204 case _ => 211
  }

  function Order13(i: int): int {
    match i
    case 0 => 212 case 1 => 214 case 2 => 221 case 3 => 222 case 4 => 223 case 5 => 241 case 6 => 244 case 7 => 245
    case 8 => 246 case 9 => 247 case 10 => 248 case 11 => 250 case 12 => 251 case 13 => 252 case 14 => 253 case _ => 254
  }

  function Order14(i: int): int {
    match i
    case 0 => 2 case 1 => 3 case 2 => 4 case 3 => 5 case 4 => 6 case 5 => 7 case 6 => 8 case 7 => 11
    case 8 => 12 case 9 => 14 case 10 => 15 case 11 => 16 case 12 => 17 case 13 => 18 case 14 => 19 case _ => 20
  }

  function Order15(i: int): int {
    match i
    case 0 => 21 case 1 => 23 case 2 => 24 case 3 => 25 case 4 => 26 case 5 => 27 case 6 => 28 case 7 => 29
    case 8 => 30 case 9 => 31 case 10 => 127 case 11 => 220 case 12 => 249 case 13 => 10 case 14 => 13 case _ => 22
  }

  function Order16(i: int): int {
    match i
    case _ => 256
  }

  /** The place of a symbol in that order. */
  function Rank(symbol: int): int {
    match symbol / 16
    case 0 => Rank0(symbol % 16) case 1 => Rank1(symbol % 16) case 2 => Rank2(symbol % 16) case 3 => Rank3(symbol % 16)
    case 4 => Rank4(symbol % 16) case 5 => Rank5(symbol % 16) case 6 => Rank6(symbol % 16) case 7 => Rank7(symbol % 16)
    case 8 => Rank8(symbol % 16) case 9 => Rank9(symbol % 16) case 10 => Rank10(symbol % 16) case 11 => Rank11(symbol % 16)
    case 12 => Rank12(symbol % 16) case 13 => Rank13(symbol % 16) case 14 => Rank14(symbol % 16) case 15 => Rank15(symbol % 16)
    case _ => Rank16(symbol % 16)
  }

  function Rank0(i: int): int {
    match i
    case 0 => 84 case 1 => 145 case 2 => 224 case 3 => 225 case 4 => 226 case 5 => 227 case 6 => 228 case 7 => 229
    case 8 => 230 case 9 => 174 case 10 => 253 case 11 => 231 case 12 => 232 case 13 => 254 case 14 => 233 case _ => 234
  }

  function Rank1(i: int): int {
    match i
    case 0 => 235 case 1 => 236 case 2 => 237 case 3 => 238 case 4 => 239 case 5 => 240 case 6 => 255 case 7 => 241
    case 8 => 242 case 9 => 243 case 10 => 244 case 11 => 245 case 12 => 246 case 13 => 247 case 14 => 248 case _ => 249
  }

  function Rank2(i: int): int {
    match i
    case 0 => 10 case 1 => 74 case 2 => 75 case 3 => 82 case 4 => 85 case 5 => 11 case 6 => 68 case 7 => 79
    case 8 => 76 case 9 => 77 case 10 => 69 case 11 => 80 case 12 => 70 case 13 => 12 case 14 => 13 case _ => 14
  }

  function Rank3(i: int): int {
    match i
    case 0 => 0 case 1 => 1 case 2 => 2 case 3 => 15 case 4 => 16 case 5 => 17 case 6 => 18 case 7 => 19
    case 8 => 20 case 9 => 21 case 10 => 36 case 11 => 71 case 12 => 92 case 13 => 22 case 14 => 83 case _ => 78
  }

  function Rank4(i: int): int {
    match i
    case 0 => 86 case 1 => 23 case 2 => 37 case 3 => 38 case 4 => 39 case 5 => 40 case 6 => 41 case 7 => 42
    case 8 => 43 case 9 => 44 case 10 => 45 case 11 => 46 case 12 => 47 case 13 => 48 case 14 => 49 case _ => 50
  }

  function Rank5(i: int): int {
    match i
    case 0 => 51 case 1 => 52 case 2 => 53 case 3 => 54 case 4 => 55 case 5 => 56 case 6 => 57 case 7 => 58
    case 8 => 72 case 9 => 59 case 10 => 73 case 11 => 87 case 12 => 95 case 13 => 88 case 14 => 90 case _ => 24
  }

  function Rank6(i: int): int {
    match i
    case 0 => 93 case 1 => 3 case 2 => 25 case 3 => 4 case 4 => 26 case 5 => 5 case 6 => 27 case 7 => 28
    case 8 => 29 case 9 => 6 case 10 => 60 case 11 => 61 case 12 => 30 case 13 => 31 case 14 => 32 case _ => 7
  }

  function Rank7(i: int): int {
    match i
    case 0 => 33 case 1 => 62 case 2 => 34 case 3 => 8 case 4 => 9 case 5 => 35 case 6 => 63 case 7 => 64
    case 8 => 65 case 9 => 66 case 10 => 67 case 11 => 94 case 12 => 81 case 13 => 91 case 14 => 89 case _ => 250
  }

  function Rank8(i: int): int {
    match i
    case 0 => 98 case 1 => 119 case 2 => 99 case 3 => 100 case 4 => 120 case 5 => 121 case 6 => 122 case 7 => 146
    case 8 => 123 case 9 => 147 case 10 => 148 case 11 => 149 case 12 => 150 case 13 => 151 case 14 => 175 case _ => 152
  }

  function Rank9(i: int): int {
    match i
    case 0 => 176 case 1 => 177 case 2 => 124 case 3 => 153 case 4 => 178 case 5 => 154 case 6 => 155 case 7 => 156
    case 8 => 157 case 9 => 106 case 10 => 125 case 11 => 158 case 12 => 126 case 13 => 159 case 14 => 160 case _ => 179
  }

  function Rank10(i: int): int {
    match i
    case 0 => 127 case 1 => 107 case 2 => 101 case 3 => 128 case 4 => 129 case 5 => 161 case 6 => 162 case 7 => 108
    case 8 => 163 case 9 => 130 case 10 => 131 case 11 => 180 case 12 => 109 case 13 => 132 case 14 => 164 case _ => 165
  }

  function Rank11(i: int): int {
    match i
    case 0 => 110 case 1 => 111 case 2 => 133 case 3 => 112 case 4 => 166 case 5 => 134 case 6 => 167 case 7 => 168
    case 8 => 102 case 9 => 135 case 10 => 136 case 11 => 137 case 12 => 169 case 13 => 138 case 14 => 139 case _ => 170
  }

  function Rank12(i: int): int {
    match i
    case 0 => 190 case 1 => 191 case 2 => 103 case 3 => 96 case 4 => 140 case 5 => 171 case 6 => 141 case 7 => 186
    case 8 => 192 case 9 => 193 case 10 => 194 case 11 => 205 case 12 => 206 case 13 => 195 case 14 => 181 case _ => 187
  }

  function Rank13(i: int): int {
    match i
    case 0 => 97 case 1 => 113 case 2 => 196 case 3 => 207 case 4 => 208 case 5 => 197 case 6 => 209 case 7 => 182
    case 8 => 114 case 9 => 115 case 10 => 198 case 11 => 199 case 12 => 251 case 13 => 210 case 14 => 211 case _ => 212
  }

  function Rank14(i: int): int {
    match i
    case 0 => 104 case 1 => 183 case 2 => 105 case 3 => 116 case 4 => 142 case 5 => 117 case 6 => 118 case 7 => 172
    case 8 => 143 case 9 => 144 case 10 => 188 case 11 => 189 case 12 => 184 case 13 => 185 case 14 => 200 case _ => 173
  }

  function Rank15(i: int): int {
    match i
    case 0 => 201 case 1 => 213 case 2 => 202 case 3 => 203 case 4 => 214 case 5 => 215 case 6 => 216 case 7 => 217
    case 8 => 218 case 9 => 252 case 10 => 219 case 11 => 220 case 12 => 221 case 13 => 222 case 14 => 223 case _ => 204
  }

  function Rank16(i: int): int {
    match i
    case _ => 256
  }

  /** The order names the symbol at its rank, and its code word is the one of that place. */
  predicate Ranked(symbol: int) {
    0 <= Rank(symbol) < 257 && Order(Rank(symbol)) == symbol && Entry(symbol) == WordAt(Rank(symbol))
  }

  predicate Ordered(place: int) {
    0 <= Order(place) < 257 && Rank(Order(place)) == place
  }

  lemma Ranked0(s: int) requires 0 <= s < 32 ensures Ranked(s) { }
  lemma Ranked1(s: int) requires 32 <= s < 64 ensures Ranked(s) { }
  lemma Ranked2(s: int) requires 64 <= s < 96 ensures Ranked(s) { }
  lemma Ranked3(s: int) requires 96 <= s < 128 ensures Ranked(s) { }
  lemma Ranked4(s: int) requires 128 <= s < 160 ensures Ranked(s) { }
  lemma Ranked5(s: int) requires 160 <= s < 192 ensures Ranked(s) { }
  lemma Ranked6(s: int) requires 192 <= s < 224 ensures Ranked(s) { }
  lemma Ranked7(s: int) requires 224 <= s < 256 ensures Ranked(s) { }

  lemma Ordered0(p: int) requires 0 <= p < 32 ensures Ordered(p) { }
  lemma Ordered1(p: int) requires 32 <= p < 64 ensures Ordered(p) { }
  lemma Ordered2(p: int) requires 64 <= p < 96 ensures Ordered(p) { }
  lemma Ordered3(p: int) requires 96 <= p < 128 ensures Ordered(p) { }
  lemma Ordered4(p: int) requires 128 <= p < 160 ensures Ordered(p) { }
  lemma Ordered5(p: int) requires 160 <= p < 192 ensures Ordered(p) { }
  lemma Ordered6(p: int) requires 192 <= p < 224 ensures Ordered(p) { }
  lemma Ordered7(p: int) requires 224 <= p < 256 ensures Ordered(p) { }

  /** The order and the ranks are inverse to each other. */
  lemma OrderInverse(i: int)
    requires 0 <= i < 257
    ensures Ranked(i) && Ordered(i)
  {
    match i / 32 {
      case 0 => Ranked0(i); Ordered0(i);
      case 1 => Ranked1(i); Ordered1(i);
      case 2 => Ranked2(i); Ordered2(i);
      case 3 => Ranked3(i); Ordered3(i);
      case 4 => Ranked4(i); Ordered4(i);
      case 5 => Ranked5(i); Ordered5(i);
      case 6 => Ranked6(i); Ordered6(i);
      case 7 => Ranked7(i); Ordered7(i);
      case _ => assert Ranked(256);
    }
  }

  lemma Aligned(code: nat, q: nat, n: nat, span: nat)
    requires span == Pow2(n) && code == q * span
    ensures LowBits(code, n) == 0
  {
    ShlIsProduct(q, n);
    LowBitsOfShl(q, n);
  }

  lemma {:induction false} LowBitsOfShl(v: nat, n: nat)
    ensures LowBits(Shl(v, n), n) == 0
    decreases n
  {
    if n > 0 {
      ShlDouble(v, n - 1);
      LowBitsOfShl(v, n - 1);
    }
  }

  lemma {:induction false} ShlDouble(v: nat, n: nat)
    ensures Shl(v, n + 1) == 2 * Shl(v, n)
    decreases n
  {
    if n > 0 {
      ShlDouble(2 * v, n - 1);
    }
  }

  lemma Spans()
    ensures Pow2(27) == 0x0800_0000 && Pow2(26) == 0x0400_0000 && Pow2(25) == 0x0200_0000
    ensures Pow2(24) == 0x0100_0000 && Pow2(22) == 0x0040_0000 && Pow2(21) == 0x0020_0000
    ensures Pow2(20) == 0x0010_0000 && Pow2(19) == 0x0008_0000 && Pow2(18) == 0x0004_0000
    ensures Pow2(17) == 0x0002_0000 && Pow2(13) == 0x0000_2000 && Pow2(12) == 0x0000_1000
    ensures Pow2(11) == 0x0000_0800 && Pow2(10) == 0x0000_0400 && Pow2(9) == 0x0000_0200
    ensures Pow2(8) == 0x0000_0100 && Pow2(7) == 0x0000_0080 && Pow2(6) == 0x0000_0040
    ensures Pow2(5) == 0x0000_0020 && Pow2(4) == 0x0000_0010 && Pow2(2) == 0x0000_0004
  {
  }

  lemma WordIsAligned(place: int)
    requires 0 <= place < 257
    ensures LowBits(WordAt(place).code, 32 - WordAt(place).bits) == 0
  {
    Spans();
    var code := WordAt(place).code;
    if place < 10 {
      Aligned(code, 0 + (place - 0), 27, 0x0800_0000);
    } else if place < 36 {
      Aligned(code, 20 + (place - 10), 26, 0x0400_0000);
    } else if place < 68 {
      Aligned(code, 92 + (place - 36), 25, 0x0200_0000);
    } else if place < 74 {
      Aligned(code, 248 + (place - 68), 24, 0x0100_0000);
    } else if place < 79 {
      Aligned(code, 1016 + (place - 74), 22, 0x0040_0000);
    } else if place < 82 {
      Aligned(code, 2042 + (place - 79), 21, 0x0020_0000);
    } else if place < 84 {
      Aligned(code, 4090 + (place - 82), 20, 0x0010_0000);
    } else if place < 90 {
      Aligned(code, 8184 + (place - 84), 19, 0x0008_0000);
    } else if place < 92 {
      Aligned(code, 16380 + (place - 90), 18, 0x0004_0000);
    } else if place < 95 {
      Aligned(code, 32764 + (place - 92), 17, 0x0002_0000);
    } else if place < 98 {
      Aligned(code, 524272 + (place - 95), 13, 0x0000_2000);
    } else if place < 106 {
      Aligned(code, 1048550 + (place - 98), 12, 0x0000_1000);
    } else if place < 119 {
      Aligned(code, 2097116 + (place - 106), 11, 0x0000_0800);
    } else if place < 145 {
      Aligned(code, 4194258 + (place - 119), 10, 0x0000_0400);
    } else if place < 174 {
      Aligned(code, 8388568 + (place - 145), 9, 0x0000_0200);
    } else if place < 186 {
      Aligned(code, 16777194 + (place - 174), 8, 0x0000_0100);
    } else if place < 190 {
      Aligned(code, 33554412 + (place - 186), 7, 0x0000_0080);
    } else if place < 205 {
      Aligned(code, 67108832 + (place - 190), 6, 0x0000_0040);
    } else if place < 224 {
      Aligned(code, 134217694 + (place - 205), 5, 0x0000_0020);
    } else if place < 253 {
      Aligned(code, 268435426 + (place - 224), 4, 0x0000_0010);
    } else {
      Aligned(code, 1073741820 + (place - 253), 2, 0x0000_0004);
    }
  }

  /** Each code word starts where the one before it ends; the last one ends at 2^32. */
  lemma WordsAreAdjacent(place: int)
    requires 0 <= place < 257
    ensures 5 <= WordAt(place).bits <= 30 && 0 <= WordAt(place).code
    ensures WordAt(place).code + Span(WordAt(place).bits) == if place == 256 then TWO_32 else WordAt(place + 1).code
  {
    Spans();
  }

  lemma {:induction false} WordsAreOrdered(place: int, later: int)
    requires 0 <= place < later < 257
    ensures 5 <= WordAt(place).bits <= 30
    ensures WordAt(place).code + Span(WordAt(place).bits) <= WordAt(later).code
    decreases later
  {
    WordsAreAdjacent(later - 1);
    WordsAreAdjacent(place);
    if place < later - 1 {
      WordsAreOrdered(place, later - 1);
    }
  }

  lemma {:induction false} WordsAreGood(place: int)
    requires 0 <= place < 257
    ensures GoodSym(WordAt(place))
    decreases 257 - place
  {
    WordsAreAdjacent(place);
    WordIsAligned(place);
    if place < 256 {
      WordsAreGood(place + 1);
    }
  }

  lemma {:induction false} CoveringPlace(x: int, place: int) returns (p: int)
    requires 0 <= place < 257 && GoodSym(WordAt(place)) && WordAt(place).code <= x < TWO_32
    ensures 0 <= p < 257 && GoodSym(WordAt(p)) && Covers(WordAt(p), x)
    decreases 257 - place
  {
    WordsAreAdjacent(place);
    if x < WordAt(place).code + Span(WordAt(place).bits) {
      p := place;
    } else {
      WordsAreGood(place + 1);
      p := CoveringPlace(x, place + 1);
    }
  }


  lemma EntriesAreGood()
    ensures GoodSyms(HUFFMAN_TABLE)
  {
    forall s | 0 <= s <= EOS ensures GoodSym(HUFFMAN_TABLE[s]) {
      OrderInverse(s);
      WordsAreGood(Rank(s));
    }
  }

  lemma PlacesAreApart(p: int, q: int)
    requires 0 <= p < 257 && 0 <= q < 257 && p != q
    ensures GoodSym(WordAt(p)) && GoodSym(WordAt(q)) && Apart(WordAt(p), WordAt(q))
  {
    WordsAreGood(p);
    WordsAreGood(q);
    if p < q {
      WordsAreOrdered(p, q);
    } else {
      WordsAreOrdered(q, p);
    }
  }

  /** Distinct symbols have distinct places. */
  lemma EntryPlaces(s: int, u: int) returns (p: int, q: int)
    requires 0 <= s < u <= EOS
    ensures 0 <= p < 257 && 0 <= q < 257 && p != q && Entry(s) == WordAt(p) && Entry(u) == WordAt(q)
  {
    OrderInverse(s);
    OrderInverse(u);
    p, q := Rank(s), Rank(u);
  }

  lemma EntriesAreApart(s: int, u: int)
    requires 0 <= s < u <= EOS
    ensures GoodSym(Entry(s)) && GoodSym(Entry(u)) && Apart(Entry(s), Entry(u))
  {
    var p, q := EntryPlaces(s, u);
    PlacesAreApart(p, q);
  }

  lemma EntriesCover(x: int)
    requires 0 <= x < TWO_32
    ensures GoodSyms(HUFFMAN_TABLE) && Covered(HUFFMAN_TABLE, x)
  {
    EntriesAreGood();
    WordsAreGood(0);
    var p := CoveringPlace(x, 0);
    OrderInverse(p);
    OrderInverse(Order(p));
    assert Covers(HUFFMAN_TABLE[Order(p)], x);
  }

  lemma TableIsSeparate()
    ensures GoodSyms(HUFFMAN_TABLE) && Separate(HUFFMAN_TABLE)
  {
    EntriesAreGood();
    forall s, u | 0 <= s < u <= EOS ensures Apart(HUFFMAN_TABLE[s], HUFFMAN_TABLE[u]) {
      EntriesAreApart(s, u);
    }
  }

  lemma TableIsComplete()
    ensures GoodSyms(HUFFMAN_TABLE) && Complete(HUFFMAN_TABLE)
  {
    EntriesAreGood();
    forall x | 0 <= x < TWO_32 ensures Covered(HUFFMAN_TABLE, x) {
      EntriesCover(x);
    }
  }

  lemma TableEos()
    ensures HUFFMAN_TABLE[EOS] == HuffmanSym(30, 0xffff_fffc)
  {
    assert Entry(256) == HuffmanSym(30, 0xffff_fffc);
  }

  /** The table is a prefix code that fills the space of 32-bit words, with EOS thirty ones. */
  lemma TableIsGood()
    ensures GoodCode(HUFFMAN_TABLE)
  {
    TableIsSeparate();
    TableIsComplete();
    TableEos();
  }
}
