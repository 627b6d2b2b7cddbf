/**
 * The byte-lane-parallel operations of the table-free AES: each works on all
 * byte lanes of a 32-bit word or of a 64-bit lane at once, with masked shifts
 * that never carry a bit from one byte into another.
 */
module LaneOps {
  import opened Field
  import opened Bytes
  import opened SBoxTable

  /** XtimeWord: xtime of each of the four bytes of a word.  The top bit of each
      byte is cleared before the shift and turned into the {1b} reduction by
      subtracting its copy shifted to bit 0. */
  function XtimeWord(w: bv32): bv32
  {
    var a := w;
    var b := a & 0x80808080;
    var a := a ^ b;
    var b := b - (b >> 7);
    var b := b & 0x1B1B1B1B;
    var b := b ^ (a << 1);
    b
  }

  /** XtimeLong: xtime of each of the eight bytes of a lane. */
  function XtimeLong(w: bv64): bv64
  {
    var a := w;
    var b := a & 0x8080808080808080;
    var a := a ^ b;
    var b := b - (b >> 7);
    var b := b & 0x1B1B1B1B1B1B1B1B;
    var b := b ^ (a << 1);
    b
  }

  /** SubWord: the S-box of FIPS 197 section 5.1.1 on each byte of a word, as a fixed
      sequence of masked shifts, ANDs and XORs (an inversion in GF(2^8) by a
      tower of subfields between two affine maps). */
  function SubWord(x: bv32): bv32
  {
    var y := ((x & 0xFEFEFEFE) >> 1) | ((x & 0x01010101) << 7);
    var x := x & (0xDDDDDDDD);
    var x := x ^ (y & 0x57575757);
    var y := ((y & 0xFEFEFEFE) >> 1) | ((y & 0x01010101) << 7);
    var x := x ^ (y & 0x1C1C1C1C);
    var y := ((y & 0xFEFEFEFE) >> 1) | ((y & 0x01010101) << 7);
    var x := x ^ (y & 0x4A4A4A4A);
    var y := ((y & 0xFEFEFEFE) >> 1) | ((y & 0x01010101) << 7);
    var x := x ^ (y & 0x42424242);
    var y := ((y & 0xFEFEFEFE) >> 1) | ((y & 0x01010101) << 7);
    var x := x ^ (y & 0x64646464);
    var y := ((y & 0xFEFEFEFE) >> 1) | ((y & 0x01010101) << 7);
    var x := x ^ (y & 0xE0E0E0E0);
    var a1 := x;
    var a1 := a1 ^ ((x & 0xF0F0F0F0) >> 4);
    var a2 := ((x & 0xCCCCCCCC) >> 2) | ((x & 0x33333333) << 2);
    var a3 := x & a1;
    var a3 := a3 ^ ((a3 & 0xAAAAAAAA) >> 1);
    var a3 := a3 ^ ((((x << 1) & a1) ^ ((a1 << 1) & x)) & 0xAAAAAAAA);
    var a4 := a2 & a1;
    var a4 := a4 ^ ((a4 & 0xAAAAAAAA) >> 1);
    var a4 := a4 ^ ((((a2 << 1) & a1) ^ ((a1 << 1) & a2)) & 0xAAAAAAAA);
    var a5 := (a3 & 0xCCCCCCCC) >> 2;
    var a3 := a3 ^ (((a4 << 2) ^ a4) & 0xCCCCCCCC);
    var a4 := a5 & 0x22222222;
    var a4 := a4 | (a4 >> 1);
    var a4 := a4 ^ ((a5 << 1) & 0x22222222);
    var a3 := a3 ^ (a4);
    var a5 := a3 & 0xA0A0A0A0;
    var a5 := a5 | (a5 >> 1);
    var a5 := a5 ^ ((a3 << 1) & 0xA0A0A0A0);
    var a4 := a5 & 0xC0C0C0C0;
    var a6 := a4 >> 2;
    var a4 := a4 ^ ((a5 << 2) & 0xC0C0C0C0);
    var a5 := a6 & 0x20202020;
    var a5 := a5 | (a5 >> 1);
    var a5 := a5 ^ ((a6 << 1) & 0x20202020);
    var a4 := a4 | (a5);
    var a3 := a3 ^ (a4 >> 4);
    var a3 := a3 & (0x0F0F0F0F);
    var a2 := a3;
    var a2 := a2 ^ ((a3 & 0x0C0C0C0C) >> 2);
    var a4 := a3 & a2;
    var a4 := a4 ^ ((a4 & 0x0A0A0A0A) >> 1);  // a 40-bit literal in the C code; on a 32-bit operand it masks these bits
    var a4 := a4 ^ ((((a3 << 1) & a2) ^ ((a2 << 1) & a3)) & 0x0A0A0A0A);
    var a5 := a4 & 0x08080808;
    var a5 := a5 | (a5 >> 1);
    var a5 := a5 ^ ((a4 << 1) & 0x08080808);
    var a4 := a4 ^ (a5 >> 2);
    var a4 := a4 & (0x03030303);
    var a4 := a4 ^ ((a4 & 0x02020202) >> 1);
    var a4 := a4 | (a4 << 2);
    var a3 := a2 & a4;
    var a3 := a3 ^ ((a3 & 0x0A0A0A0A) >> 1);
    var a3 := a3 ^ ((((a2 << 1) & a4) ^ ((a4 << 1) & a2)) & 0x0A0A0A0A);
    var a3 := a3 | (a3 << 4);
    var a2 := ((a1 & 0xCCCCCCCC) >> 2) | ((a1 & 0x33333333) << 2);
    var x := a1 & a3;
    var x := x ^ ((x & 0xAAAAAAAA) >> 1);
    var x := x ^ ((((a1 << 1) & a3) ^ ((a3 << 1) & a1)) & 0xAAAAAAAA);
    var a4 := a2 & a3;
    var a4 := a4 ^ ((a4 & 0xAAAAAAAA) >> 1);
    var a4 := a4 ^ ((((a2 << 1) & a3) ^ ((a3 << 1) & a2)) & 0xAAAAAAAA);
    var a5 := (x & 0xCCCCCCCC) >> 2;
    var x := x ^ (((a4 << 2) ^ a4) & 0xCCCCCCCC);
    var a4 := a5 & 0x22222222;
    var a4 := a4 | (a4 >> 1);
    var a4 := a4 ^ ((a5 << 1) & 0x22222222);
    var x := x ^ (a4);
    var y := ((x & 0xFEFEFEFE) >> 1) | ((x & 0x01010101) << 7);
    var x := x & (0x39393939);
    var x := x ^ (y & 0x3F3F3F3F);
    var y := ((y & 0xFCFCFCFC) >> 2) | ((y & 0x03030303) << 6);
    var x := x ^ (y & 0x97979797);
    var y := ((y & 0xFEFEFEFE) >> 1) | ((y & 0x01010101) << 7);
    var x := x ^ (y & 0x9B9B9B9B);
    var y := ((y & 0xFEFEFEFE) >> 1) | ((y & 0x01010101) << 7);
    var x := x ^ (y & 0x3C3C3C3C);
    var y := ((y & 0xFEFEFEFE) >> 1) | ((y & 0x01010101) << 7);
    var x := x ^ (y & 0xDDDDDDDD);
    var y := ((y & 0xFEFEFEFE) >> 1) | ((y & 0x01010101) << 7);
    var x := x ^ (y & 0x72727272);
    var x := x ^ (0x63636363);
    x
  }

  /** SubLong: the same sequence of operations on the eight bytes of a lane. */
  function SubLong(x: bv64): bv64
  {
    var y := ((x & 0xFEFEFEFEFEFEFEFE) >> 1) | ((x & 0x0101010101010101) << 7);
    var x := x & (0xDDDDDDDDDDDDDDDD);
    var x := x ^ (y & 0x5757575757575757);
    var y := ((y & 0xFEFEFEFEFEFEFEFE) >> 1) | ((y & 0x0101010101010101) << 7);
    var x := x ^ (y & 0x1C1C1C1C1C1C1C1C);
    var y := ((y & 0xFEFEFEFEFEFEFEFE) >> 1) | ((y & 0x0101010101010101) << 7);
    var x := x ^ (y & 0x4A4A4A4A4A4A4A4A);
    var y := ((y & 0xFEFEFEFEFEFEFEFE) >> 1) | ((y & 0x0101010101010101) << 7);
    var x := x ^ (y & 0x4242424242424242);
    var y := ((y & 0xFEFEFEFEFEFEFEFE) >> 1) | ((y & 0x0101010101010101) << 7);
    var x := x ^ (y & 0x6464646464646464);
    var y := ((y & 0xFEFEFEFEFEFEFEFE) >> 1) | ((y & 0x0101010101010101) << 7);
    var x := x ^ (y & 0xE0E0E0E0E0E0E0E0);
    var a1 := x;
    var a1 := a1 ^ ((x & 0xF0F0F0F0F0F0F0F0) >> 4);
    var a2 := ((x & 0xCCCCCCCCCCCCCCCC) >> 2) | ((x & 0x3333333333333333) << 2);
    var a3 := x & a1;
    var a3 := a3 ^ ((a3 & 0xAAAAAAAAAAAAAAAA) >> 1);
    var a3 := a3 ^ ((((x << 1) & a1) ^ ((a1 << 1) & x)) & 0xAAAAAAAAAAAAAAAA);
    var a4 := a2 & a1;
    var a4 := a4 ^ ((a4 & 0xAAAAAAAAAAAAAAAA) >> 1);
    var a4 := a4 ^ ((((a2 << 1) & a1) ^ ((a1 << 1) & a2)) & 0xAAAAAAAAAAAAAAAA);
    var a5 := (a3 & 0xCCCCCCCCCCCCCCCC) >> 2;
    var a3 := a3 ^ (((a4 << 2) ^ a4) & 0xCCCCCCCCCCCCCCCC);
    var a4 := a5 & 0x2222222222222222;
    var a4 := a4 | (a4 >> 1);
    var a4 := a4 ^ ((a5 << 1) & 0x2222222222222222);
    var a3 := a3 ^ (a4);
    var a5 := a3 & 0xA0A0A0A0A0A0A0A0;
    var a5 := a5 | (a5 >> 1);
    var a5 := a5 ^ ((a3 << 1) & 0xA0A0A0A0A0A0A0A0);
    var a4 := a5 & 0xC0C0C0C0C0C0C0C0;
    var a6 := a4 >> 2;
    var a4 := a4 ^ ((a5 << 2) & 0xC0C0C0C0C0C0C0C0);
    var a5 := a6 & 0x2020202020202020;
    var a5 := a5 | (a5 >> 1);
    var a5 := a5 ^ ((a6 << 1) & 0x2020202020202020);
    var a4 := a4 | (a5);
    var a3 := a3 ^ (a4 >> 4);
    var a3 := a3 & (0x0F0F0F0F0F0F0F0F);
    var a2 := a3;
    var a2 := a2 ^ ((a3 & 0x0C0C0C0C0C0C0C0C) >> 2);
    var a4 := a3 & a2;
    var a4 := a4 ^ ((a4 & 0x0A0A0A0A0A0A0A0A) >> 1);
    var a4 := a4 ^ ((((a3 << 1) & a2) ^ ((a2 << 1) & a3)) & 0x0A0A0A0A0A0A0A0A);
    var a5 := a4 & 0x0808080808080808;
    var a5 := a5 | (a5 >> 1);
    var a5 := a5 ^ ((a4 << 1) & 0x0808080808080808);
    var a4 := a4 ^ (a5 >> 2);
    var a4 := a4 & (0x0303030303030303);
    var a4 := a4 ^ ((a4 & 0x0202020202020202) >> 1);
    var a4 := a4 | (a4 << 2);
    var a3 := a2 & a4;
    var a3 := a3 ^ ((a3 & 0x0A0A0A0A0A0A0A0A) >> 1);
    var a3 := a3 ^ ((((a2 << 1) & a4) ^ ((a4 << 1) & a2)) & 0x0A0A0A0A0A0A0A0A);
    var a3 := a3 | (a3 << 4);
    var a2 := ((a1 & 0xCCCCCCCCCCCCCCCC) >> 2) | ((a1 & 0x3333333333333333) << 2);
    var x := a1 & a3;
    var x := x ^ ((x & 0xAAAAAAAAAAAAAAAA) >> 1);
    var x := x ^ ((((a1 << 1) & a3) ^ ((a3 << 1) & a1)) & 0xAAAAAAAAAAAAAAAA);
    var a4 := a2 & a3;
    var a4 := a4 ^ ((a4 & 0xAAAAAAAAAAAAAAAA) >> 1);
    var a4 := a4 ^ ((((a2 << 1) & a3) ^ ((a3 << 1) & a2)) & 0xAAAAAAAAAAAAAAAA);
    var a5 := (x & 0xCCCCCCCCCCCCCCCC) >> 2;
    var x := x ^ (((a4 << 2) ^ a4) & 0xCCCCCCCCCCCCCCCC);
    var a4 := a5 & 0x2222222222222222;
    var a4 := a4 | (a4 >> 1);
    var a4 := a4 ^ ((a5 << 1) & 0x2222222222222222);
    var x := x ^ (a4);
    var y := ((x & 0xFEFEFEFEFEFEFEFE) >> 1) | ((x & 0x0101010101010101) << 7);
    var x := x & (0x3939393939393939);
    var x := x ^ (y & 0x3F3F3F3F3F3F3F3F);
    var y := ((y & 0xFCFCFCFCFCFCFCFC) >> 2) | ((y & 0x0303030303030303) << 6);
    var x := x ^ (y & 0x9797979797979797);
    var y := ((y & 0xFEFEFEFEFEFEFEFE) >> 1) | ((y & 0x0101010101010101) << 7);
    var x := x ^ (y & 0x9B9B9B9B9B9B9B9B);
    var y := ((y & 0xFEFEFEFEFEFEFEFE) >> 1) | ((y & 0x0101010101010101) << 7);
    var x := x ^ (y & 0x3C3C3C3C3C3C3C3C);
    var y := ((y & 0xFEFEFEFEFEFEFEFE) >> 1) | ((y & 0x0101010101010101) << 7);
    var x := x ^ (y & 0xDDDDDDDDDDDDDDDD);
    var y := ((y & 0xFEFEFEFEFEFEFEFE) >> 1) | ((y & 0x0101010101010101) << 7);
    var x := x ^ (y & 0x7272727272727272);
    var x := x ^ (0x6363636363636363);
    x
  }

  /** InvSubLong: the inverse S-box of section 5.3.2 on the eight bytes of a lane. */
  function InvSubLong(x: bv64): bv64
  {
    var x := x ^ (0x6363636363636363);
    var y := ((x & 0xFEFEFEFEFEFEFEFE) >> 1) | ((x & 0x0101010101010101) << 7);
    var x := x & (0xFDFDFDFDFDFDFDFD);
    var x := x ^ (y & 0x5E5E5E5E5E5E5E5E);
    var y := ((y & 0xFEFEFEFEFEFEFEFE) >> 1) | ((y & 0x0101010101010101) << 7);
    var x := x ^ (y & 0xF3F3F3F3F3F3F3F3);
    var y := ((y & 0xFEFEFEFEFEFEFEFE) >> 1) | ((y & 0x0101010101010101) << 7);
    var x := x ^ (y & 0xF5F5F5F5F5F5F5F5);
    var y := ((y & 0xFEFEFEFEFEFEFEFE) >> 1) | ((y & 0x0101010101010101) << 7);
    var x := x ^ (y & 0x7878787878787878);
    var y := ((y & 0xFEFEFEFEFEFEFEFE) >> 1) | ((y & 0x0101010101010101) << 7);
    var x := x ^ (y & 0x7777777777777777);
    var y := ((y & 0xFEFEFEFEFEFEFEFE) >> 1) | ((y & 0x0101010101010101) << 7);
    var x := x ^ (y & 0x1515151515151515);
    var y := ((y & 0xFEFEFEFEFEFEFEFE) >> 1) | ((y & 0x0101010101010101) << 7);
    var x := x ^ (y & 0xA5A5A5A5A5A5A5A5);
    var a1 := x;
    var a1 := a1 ^ ((x & 0xF0F0F0F0F0F0F0F0) >> 4);
    var a2 := ((x & 0xCCCCCCCCCCCCCCCC) >> 2) | ((x & 0x3333333333333333) << 2);
    var a3 := x & a1;
    var a3 := a3 ^ ((a3 & 0xAAAAAAAAAAAAAAAA) >> 1);
    var a3 := a3 ^ ((((x << 1) & a1) ^ ((a1 << 1) & x)) & 0xAAAAAAAAAAAAAAAA);
    var a4 := a2 & a1;
    var a4 := a4 ^ ((a4 & 0xAAAAAAAAAAAAAAAA) >> 1);
    var a4 := a4 ^ ((((a2 << 1) & a1) ^ ((a1 << 1) & a2)) & 0xAAAAAAAAAAAAAAAA);
    var a5 := (a3 & 0xCCCCCCCCCCCCCCCC) >> 2;
    var a3 := a3 ^ (((a4 << 2) ^ a4) & 0xCCCCCCCCCCCCCCCC);
    var a4 := a5 & 0x2222222222222222;
    var a4 := a4 | (a4 >> 1);
    var a4 := a4 ^ ((a5 << 1) & 0x2222222222222222);
    var a3 := a3 ^ (a4);
    var a5 := a3 & 0xA0A0A0A0A0A0A0A0;
    var a5 := a5 | (a5 >> 1);
    var a5 := a5 ^ ((a3 << 1) & 0xA0A0A0A0A0A0A0A0);
    var a4 := a5 & 0xC0C0C0C0C0C0C0C0;
    var a6 := a4 >> 2;
    var a4 := a4 ^ ((a5 << 2) & 0xC0C0C0C0C0C0C0C0);
    var a5 := a6 & 0x2020202020202020;
    var a5 := a5 | (a5 >> 1);
    var a5 := a5 ^ ((a6 << 1) & 0x2020202020202020);
    var a4 := a4 | (a5);
    var a3 := a3 ^ (a4 >> 4);
    var a3 := a3 & (0x0F0F0F0F0F0F0F0F);
    var a2 := a3;
    var a2 := a2 ^ ((a3 & 0x0C0C0C0C0C0C0C0C) >> 2);
    var a4 := a3 & a2;
    var a4 := a4 ^ ((a4 & 0x0A0A0A0A0A0A0A0A) >> 1);
    var a4 := a4 ^ ((((a3 << 1) & a2) ^ ((a2 << 1) & a3)) & 0x0A0A0A0A0A0A0A0A);
    var a5 := a4 & 0x0808080808080808;
    var a5 := a5 | (a5 >> 1);
    var a5 := a5 ^ ((a4 << 1) & 0x0808080808080808);
    var a4 := a4 ^ (a5 >> 2);
    var a4 := a4 & (0x0303030303030303);
    var a4 := a4 ^ ((a4 & 0x0202020202020202) >> 1);
    var a4 := a4 | (a4 << 2);
    var a3 := a2 & a4;
    var a3 := a3 ^ ((a3 & 0x0A0A0A0A0A0A0A0A) >> 1);
    var a3 := a3 ^ ((((a2 << 1) & a4) ^ ((a4 << 1) & a2)) & 0x0A0A0A0A0A0A0A0A);
    var a3 := a3 | (a3 << 4);
    var a2 := ((a1 & 0xCCCCCCCCCCCCCCCC) >> 2) | ((a1 & 0x3333333333333333) << 2);
    var x := a1 & a3;
    var x := x ^ ((x & 0xAAAAAAAAAAAAAAAA) >> 1);
    var x := x ^ ((((a1 << 1) & a3) ^ ((a3 << 1) & a1)) & 0xAAAAAAAAAAAAAAAA);
    var a4 := a2 & a3;
    var a4 := a4 ^ ((a4 & 0xAAAAAAAAAAAAAAAA) >> 1);
    var a4 := a4 ^ ((((a2 << 1) & a3) ^ ((a3 << 1) & a2)) & 0xAAAAAAAAAAAAAAAA);
    var a5 := (x & 0xCCCCCCCCCCCCCCCC) >> 2;
    var x := x ^ (((a4 << 2) ^ a4) & 0xCCCCCCCCCCCCCCCC);
    var a4 := a5 & 0x2222222222222222;
    var a4 := a4 | (a4 >> 1);
    var a4 := a4 ^ ((a5 << 1) & 0x2222222222222222);
    var x := x ^ (a4);
    var y := ((x & 0xFEFEFEFEFEFEFEFE) >> 1) | ((x & 0x0101010101010101) << 7);
    var x := x & (0xB5B5B5B5B5B5B5B5);
    var x := x ^ (y & 0x4040404040404040);
    var y := ((y & 0xFEFEFEFEFEFEFEFE) >> 1) | ((y & 0x0101010101010101) << 7);
    var x := x ^ (y & 0x8080808080808080);
    var y := ((y & 0xFEFEFEFEFEFEFEFE) >> 1) | ((y & 0x0101010101010101) << 7);
    var x := x ^ (y & 0x1616161616161616);
    var y := ((y & 0xFEFEFEFEFEFEFEFE) >> 1) | ((y & 0x0101010101010101) << 7);
    var x := x ^ (y & 0xEBEBEBEBEBEBEBEB);
    var y := ((y & 0xFEFEFEFEFEFEFEFE) >> 1) | ((y & 0x0101010101010101) << 7);
    var x := x ^ (y & 0x9797979797979797);
    var y := ((y & 0xFEFEFEFEFEFEFEFE) >> 1) | ((y & 0x0101010101010101) << 7);
    var x := x ^ (y & 0xFBFBFBFBFBFBFBFB);
    var y := ((y & 0xFEFEFEFEFEFEFEFE) >> 1) | ((y & 0x0101010101010101) << 7);
    var x := x ^ (y & 0x7D7D7D7D7D7D7D7D);
    x
  }

  /** The operations of SubLong restricted to a single byte lane: every mask of
      SubLong repeats one byte value, and this is that byte. */
  function SubLane(x: bv8): bv8
  {
    var y := ((x & 0xFE) >> 1) | ((x & 0x01) << 7);
    var x := x & (0xDD);
    var x := x ^ (y & 0x57);
    var y := ((y & 0xFE) >> 1) | ((y & 0x01) << 7);
    var x := x ^ (y & 0x1C);
    var y := ((y & 0xFE) >> 1) | ((y & 0x01) << 7);
    var x := x ^ (y & 0x4A);
    var y := ((y & 0xFE) >> 1) | ((y & 0x01) << 7);
    var x := x ^ (y & 0x42);
    var y := ((y & 0xFE) >> 1) | ((y & 0x01) << 7);
    var x := x ^ (y & 0x64);
    var y := ((y & 0xFE) >> 1) | ((y & 0x01) << 7);
    var x := x ^ (y & 0xE0);
    var a1 := x;
    var a1 := a1 ^ ((x & 0xF0) >> 4);
    var a2 := ((x & 0xCC) >> 2) | ((x & 0x33) << 2);
    var a3 := x & a1;
    var a3 := a3 ^ ((a3 & 0xAA) >> 1);
    var a3 := a3 ^ ((((x << 1) & a1) ^ ((a1 << 1) & x)) & 0xAA);
    var a4 := a2 & a1;
    var a4 := a4 ^ ((a4 & 0xAA) >> 1);
    var a4 := a4 ^ ((((a2 << 1) & a1) ^ ((a1 << 1) & a2)) & 0xAA);
    var a5 := (a3 & 0xCC) >> 2;
    var a3 := a3 ^ (((a4 << 2) ^ a4) & 0xCC);
    var a4 := a5 & 0x22;
    var a4 := a4 | (a4 >> 1);
    var a4 := a4 ^ ((a5 << 1) & 0x22);
    var a3 := a3 ^ (a4);
    var a5 := a3 & 0xA0;
    var a5 := a5 | (a5 >> 1);
    var a5 := a5 ^ ((a3 << 1) & 0xA0);
    var a4 := a5 & 0xC0;
    var a6 := a4 >> 2;
    var a4 := a4 ^ ((a5 << 2) & 0xC0);
    var a5 := a6 & 0x20;
    var a5 := a5 | (a5 >> 1);
    var a5 := a5 ^ ((a6 << 1) & 0x20);
    var a4 := a4 | (a5);
    var a3 := a3 ^ (a4 >> 4);
    var a3 := a3 & (0x0F);
    var a2 := a3;
    var a2 := a2 ^ ((a3 & 0x0C) >> 2);
    var a4 := a3 & a2;
    var a4 := a4 ^ ((a4 & 0x0A) >> 1);
    var a4 := a4 ^ ((((a3 << 1) & a2) ^ ((a2 << 1) & a3)) & 0x0A);
    var a5 := a4 & 0x08;
    var a5 := a5 | (a5 >> 1);
    var a5 := a5 ^ ((a4 << 1) & 0x08);
    var a4 := a4 ^ (a5 >> 2);
    var a4 := a4 & (0x03);
    var a4 := a4 ^ ((a4 & 0x02) >> 1);
    var a4 := a4 | (a4 << 2);
    var a3 := a2 & a4;
    var a3 := a3 ^ ((a3 & 0x0A) >> 1);
    var a3 := a3 ^ ((((a2 << 1) & a4) ^ ((a4 << 1) & a2)) & 0x0A);
    var a3 := a3 | (a3 << 4);
    var a2 := ((a1 & 0xCC) >> 2) | ((a1 & 0x33) << 2);
    var x := a1 & a3;
    var x := x ^ ((x & 0xAA) >> 1);
    var x := x ^ ((((a1 << 1) & a3) ^ ((a3 << 1) & a1)) & 0xAA);
    var a4 := a2 & a3;
    var a4 := a4 ^ ((a4 & 0xAA) >> 1);
    var a4 := a4 ^ ((((a2 << 1) & a3) ^ ((a3 << 1) & a2)) & 0xAA);
    var a5 := (x & 0xCC) >> 2;
    var x := x ^ (((a4 << 2) ^ a4) & 0xCC);
    var a4 := a5 & 0x22;
    var a4 := a4 | (a4 >> 1);
    var a4 := a4 ^ ((a5 << 1) & 0x22);
    var x := x ^ (a4);
    var y := ((x & 0xFE) >> 1) | ((x & 0x01) << 7);
    var x := x & (0x39);
    var x := x ^ (y & 0x3F);
    var y := ((y & 0xFC) >> 2) | ((y & 0x03) << 6);
    var x := x ^ (y & 0x97);
    var y := ((y & 0xFE) >> 1) | ((y & 0x01) << 7);
    var x := x ^ (y & 0x9B);
    var y := ((y & 0xFE) >> 1) | ((y & 0x01) << 7);
    var x := x ^ (y & 0x3C);
    var y := ((y & 0xFE) >> 1) | ((y & 0x01) << 7);
    var x := x ^ (y & 0xDD);
    var y := ((y & 0xFE) >> 1) | ((y & 0x01) << 7);
    var x := x ^ (y & 0x72);
    var x := x ^ (0x63);
    x
  }

  /** The operations of InvSubLong restricted to a single byte lane. */
  function InvSubLane(x: bv8): bv8
  {
    var x := x ^ (0x63);
    var y := ((x & 0xFE) >> 1) | ((x & 0x01) << 7);
    var x := x & (0xFD);
    var x := x ^ (y & 0x5E);
    var y := ((y & 0xFE) >> 1) | ((y & 0x01) << 7);
    var x := x ^ (y & 0xF3);
    var y := ((y & 0xFE) >> 1) | ((y & 0x01) << 7);
    var x := x ^ (y & 0xF5);
    var y := ((y & 0xFE) >> 1) | ((y & 0x01) << 7);
    var x := x ^ (y & 0x78);
    var y := ((y & 0xFE) >> 1) | ((y & 0x01) << 7);
    var x := x ^ (y & 0x77);
    var y := ((y & 0xFE) >> 1) | ((y & 0x01) << 7);
    var x := x ^ (y & 0x15);
    var y := ((y & 0xFE) >> 1) | ((y & 0x01) << 7);
    var x := x ^ (y & 0xA5);
    var a1 := x;
    var a1 := a1 ^ ((x & 0xF0) >> 4);
    var a2 := ((x & 0xCC) >> 2) | ((x & 0x33) << 2);
    var a3 := x & a1;
    var a3 := a3 ^ ((a3 & 0xAA) >> 1);
    var a3 := a3 ^ ((((x << 1) & a1) ^ ((a1 << 1) & x)) & 0xAA);
    var a4 := a2 & a1;
    var a4 := a4 ^ ((a4 & 0xAA) >> 1);
    var a4 := a4 ^ ((((a2 << 1) & a1) ^ ((a1 << 1) & a2)) & 0xAA);
    var a5 := (a3 & 0xCC) >> 2;
    var a3 := a3 ^ (((a4 << 2) ^ a4) & 0xCC);
    var a4 := a5 & 0x22;
    var a4 := a4 | (a4 >> 1);
    var a4 := a4 ^ ((a5 << 1) & 0x22);
    var a3 := a3 ^ (a4);
    var a5 := a3 & 0xA0;
    var a5 := a5 | (a5 >> 1);
    var a5 := a5 ^ ((a3 << 1) & 0xA0);
    var a4 := a5 & 0xC0;
    var a6 := a4 >> 2;
    var a4 := a4 ^ ((a5 << 2) & 0xC0);
    var a5 := a6 & 0x20;
    var a5 := a5 | (a5 >> 1);
    var a5 := a5 ^ ((a6 << 1) & 0x20);
    var a4 := a4 | (a5);
    var a3 := a3 ^ (a4 >> 4);
    var a3 := a3 & (0x0F);
    var a2 := a3;
    var a2 := a2 ^ ((a3 & 0x0C) >> 2);
    var a4 := a3 & a2;
    var a4 := a4 ^ ((a4 & 0x0A) >> 1);
    var a4 := a4 ^ ((((a3 << 1) & a2) ^ ((a2 << 1) & a3)) & 0x0A);
    var a5 := a4 & 0x08;
    var a5 := a5 | (a5 >> 1);
    var a5 := a5 ^ ((a4 << 1) & 0x08);
    var a4 := a4 ^ (a5 >> 2);
    var a4 := a4 & (0x03);
    var a4 := a4 ^ ((a4 & 0x02) >> 1);
    var a4 := a4 | (a4 << 2);
    var a3 := a2 & a4;
    var a3 := a3 ^ ((a3 & 0x0A) >> 1);
    var a3 := a3 ^ ((((a2 << 1) & a4) ^ ((a4 << 1) & a2)) & 0x0A);
    var a3 := a3 | (a3 << 4);
    var a2 := ((a1 & 0xCC) >> 2) | ((a1 & 0x33) << 2);
    var x := a1 & a3;
    var x := x ^ ((x & 0xAA) >> 1);
    var x := x ^ ((((a1 << 1) & a3) ^ ((a3 << 1) & a1)) & 0xAA);
    var a4 := a2 & a3;
    var a4 := a4 ^ ((a4 & 0xAA) >> 1);
    var a4 := a4 ^ ((((a2 << 1) & a3) ^ ((a3 << 1) & a2)) & 0xAA);
    var a5 := (x & 0xCC) >> 2;
    var x := x ^ (((a4 << 2) ^ a4) & 0xCC);
    var a4 := a5 & 0x22;
    var a4 := a4 | (a4 >> 1);
    var a4 := a4 ^ ((a5 << 1) & 0x22);
    var x := x ^ (a4);
    var y := ((x & 0xFE) >> 1) | ((x & 0x01) << 7);
    var x := x & (0xB5);
    var x := x ^ (y & 0x40);
    var y := ((y & 0xFE) >> 1) | ((y & 0x01) << 7);
    var x := x ^ (y & 0x80);
    var y := ((y & 0xFE) >> 1) | ((y & 0x01) << 7);
    var x := x ^ (y & 0x16);
    var y := ((y & 0xFE) >> 1) | ((y & 0x01) << 7);
    var x := x ^ (y & 0xEB);
    var y := ((y & 0xFE) >> 1) | ((y & 0x01) << 7);
    var x := x ^ (y & 0x97);
    var y := ((y & 0xFE) >> 1) | ((y & 0x01) << 7);
    var x := x ^ (y & 0xFB);
    var y := ((y & 0xFE) >> 1) | ((y & 0x01) << 7);
    var x := x ^ (y & 0x7D);
    x
  }

  // Each byte lane of a wide operation is the byte operation applied to that
  // lane alone: one lemma per literal lane position, decided on bits.

  lemma XtimeWordLane0(w: bv32) ensures Unpack32(XtimeWord(w))[0] == Xtime(Unpack32(w)[0]) {}
  lemma XtimeWordLane1(w: bv32) ensures Unpack32(XtimeWord(w))[1] == Xtime(Unpack32(w)[1]) {}
  lemma XtimeWordLane2(w: bv32) ensures Unpack32(XtimeWord(w))[2] == Xtime(Unpack32(w)[2]) {}
  lemma XtimeWordLane3(w: bv32) ensures Unpack32(XtimeWord(w))[3] == Xtime(Unpack32(w)[3]) {}
  lemma XtimeLongLane0(d: bv64) ensures Unpack64(XtimeLong(d))[0] == Xtime(Unpack64(d)[0]) {}
  lemma XtimeLongLane1(d: bv64) ensures Unpack64(XtimeLong(d))[1] == Xtime(Unpack64(d)[1]) {}
  lemma XtimeLongLane2(d: bv64) ensures Unpack64(XtimeLong(d))[2] == Xtime(Unpack64(d)[2]) {}
  lemma XtimeLongLane3(d: bv64) ensures Unpack64(XtimeLong(d))[3] == Xtime(Unpack64(d)[3]) {}
  lemma XtimeLongLane4(d: bv64) ensures Unpack64(XtimeLong(d))[4] == Xtime(Unpack64(d)[4]) {}
  lemma XtimeLongLane5(d: bv64) ensures Unpack64(XtimeLong(d))[5] == Xtime(Unpack64(d)[5]) {}
  lemma XtimeLongLane6(d: bv64) ensures Unpack64(XtimeLong(d))[6] == Xtime(Unpack64(d)[6]) {}
  lemma XtimeLongLane7(d: bv64) ensures Unpack64(XtimeLong(d))[7] == Xtime(Unpack64(d)[7]) {}

  lemma SubWordLane0(w: bv32) ensures Unpack32(SubWord(w))[0] == SubLane(Unpack32(w)[0]) {}
  lemma SubWordLane1(w: bv32) ensures Unpack32(SubWord(w))[1] == SubLane(Unpack32(w)[1]) {}
  lemma SubWordLane2(w: bv32) ensures Unpack32(SubWord(w))[2] == SubLane(Unpack32(w)[2]) {}
  lemma SubWordLane3(w: bv32) ensures Unpack32(SubWord(w))[3] == SubLane(Unpack32(w)[3]) {}
  lemma SubLongLane0(d: bv64) ensures Unpack64(SubLong(d))[0] == SubLane(Unpack64(d)[0]) {}
  lemma SubLongLane1(d: bv64) ensures Unpack64(SubLong(d))[1] == SubLane(Unpack64(d)[1]) {}
  lemma SubLongLane2(d: bv64) ensures Unpack64(SubLong(d))[2] == SubLane(Unpack64(d)[2]) {}
  lemma SubLongLane3(d: bv64) ensures Unpack64(SubLong(d))[3] == SubLane(Unpack64(d)[3]) {}
  lemma SubLongLane4(d: bv64) ensures Unpack64(SubLong(d))[4] == SubLane(Unpack64(d)[4]) {}
  lemma SubLongLane5(d: bv64) ensures Unpack64(SubLong(d))[5] == SubLane(Unpack64(d)[5]) {}
  lemma SubLongLane6(d: bv64) ensures Unpack64(SubLong(d))[6] == SubLane(Unpack64(d)[6]) {}
  lemma SubLongLane7(d: bv64) ensures Unpack64(SubLong(d))[7] == SubLane(Unpack64(d)[7]) {}
  lemma InvSubLongLane0(d: bv64) ensures Unpack64(InvSubLong(d))[0] == InvSubLane(Unpack64(d)[0]) {}
  lemma InvSubLongLane1(d: bv64) ensures Unpack64(InvSubLong(d))[1] == InvSubLane(Unpack64(d)[1]) {}
  lemma InvSubLongLane2(d: bv64) ensures Unpack64(InvSubLong(d))[2] == InvSubLane(Unpack64(d)[2]) {}
  lemma InvSubLongLane3(d: bv64) ensures Unpack64(InvSubLong(d))[3] == InvSubLane(Unpack64(d)[3]) {}
  lemma InvSubLongLane4(d: bv64) ensures Unpack64(InvSubLong(d))[4] == InvSubLane(Unpack64(d)[4]) {}
  lemma InvSubLongLane5(d: bv64) ensures Unpack64(InvSubLong(d))[5] == InvSubLane(Unpack64(d)[5]) {}
  lemma InvSubLongLane6(d: bv64) ensures Unpack64(InvSubLong(d))[6] == InvSubLane(Unpack64(d)[6]) {}
  lemma InvSubLongLane7(d: bv64) ensures Unpack64(InvSubLong(d))[7] == InvSubLane(Unpack64(d)[7]) {}

  // The byte circuits against the tables of figures 7 and 14, one row (high
  // hex digit) at a time.

  lemma SubLaneRow0(b: bv8) requires b >> 4 == 0x0 ensures SubLane(b) == SBox(b) {}
  lemma SubLaneRow1(b: bv8) requires b >> 4 == 0x1 ensures SubLane(b) == SBox(b) {}
  lemma SubLaneRow2(b: bv8) requires b >> 4 == 0x2 ensures SubLane(b) == SBox(b) {}
  lemma SubLaneRow3(b: bv8) requires b >> 4 == 0x3 ensures SubLane(b) == SBox(b) {}
  lemma SubLaneRow4(b: bv8) requires b >> 4 == 0x4 ensures SubLane(b) == SBox(b) {}
  lemma SubLaneRow5(b: bv8) requires b >> 4 == 0x5 ensures SubLane(b) == SBox(b) {}
  lemma SubLaneRow6(b: bv8) requires b >> 4 == 0x6 ensures SubLane(b) == SBox(b) {}
  lemma SubLaneRow7(b: bv8) requires b >> 4 == 0x7 ensures SubLane(b) == SBox(b) {}
  lemma SubLaneRow8(b: bv8) requires b >> 4 == 0x8 ensures SubLane(b) == SBox(b) {}
  lemma SubLaneRow9(b: bv8) requires b >> 4 == 0x9 ensures SubLane(b) == SBox(b) {}
  lemma SubLaneRowA(b: bv8) requires b >> 4 == 0xA ensures SubLane(b) == SBox(b) {}
  lemma SubLaneRowB(b: bv8) requires b >> 4 == 0xB ensures SubLane(b) == SBox(b) {}
  lemma SubLaneRowC(b: bv8) requires b >> 4 == 0xC ensures SubLane(b) == SBox(b) {}
  lemma SubLaneRowD(b: bv8) requires b >> 4 == 0xD ensures SubLane(b) == SBox(b) {}
  lemma SubLaneRowE(b: bv8) requires b >> 4 == 0xE ensures SubLane(b) == SBox(b) {}
  lemma SubLaneRowF(b: bv8) requires b >> 4 == 0xF ensures SubLane(b) == SBox(b) {}
  lemma InvSubLaneRow0(b: bv8) requires b >> 4 == 0x0 ensures InvSubLane(b) == InvSBox(b) {}
  lemma InvSubLaneRow1(b: bv8) requires b >> 4 == 0x1 ensures InvSubLane(b) == InvSBox(b) {}
  lemma InvSubLaneRow2(b: bv8) requires b >> 4 == 0x2 ensures InvSubLane(b) == InvSBox(b) {}
  lemma InvSubLaneRow3(b: bv8) requires b >> 4 == 0x3 ensures InvSubLane(b) == InvSBox(b) {}
  lemma InvSubLaneRow4(b: bv8) requires b >> 4 == 0x4 ensures InvSubLane(b) == InvSBox(b) {}
  lemma InvSubLaneRow5(b: bv8) requires b >> 4 == 0x5 ensures InvSubLane(b) == InvSBox(b) {}
  lemma InvSubLaneRow6(b: bv8) requires b >> 4 == 0x6 ensures InvSubLane(b) == InvSBox(b) {}
  lemma InvSubLaneRow7(b: bv8) requires b >> 4 == 0x7 ensures InvSubLane(b) == InvSBox(b) {}
  lemma InvSubLaneRow8(b: bv8) requires b >> 4 == 0x8 ensures InvSubLane(b) == InvSBox(b) {}
  lemma InvSubLaneRow9(b: bv8) requires b >> 4 == 0x9 ensures InvSubLane(b) == InvSBox(b) {}
  lemma InvSubLaneRowA(b: bv8) requires b >> 4 == 0xA ensures InvSubLane(b) == InvSBox(b) {}
  lemma InvSubLaneRowB(b: bv8) requires b >> 4 == 0xB ensures InvSubLane(b) == InvSBox(b) {}
  lemma InvSubLaneRowC(b: bv8) requires b >> 4 == 0xC ensures InvSubLane(b) == InvSBox(b) {}
  lemma InvSubLaneRowD(b: bv8) requires b >> 4 == 0xD ensures InvSubLane(b) == InvSBox(b) {}
  lemma InvSubLaneRowE(b: bv8) requires b >> 4 == 0xE ensures InvSubLane(b) == InvSBox(b) {}
  lemma InvSubLaneRowF(b: bv8) requires b >> 4 == 0xF ensures InvSubLane(b) == InvSBox(b) {}

  /** The byte circuit of SubLong computes the S-box of figure 7. */
  lemma SubLaneIsSBox(b: bv8)
    ensures SubLane(b) == SBox(b)
  {
    var h := b >> 4;
    if h == 0x0 { SubLaneRow0(b); } else if h == 0x1 { SubLaneRow1(b); }
    else if h == 0x2 { SubLaneRow2(b); } else if h == 0x3 { SubLaneRow3(b); }
    else if h == 0x4 { SubLaneRow4(b); } else if h == 0x5 { SubLaneRow5(b); }
    else if h == 0x6 { SubLaneRow6(b); } else if h == 0x7 { SubLaneRow7(b); }
    else if h == 0x8 { SubLaneRow8(b); } else if h == 0x9 { SubLaneRow9(b); }
    else if h == 0xA { SubLaneRowA(b); } else if h == 0xB { SubLaneRowB(b); }
    else if h == 0xC { SubLaneRowC(b); } else if h == 0xD { SubLaneRowD(b); }
    else if h == 0xE { SubLaneRowE(b); } else { SubLaneRowF(b); }
  }

  /** The byte circuit of InvSubLong computes the inverse S-box of figure 14. */
  lemma InvSubLaneIsInvSBox(b: bv8)
    ensures InvSubLane(b) == InvSBox(b)
  {
    var h := b >> 4;
    if h == 0x0 { InvSubLaneRow0(b); } else if h == 0x1 { InvSubLaneRow1(b); }
    else if h == 0x2 { InvSubLaneRow2(b); } else if h == 0x3 { InvSubLaneRow3(b); }
    else if h == 0x4 { InvSubLaneRow4(b); } else if h == 0x5 { InvSubLaneRow5(b); }
    else if h == 0x6 { InvSubLaneRow6(b); } else if h == 0x7 { InvSubLaneRow7(b); }
    else if h == 0x8 { InvSubLaneRow8(b); } else if h == 0x9 { InvSubLaneRow9(b); }
    else if h == 0xA { InvSubLaneRowA(b); } else if h == 0xB { InvSubLaneRowB(b); }
    else if h == 0xC { InvSubLaneRowC(b); } else if h == 0xD { InvSubLaneRowD(b); }
    else if h == 0xE { InvSubLaneRowE(b); } else { InvSubLaneRowF(b); }
  }

  /** The two byte circuits undo each other, in both orders, on all 256 bytes. */
  lemma InvSubLaneSubLane(b: bv8)
    ensures InvSubLane(SubLane(b)) == b
  {
  }

  lemma SubLaneInvSubLane(b: bv8)
    ensures SubLane(InvSubLane(b)) == b
  {
  }

  /** Figures 7 and 14 are inverse tables. */
  lemma InvSBoxSBox(b: bv8)
    ensures InvSBox(SBox(b)) == b
  {
    SubLaneIsSBox(b);
    InvSubLaneIsInvSBox(SubLane(b));
    InvSubLaneSubLane(b);
  }

  lemma SBoxInvSBox(b: bv8)
    ensures SBox(InvSBox(b)) == b
  {
    InvSubLaneIsInvSBox(b);
    SubLaneIsSBox(InvSubLane(b));
    SubLaneInvSubLane(b);
  }

  // The wide operations on whole byte sequences.

  /** XtimeWord multiplies each of the four bytes of a word by {02}, and no byte
      affects another. */
  lemma XtimeWordBytes(w: bv32)
    ensures Unpack32(XtimeWord(w)) == MapBytes(Xtime, Unpack32(w))
  {
    XtimeWordLane0(w); XtimeWordLane1(w); XtimeWordLane2(w); XtimeWordLane3(w);
    MapBytes4(Xtime, Unpack32(XtimeWord(w)), Unpack32(w));
  }

  /** XtimeLong multiplies each of the eight bytes of a lane by {02}. */
  lemma XtimeLongBytes(d: bv64)
    ensures Unpack64(XtimeLong(d)) == MapBytes(Xtime, Unpack64(d))
  {
    XtimeLongLane0(d); XtimeLongLane1(d); XtimeLongLane2(d); XtimeLongLane3(d);
    XtimeLongLane4(d); XtimeLongLane5(d); XtimeLongLane6(d); XtimeLongLane7(d);
    MapBytes8(Xtime, Unpack64(XtimeLong(d)), Unpack64(d));
  }

  /** SubWord applies the S-box to each byte of a word (section 5.2, SubWord()). */
  lemma SubWordBytes(w: bv32)
    ensures Unpack32(SubWord(w)) == MapBytes(SBox, Unpack32(w))
  {
    var a := Unpack32(w);
    SubWordLane0(w); SubWordLane1(w); SubWordLane2(w); SubWordLane3(w);
    SubLaneIsSBox(a[0]); SubLaneIsSBox(a[1]); SubLaneIsSBox(a[2]); SubLaneIsSBox(a[3]);
    MapBytes4(SBox, Unpack32(SubWord(w)), a);
  }

  /** SubLong applies the S-box to each byte of a lane (section 5.1.1, SubBytes()). */
  lemma SubLongBytes(d: bv64)
    ensures Unpack64(SubLong(d)) == MapBytes(SBox, Unpack64(d))
  {
    var a := Unpack64(d);
    SubLongLane0(d); SubLongLane1(d); SubLongLane2(d); SubLongLane3(d);
    SubLongLane4(d); SubLongLane5(d); SubLongLane6(d); SubLongLane7(d);
    SubLaneIsSBox(a[0]); SubLaneIsSBox(a[1]); SubLaneIsSBox(a[2]); SubLaneIsSBox(a[3]);
    SubLaneIsSBox(a[4]); SubLaneIsSBox(a[5]); SubLaneIsSBox(a[6]); SubLaneIsSBox(a[7]);
    MapBytes8(SBox, Unpack64(SubLong(d)), a);
  }

  /** InvSubLong applies the inverse S-box to each byte of a lane (section 5.3.2). */
  lemma InvSubLongBytes(d: bv64)
    ensures Unpack64(InvSubLong(d)) == MapBytes(InvSBox, Unpack64(d))
  {
    var a := Unpack64(d);
    InvSubLongLane0(d); InvSubLongLane1(d); InvSubLongLane2(d); InvSubLongLane3(d);
    InvSubLongLane4(d); InvSubLongLane5(d); InvSubLongLane6(d); InvSubLongLane7(d);
    InvSubLaneIsInvSBox(a[0]); InvSubLaneIsInvSBox(a[1]); InvSubLaneIsInvSBox(a[2]); InvSubLaneIsInvSBox(a[3]);
    InvSubLaneIsInvSBox(a[4]); InvSubLaneIsInvSBox(a[5]); InvSubLaneIsInvSBox(a[6]); InvSubLaneIsInvSBox(a[7]);
    MapBytes8(InvSBox, Unpack64(InvSubLong(d)), a);
  }

  /** The 32-bit SubWord of the key schedule and the 64-bit SubLong of the
      rounds substitute alike: SubLong on a lane is SubWord on each of its halves. */
  lemma SubWordAgreesWithSubLong(d: bv64)
    ensures SubLong(d) == Join(SubWord(Lo(d)), SubWord(Hi(d)))
  {
    var j := Join(SubWord(Lo(d)), SubWord(Hi(d)));
    SubLongBytes(d);
    Unpack64Split(d);
    MapBytesAppend(SBox, Unpack32(Lo(d)), Unpack32(Hi(d)));
    SubWordBytes(Lo(d));
    SubWordBytes(Hi(d));
    Unpack64Join(SubWord(Lo(d)), SubWord(Hi(d)));
    Unpack64Injective(SubLong(d), j);
  }

  /** InvSubLong undoes SubLong on every lane. */
  lemma InvSubLongSubLong(d: bv64)
    ensures InvSubLong(SubLong(d)) == d
  {
    SubLongLane0(d); SubLongLane1(d); SubLongLane2(d); SubLongLane3(d);
    SubLongLane4(d); SubLongLane5(d); SubLongLane6(d); SubLongLane7(d);
    InvSubLongLane0(SubLong(d)); InvSubLongLane1(SubLong(d)); InvSubLongLane2(SubLong(d)); InvSubLongLane3(SubLong(d));
    InvSubLongLane4(SubLong(d)); InvSubLongLane5(SubLong(d)); InvSubLongLane6(SubLong(d)); InvSubLongLane7(SubLong(d));
    InvSubLaneSubLane(Unpack64(d)[0]); InvSubLaneSubLane(Unpack64(d)[1]);
    InvSubLaneSubLane(Unpack64(d)[2]); InvSubLaneSubLane(Unpack64(d)[3]);
    InvSubLaneSubLane(Unpack64(d)[4]); InvSubLaneSubLane(Unpack64(d)[5]);
    InvSubLaneSubLane(Unpack64(d)[6]); InvSubLaneSubLane(Unpack64(d)[7]);
    Unpack64Injective(InvSubLong(SubLong(d)), d);
  }

  /** SubLong undoes InvSubLong on every lane. */
  lemma SubLongInvSubLong(d: bv64)
    ensures SubLong(InvSubLong(d)) == d
  {
    InvSubLongLane0(d); InvSubLongLane1(d); InvSubLongLane2(d); InvSubLongLane3(d);
    InvSubLongLane4(d); InvSubLongLane5(d); InvSubLongLane6(d); InvSubLongLane7(d);
    SubLongLane0(InvSubLong(d)); SubLongLane1(InvSubLong(d)); SubLongLane2(InvSubLong(d)); SubLongLane3(InvSubLong(d));
    SubLongLane4(InvSubLong(d)); SubLongLane5(InvSubLong(d)); SubLongLane6(InvSubLong(d)); SubLongLane7(InvSubLong(d));
    SubLaneInvSubLane(Unpack64(d)[0]); SubLaneInvSubLane(Unpack64(d)[1]);
    SubLaneInvSubLane(Unpack64(d)[2]); SubLaneInvSubLane(Unpack64(d)[3]);
    SubLaneInvSubLane(Unpack64(d)[4]); SubLaneInvSubLane(Unpack64(d)[5]);
    SubLaneInvSubLane(Unpack64(d)[6]); SubLaneInvSubLane(Unpack64(d)[7]);
    Unpack64Injective(SubLong(InvSubLong(d)), d);
  }
}
