/**
 An example of the standard: a splice_insert that leaves the network at a splice time, for a
 break of 60.3 seconds, with the check word that every encoder of the standard writes.
 */
module StandardSection {
  import opened Common
  import opened Crc
  import opened Scte35

  const PART0: seq<bv8> := [0xFC, 0x30, 0x2F, 0x00, 0x00]
  const PART1: seq<bv8> := [0x00, 0x00, 0x00, 0x00, 0xFF]
  const PART2: seq<bv8> := [0xFF, 0xF0, 0x14, 0x05, 0x48]
  const PART3: seq<bv8> := [0x00, 0x00, 0x8F, 0x7F, 0xEF]
  const PART4: seq<bv8> := [0xFE, 0x73, 0x69, 0xC0, 0x2E]
  const PART5: seq<bv8> := [0xFE, 0x00, 0x52, 0xCC, 0xF5]
  const PART6: seq<bv8> := [0x00, 0x00, 0x00, 0x00, 0x00]
  const PART7: seq<bv8> := [0x0A, 0x00, 0x08, 0x43, 0x55]
  const PART8: seq<bv8> := [0x45, 0x49, 0x00, 0x00, 0x01]
  const PART9: seq<bv8> := [0x35, 0x62, 0xDB, 0xA3, 0x0A]

  function Example(): (b: seq<bv8>)
    ensures |b| == 50
  {
    PART0 + PART1 + PART2 + PART3 + PART4 + PART5 + PART6 + PART7 + PART8 + PART9
  }

  // ----- its check word -----

  lemma {:induction false} Step(c: bv32, b: seq<bv8>, i: nat, x: bv8, next: bv32)
    requires i < |b| && b[i] == x && Absorb(c, x) == next
    ensures Register(c, b[i..]) == Register(next, b[i + 1..])
  {
    assert b[i..][0] == x && b[i..][1..] == b[i + 1..];
    hide Absorb;
  }

  lemma {:induction false} Steps0()
    ensures Absorb(0xFFFF_FFFF, 0xFC) == 0xF2BC_D9D9
    ensures Absorb(0xF2BC_D9D9, 0x30) == 0xE8D1_72F7
    ensures Absorb(0xE8D1_72F7, 0x2F) == 0x92BF_379C
    ensures Absorb(0x92BF_379C, 0x00) == 0x93A8_9CF0
    ensures Absorb(0x93A8_9CF0, 0x00) == 0x80C2_ED47
  {
  }

  lemma {:induction false} Part0IsChecked()
    ensures Register(0xFFFF_FFFF, PART0) == 0x80C2_ED47
  {
    Steps0();
    hide Absorb;
    var p := PART0;
    assert p[0..] == p && p[5..] == [];
    Step(0xFFFF_FFFF, p, 0, 0xFC, 0xF2BC_D9D9);
    Step(0xF2BC_D9D9, p, 1, 0x30, 0xE8D1_72F7);
    Step(0xE8D1_72F7, p, 2, 0x2F, 0x92BF_379C);
    Step(0x92BF_379C, p, 3, 0x00, 0x93A8_9CF0);
    Step(0x93A8_9CF0, p, 4, 0x00, 0x80C2_ED47);
  }

  lemma {:induction false} Steps1()
    ensures Absorb(0x80C2_ED47, 0x00) == 0xABE1_A7EE
    ensures Absorb(0xABE1_A7EE, 0x00) == 0x3BC3_736F
    ensures Absorb(0x3BC3_736F, 0x00) == 0x3C0A_C9F1
    ensures Absorb(0x3C0A_C9F1, 0x00) == 0xEBF7_07F4
    ensures Absorb(0xEBF7_07F4, 0xFF) == 0xA812_59AC
  {
  }

  lemma {:induction false} Part1IsChecked()
    ensures Register(0x80C2_ED47, PART1) == 0xA812_59AC
  {
    Steps1();
    hide Absorb;
    var p := PART1;
    assert p[0..] == p && p[5..] == [];
    Step(0x80C2_ED47, p, 0, 0x00, 0xABE1_A7EE);
    Step(0xABE1_A7EE, p, 1, 0x00, 0x3BC3_736F);
    Step(0x3BC3_736F, p, 2, 0x00, 0x3C0A_C9F1);
    Step(0x3C0A_C9F1, p, 3, 0x00, 0xEBF7_07F4);
    Step(0xEBF7_07F4, p, 4, 0xFF, 0xA812_59AC);
  }

  lemma {:induction false} Steps2()
    ensures Absorb(0xA812_59AC, 0xFF) == 0x7489_5702
    ensures Absorb(0x7489_5702, 0xF0) == 0xF35F_9432
    ensures Absorb(0xF35F_9432, 0x14) == 0x847A_447C
    ensures Absorb(0x847A_447C, 0x05) == 0x1789_8159
    ensures Absorb(0x1789_8159, 0x48) == 0xC959_4FBA
  {
  }

  lemma {:induction false} Part2IsChecked()
    ensures Register(0xA812_59AC, PART2) == 0xC959_4FBA
  {
    Steps2();
    hide Absorb;
    var p := PART2;
    assert p[0..] == p && p[5..] == [];
    Step(0xA812_59AC, p, 0, 0xFF, 0x7489_5702);
    Step(0x7489_5702, p, 1, 0xF0, 0xF35F_9432);
    Step(0xF35F_9432, p, 2, 0x14, 0x847A_447C);
    Step(0x847A_447C, p, 3, 0x05, 0x1789_8159);
    Step(0x1789_8159, p, 4, 0x48, 0xC959_4FBA);
  }

  lemma {:induction false} Steps3()
    ensures Absorb(0xC959_4FBA, 0x00) == 0x260C_DA96
    ensures Absorb(0x260C_DA96, 0x00) == 0x8E7F_6D52
    ensures Absorb(0x8E7F_6D52, 0x8F) == 0x7BAC_4FB7
    ensures Absorb(0x7BAC_4FB7, 0x7F) == 0xBF4B_C1DC
    ensures Absorb(0xBF4B_C1DC, 0xEF) == 0x3356_7707
  {
  }

  lemma {:induction false} Part3IsChecked()
    ensures Register(0xC959_4FBA, PART3) == 0x3356_7707
  {
    Steps3();
    hide Absorb;
    var p := PART3;
    assert p[0..] == p && p[5..] == [];
    Step(0xC959_4FBA, p, 0, 0x00, 0x260C_DA96);
    Step(0x260C_DA96, p, 1, 0x00, 0x8E7F_6D52);
    Step(0x8E7F_6D52, p, 2, 0x8F, 0x7BAC_4FB7);
    Step(0x7BAC_4FB7, p, 3, 0x7F, 0xBF4B_C1DC);
    Step(0xBF4B_C1DC, p, 4, 0xEF, 0x3356_7707);
  }

  lemma {:induction false} Steps4()
    ensures Absorb(0x3356_7707, 0xFE) == 0x3A30_114A
    ensures Absorb(0x3A30_114A, 0x73) == 0x265E_CA78
    ensures Absorb(0x265E_CA78, 0x69) == 0x5203_B5CA
    ensures Absorb(0x5203_B5CA, 0xC0) == 0x2F2A_CAF0
    ensures Absorb(0x2F2A_CAF0, 0x2E) == 0x2E0B_EDB7
  {
  }

  lemma {:induction false} Part4IsChecked()
    ensures Register(0x3356_7707, PART4) == 0x2E0B_EDB7
  {
    Steps4();
    hide Absorb;
    var p := PART4;
    assert p[0..] == p && p[5..] == [];
    Step(0x3356_7707, p, 0, 0xFE, 0x3A30_114A);
    Step(0x3A30_114A, p, 1, 0x73, 0x265E_CA78);
    Step(0x265E_CA78, p, 2, 0x69, 0x5203_B5CA);
    Step(0x5203_B5CA, p, 3, 0xC0, 0x2F2A_CAF0);
    Step(0x2F2A_CAF0, p, 4, 0x2E, 0x2E0B_EDB7);
  }

  lemma {:induction false} Steps5()
    ensures Absorb(0x2E0B_EDB7, 0xFE) == 0x1A76_FCE9
    ensures Absorb(0x1A76_FCE9, 0x00) == 0x1567_E4A6
    ensures Absorb(0x1567_E4A6, 0x52) == 0x4D25_8672
    ensures Absorb(0x4D25_8672, 0xCC) == 0x484B_8F59
    ensures Absorb(0x484B_8F59, 0xF5) == 0xC77C_52AD
  {
  }

  lemma {:induction false} Part5IsChecked()
    ensures Register(0x2E0B_EDB7, PART5) == 0xC77C_52AD
  {
    Steps5();
    hide Absorb;
    var p := PART5;
    assert p[0..] == p && p[5..] == [];
    Step(0x2E0B_EDB7, p, 0, 0xFE, 0x1A76_FCE9);
    Step(0x1A76_FCE9, p, 1, 0x00, 0x1567_E4A6);
    Step(0x1567_E4A6, p, 2, 0x52, 0x4D25_8672);
    Step(0x4D25_8672, p, 3, 0xCC, 0x484B_8F59);
    Step(0x484B_8F59, p, 4, 0xF5, 0xC77C_52AD);
  }

  lemma {:induction false} Steps6()
    ensures Absorb(0xC77C_52AD, 0x00) == 0x3F9F_6D9C
    ensures Absorb(0x3F9F_6D9C, 0x00) == 0x7310_4C2D
    ensures Absorb(0x7310_4C2D, 0x00) == 0xFDBB_163E
    ensures Absorb(0xFDBB_163E, 0x00) == 0x0363_45DA
    ensures Absorb(0x0363_45DA, 0x00) == 0x6E06_FCD9
  {
  }

  lemma {:induction false} Part6IsChecked()
    ensures Register(0xC77C_52AD, PART6) == 0x6E06_FCD9
  {
    Steps6();
    hide Absorb;
    var p := PART6;
    assert p[0..] == p && p[5..] == [];
    Step(0xC77C_52AD, p, 0, 0x00, 0x3F9F_6D9C);
    Step(0x3F9F_6D9C, p, 1, 0x00, 0x7310_4C2D);
    Step(0x7310_4C2D, p, 2, 0x00, 0xFDBB_163E);
    Step(0xFDBB_163E, p, 3, 0x00, 0x0363_45DA);
    Step(0x0363_45DA, p, 4, 0x00, 0x6E06_FCD9);
  }

  lemma {:induction false} Steps7()
    ensures Absorb(0x6E06_FCD9, 0x0A) == 0xB95D_694B
    ensures Absorb(0xB95D_694B, 0x00) == 0xC29E_3671
    ensures Absorb(0xC29E_3671, 0x08) == 0xEC36_374F
    ensures Absorb(0xEC36_374F, 0x43) == 0xFF57_A4B3
    ensures Absorb(0xFF57_A4B3, 0x55) == 0x8901_33D8
  {
  }

  lemma {:induction false} Part7IsChecked()
    ensures Register(0x6E06_FCD9, PART7) == 0x8901_33D8
  {
    Steps7();
    hide Absorb;
    var p := PART7;
    assert p[0..] == p && p[5..] == [];
    Step(0x6E06_FCD9, p, 0, 0x0A, 0xB95D_694B);
    Step(0xB95D_694B, p, 1, 0x00, 0xC29E_3671);
    Step(0xC29E_3671, p, 2, 0x08, 0xEC36_374F);
    Step(0xEC36_374F, p, 3, 0x43, 0xFF57_A4B3);
    Step(0xFF57_A4B3, p, 4, 0x55, 0x8901_33D8);
  }

  lemma {:induction false} Steps8()
    ensures Absorb(0x8901_33D8, 0x45) == 0x69B5_D3FD
    ensures Absorb(0x69B5_D3FD, 0x49) == 0x2DF0_4BE0
    ensures Absorb(0x2DF0_4BE0, 0x00) == 0x59A5_D033
    ensures Absorb(0x59A5_D033, 0x00) == 0xFF8E_6808
    ensures Absorb(0xFF8E_6808, 0x01) == 0x3B5E_5503
  {
  }

  lemma {:induction false} Part8IsChecked()
    ensures Register(0x8901_33D8, PART8) == 0x3B5E_5503
  {
    Steps8();
    hide Absorb;
    var p := PART8;
    assert p[0..] == p && p[5..] == [];
    Step(0x8901_33D8, p, 0, 0x45, 0x69B5_D3FD);
    Step(0x69B5_D3FD, p, 1, 0x49, 0x2DF0_4BE0);
    Step(0x2DF0_4BE0, p, 2, 0x00, 0x59A5_D033);
    Step(0x59A5_D033, p, 3, 0x00, 0xFF8E_6808);
    Step(0xFF8E_6808, p, 4, 0x01, 0x3B5E_5503);
  }

  lemma {:induction false} Steps9()
    ensures Absorb(0x3B5E_5503, 0x35) == 0x62DB_A30A
    ensures Absorb(0x62DB_A30A, 0x62) == 0xDBA3_0A00
    ensures Absorb(0xDBA3_0A00, 0xDB) == 0xA30A_0000
    ensures Absorb(0xA30A_0000, 0xA3) == 0x0A00_0000
    ensures Absorb(0x0A00_0000, 0x0A) == 0x0000_0000
  {
  }

  lemma {:induction false} Part9IsChecked()
    ensures Register(0x3B5E_5503, PART9) == 0x0000_0000
  {
    Steps9();
    hide Absorb;
    var p := PART9;
    assert p[0..] == p && p[5..] == [];
    Step(0x3B5E_5503, p, 0, 0x35, 0x62DB_A30A);
    Step(0x62DB_A30A, p, 1, 0x62, 0xDBA3_0A00);
    Step(0xDBA3_0A00, p, 2, 0xDB, 0xA30A_0000);
    Step(0xA30A_0000, p, 3, 0xA3, 0x0A00_0000);
    Step(0x0A00_0000, p, 4, 0x0A, 0x0000_0000);
  }

  lemma {:induction false} ExampleIsChecked()
    ensures Register(PRESET, Example()) == 0
  {
    Part0IsChecked();
    Part1IsChecked();
    Part2IsChecked();
    Part3IsChecked();
    Part4IsChecked();
    Part5IsChecked();
    Part6IsChecked();
    Part7IsChecked();
    Part8IsChecked();
    Part9IsChecked();
    hide Register;
    RegisterConcat(PRESET, PART0, PART1);
    RegisterConcat(PRESET, PART0 + PART1, PART2);
    RegisterConcat(PRESET, PART0 + PART1 + PART2, PART3);
    RegisterConcat(PRESET, PART0 + PART1 + PART2 + PART3, PART4);
    RegisterConcat(PRESET, PART0 + PART1 + PART2 + PART3 + PART4, PART5);
    RegisterConcat(PRESET, PART0 + PART1 + PART2 + PART3 + PART4 + PART5, PART6);
    RegisterConcat(PRESET, PART0 + PART1 + PART2 + PART3 + PART4 + PART5 + PART6, PART7);
    RegisterConcat(PRESET, PART0 + PART1 + PART2 + PART3 + PART4 + PART5 + PART6 + PART7, PART8);
    RegisterConcat(PRESET, PART0 + PART1 + PART2 + PART3 + PART4 + PART5 + PART6 + PART7 + PART8, PART9);
  }

  // ----- its fields -----

  lemma {:induction false} ExampleBytes()
    ensures var b := Example();
      b[0] == 0xFC && b[1] == 0x30 && b[2] == 0x2F && b[3] == 0x00 && b[4] == 0x00 && b[5] == 0x00
    ensures var b := Example();
      b[6] == 0x00 && b[7] == 0x00 && b[8] == 0x00 && b[9] == 0xFF && b[10] == 0xFF && b[11] == 0xF0
    ensures var b := Example(); b[12] == 0x14 && b[13] == 0x05
    ensures var b := Example();
      b[14] == 0x48 && b[15] == 0x00 && b[16] == 0x00 && b[17] == 0x8F && b[18] == 0x7F && b[19] == 0xEF
    ensures var b := Example();
      b[20] == 0xFE && b[21] == 0x73 && b[22] == 0x69 && b[23] == 0xC0 && b[24] == 0x2E && b[25] == 0xFE
    ensures var b := Example();
      b[26] == 0x00 && b[27] == 0x52 && b[28] == 0xCC && b[29] == 0xF5 && b[30] == 0x00 && b[31] == 0x00
    ensures var b := Example(); b[32] == 0x00 && b[33] == 0x00
  {
  }

  lemma {:induction false} ExampleLengths()
    ensures Length12(0x30, 0x2F) == 47 && Length12(0xF0, 0x14) == 20
    ensures !Has(0, 0x80) && Ticks(0, 0, 0, 0, 0) == 0
  {
    assert (0x30 as bv8) & 0x0F == 0 && (0xF0 as bv8) & 0x0F == 0;
  }

  lemma {:induction false} ExampleFields()
    ensures Word(0x48, 0x00, 0x00, 0x8F) == 0x4800_008F && !Has(0x7F, 0x80)
    ensures Has(0xEF, 0x80) && Has(0xEF, 0x40) && Has(0xEF, 0x20) && !Has(0xEF, 0x10)
    ensures Has(0xFE, 0x80) && Ticks(0xFE, 0x73, 0x69, 0xC0, 0x2E) == 0x7369_C02E
    ensures Ticks(0xFE, 0x00, 0x52, 0xCC, 0xF5) == 5426421 && Paired(0, 0) == 0
  {
  }

  /** The command of the example. */
  lemma {:induction false} ExampleInsert(c: seq<bv8>)
    requires c == Example()[14..34]
    ensures DecodeInsert(c) == Ok(SpliceInsert(
      0x4800_008F, false, true, false, Some(0x7369_C02E), 5426421, true, 0, 0, 0))
  {
    ExampleBytes();
    ExampleFields();
    hide Example, Word, Has, Ticks, Paired;
  }

  /**
   The example is accepted and says what the standard prints beside it: event 0x4800008F leaves
   the network at tick 0x7369C02E for 5426421 ticks and returns by itself.
   */
  lemma {:induction false} ExampleIsDecoded()
    ensures Decode(Example()) == Ok(Section(0, 0x05, Some(SpliceInsert(
      0x4800_008F, false, true, false, Some(0x7369_C02E), 5426421, true, 0, 0, 0))))
  {
    ExampleIsChecked();
    CheckedIffZero(Example());
    ExampleBytes();
    ExampleLengths();
    ExampleInsert(Example()[14..34]);
    hide Example, Length12, Has, Ticks, Checked, DecodeInsert;
  }
}
