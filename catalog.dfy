/**
 * The snapshot catalog `dirs` of src/components/TimeMachine.js: a fixed,
 * ordered list of directory snapshots, each an id (a 14-digit timestamp),
 * the capture time in epoch seconds and a vote count, together with the
 * lookup `_.findIndex(dirs, entry => entry[0] === override)`.
 */
module Catalog {
  import opened Wrappers
  import opened Digits

  /** One catalog entry `[directory, time, voteCount]`. */
  datatype Snapshot = Snapshot(id: string, time: int, votes: int)

  /** Capture times strictly increase along the catalog. */
  predicate AscendingTimes(c: seq<Snapshot>) {
    forall i :: 0 <= i < |c| - 1 ==> c[i].time < c[i + 1].time
  }

  /** No id occurs twice in the catalog. */
  predicate DistinctIds(c: seq<Snapshot>) {
    forall i, j :: 0 <= i < j < |c| ==> c[i].id != c[j].id
  }

  /** What the widget relies on of its catalog: non-empty, ordered by time, unique ids. */
  predicate WellFormed(c: seq<Snapshot>) {
    |c| > 0 && AscendingTimes(c) && DistinctIds(c)
  }

  /** The `entry => entry[0] === override` test; `null` equals no id. */
  predicate Matches(s: Snapshot, key: Option<string>) {
    key == Some(s.id)
  }

  /** First index at or after `from` whose entry matches `key`, or -1. */
  function FindFrom(c: seq<Snapshot>, key: Option<string>, from: nat): (r: int)
    requires from <= |c|
    ensures r == -1 || from <= r < |c|
    ensures r == -1 <==> forall i :: from <= i < |c| ==> !Matches(c[i], key)
    ensures r != -1 ==> Matches(c[r], key) && forall i :: from <= i < r ==> !Matches(c[i], key)
    decreases |c| - from
  {
    if from == |c| then -1
    else if Matches(c[from], key) then from
    else FindFrom(c, key, from + 1)
  }

  /** lodash `_.findIndex`: the first matching index, or -1 when nothing matches. */
  function FindIndex(c: seq<Snapshot>, key: Option<string>): (r: int)
    ensures -1 <= r < |c|
    ensures r == -1 <==> forall i :: 0 <= i < |c| ==> !Matches(c[i], key)
    ensures r != -1 ==> Matches(c[r], key) && forall i :: 0 <= i < r ==> !Matches(c[i], key)
  {
    FindFrom(c, key, 0)
  }

  /** With unique ids, looking up the id at index `i` finds `i`. */
  lemma FindIndexOfId(c: seq<Snapshot>, i: int)
    requires DistinctIds(c) && 0 <= i < |c|
    ensures FindIndex(c, Some(c[i].id)) == i
  {
  }

  /** A raw catalog row: the id written as its numeral. */
  datatype Row = Row(stamp: nat, time: int, votes: int)

  /** Number of catalog entries. */
  const Size: nat := 132

  /** The rows of `dirs`, in order (src/components/TimeMachine.js:150-281); the last case is row 131. */
  function Raw(i: nat): Row
    requires i < Size
  {
    match i
      case 0 => Row(20190324181931, 1553426371, 775970)
      case 1 => Row(20190324190105, 1553428865, 816440)
      case 2 => Row(20190324190306, 1553428986, 1003178)
      case 3 => Row(20190324190504, 1553429104, 1171723)
      case 4 => Row(20190324190606, 1553429166, 1407781)
      case 5 => Row(20190324190804, 1553429284, 1709732)
      case 6 => Row(20190324190905, 1553429345, 1876210)
      case 7 => Row(20190324191105, 1553429465, 2318251)
      case 8 => Row(20190324191206, 1553429526, 2547871)
      case 9 => Row(20190324191306, 1553429586, 2827558)
      case 10 => Row(20190324191405, 1553429645, 2983099)
      case 11 => Row(20190324191606, 1553429766, 3370046)
      case 12 => Row(20190324191705, 1553429825, 3562284)
      case 13 => Row(20190324191905, 1553429945, 3944938)
      case 14 => Row(20190324192105, 1553430065, 4259265)
      case 15 => Row(20190324192306, 1553430186, 4642435)
      case 16 => Row(20190324192406, 1553430246, 4855850)
      case 17 => Row(20190324192505, 1553430305, 5020792)
      case 18 => Row(20190324192704, 1553430424, 5405889)
      case 19 => Row(20190324192805, 1553430485, 5612123)
      case 20 => Row(20190324193006, 1553430606, 6046585)
      case 21 => Row(20190324193204, 1553430724, 6447130)
      case 22 => Row(20190324193404, 1553430844, 6854463)
      case 23 => Row(20190324193605, 1553430965, 7193056)
      case 24 => Row(20190324193705, 1553431025, 7396706)
      case 25 => Row(20190324193806, 1553431086, 7520415)
      case 26 => Row(20190324193905, 1553431145, 7734192)
      case 27 => Row(20190324194106, 1553431266, 8016268)
      case 28 => Row(20190324194205, 1553431325, 8026557)
      case 29 => Row(20190324194404, 1553431444, 8243946)
      case 30 => Row(20190324194505, 1553431505, 8562822)
      case 31 => Row(20190324194605, 1553431565, 8618147)
      case 32 => Row(20190324194705, 1553431625, 8852350)
      case 33 => Row(20190324194906, 1553431746, 9162223)
      case 34 => Row(20190324195006, 1553431806, 9238699)
      case 35 => Row(20190324195104, 1553431864, 9425161)
      case 36 => Row(20190324195206, 1553431926, 9481691)
      case 37 => Row(20190324195306, 1553431986, 9684824)
      case 38 => Row(20190324195405, 1553432045, 9795188)
      case 39 => Row(20190324195505, 1553432105, 9925674)
      case 40 => Row(20190324195706, 1553432226, 10124410)
      case 41 => Row(20190324195805, 1553432285, 10178645)
      case 42 => Row(20190324200005, 1553432405, 10410888)
      case 43 => Row(20190324200205, 1553432525, 10583765)
      case 44 => Row(20190324200305, 1553432585, 10687573)
      case 45 => Row(20190324200406, 1553432646, 10774754)
      case 46 => Row(20190324200505, 1553432705, 10836606)
      case 47 => Row(20190324200705, 1553432825, 11131831)
      case 48 => Row(20190324200905, 1553432945, 11710089)
      case 49 => Row(20190324201106, 1553433066, 11982205)
      case 50 => Row(20190324201305, 1553433185, 12383194)
      case 51 => Row(20190324201404, 1553433244, 12534629)
      case 52 => Row(20190324201506, 1553433306, 12670915)
      case 53 => Row(20190324201605, 1553433365, 12805367)
      case 54 => Row(20190324201804, 1553433484, 12913077)
      case 55 => Row(20190324201905, 1553433545, 13141289)
      case 56 => Row(20190324202005, 1553433605, 13312799)
      case 57 => Row(20190324202204, 1553433724, 13637095)
      case 58 => Row(20190324202405, 1553433845, 13880948)
      case 59 => Row(20190324202505, 1553433905, 14086502)
      case 60 => Row(20190324202605, 1553433965, 14202406)
      case 61 => Row(20190324202706, 1553434026, 14439776)
      case 62 => Row(20190324202906, 1553434146, 14853364)
      case 63 => Row(20190324203005, 1553434205, 14996537)
      case 64 => Row(20190324203105, 1553434265, 15202003)
      case 65 => Row(20190324203305, 1553434385, 15627419)
      case 66 => Row(20190324203406, 1553434446, 15652704)
      case 67 => Row(20190324203604, 1553434564, 16095099)
      case 68 => Row(20190324203805, 1553434685, 16341724)
      case 69 => Row(20190324203905, 1553434745, 16441396)
      case 70 => Row(20190324210605, 1553436365, 16529118)
      case 71 => Row(20190324210705, 1553436425, 16788948)
      case 72 => Row(20190324210805, 1553436485, 17096012)
      case 73 => Row(20190324211005, 1553436605, 17567044)
      case 74 => Row(20190324211105, 1553436665, 17858190)
      case 75 => Row(20190324211305, 1553436785, 18352098)
      case 76 => Row(20190324211406, 1553436846, 18451641)
      case 77 => Row(20190324211606, 1553436966, 18750448)
      case 78 => Row(20190324211806, 1553437086, 18953977)
      case 79 => Row(20190324211904, 1553437144, 19041119)
      case 80 => Row(20190324212005, 1553437205, 19140319)
      case 81 => Row(20190324212105, 1553437265, 19239359)
      case 82 => Row(20190324212204, 1553437324, 19311318)
      case 83 => Row(20190324212305, 1553437385, 19441289)
      case 84 => Row(20190324212405, 1553437445, 19530857)
      case 85 => Row(20190324212505, 1553437505, 19643911)
      case 86 => Row(20190324212705, 1553437625, 19917717)
      case 87 => Row(20190324212805, 1553437685, 20009931)
      case 88 => Row(20190324213005, 1553437805, 20474690)
      case 89 => Row(20190324213205, 1553437925, 20623625)
      case 90 => Row(20190324213306, 1553437986, 20765458)
      case 91 => Row(20190324213406, 1553438046, 20871776)
      case 92 => Row(20190324213605, 1553438165, 21017926)
      case 93 => Row(20190324213806, 1553438286, 21226542)
      case 94 => Row(20190324214004, 1553438404, 21340896)
      case 95 => Row(20190324214105, 1553438465, 21450978)
      case 96 => Row(20190324214304, 1553438584, 21625794)
      case 97 => Row(20190324214405, 1553438645, 21673999)
      case 98 => Row(20190324214506, 1553438706, 21730975)
      case 99 => Row(20190324214606, 1553438766, 21796988)
      case 100 => Row(20190324214905, 1553438945, 21875964)
      case 101 => Row(20190324215006, 1553439006, 22156002)
      case 102 => Row(20190324215205, 1553439125, 22345225)
      case 103 => Row(20190324215404, 1553439244, 22616082)
      case 104 => Row(20190324215605, 1553439365, 22823898)
      case 105 => Row(20190324215806, 1553439486, 23188122)
      case 106 => Row(20190324220006, 1553439606, 23634931)
      case 107 => Row(20190324220205, 1553439725, 23960599)
      case 108 => Row(20190324222829, 1553441309, 24430935)
      case 109 => Row(20190324222905, 1553441345, 24446663)
      case 110 => Row(20190324223005, 1553441405, 24462046)
      case 111 => Row(20190324223205, 1553441525, 24504057)
      case 112 => Row(20190324223306, 1553441586, 24519308)
      case 113 => Row(20190324223406, 1553441646, 24550811)
      case 114 => Row(20190324223605, 1553441765, 24563868)
      case 115 => Row(20190324223706, 1553441826, 24570289)
      case 116 => Row(20190324223905, 1553441945, 24670775)
      case 117 => Row(20190324224106, 1553442066, 24756910)
      case 118 => Row(20190324224305, 1553442185, 24779701)
      case 119 => Row(20190324224506, 1553442306, 24821897)
      case 120 => Row(20190324224605, 1553442365, 24914597)
      case 121 => Row(20190324224805, 1553442485, 24970793)
      case 122 => Row(20190324225006, 1553442606, 24989873)
      case 123 => Row(20190324225605, 1553442965, 25348198)
      case 124 => Row(20190324225707, 1553443027, 26353408)
      case 125 => Row(20190324225905, 1553443145, 28020522)
      case 126 => Row(20190324230105, 1553443265, 29562666)
      case 127 => Row(20190324230205, 1553443325, 30343864)
      case 128 => Row(20190324230404, 1553443444, 31788377)
      case 129 => Row(20190324230504, 1553443504, 31790414)
      case 130 => Row(20190324233206, 1553445126, 31803833)
      case _ => Row(20190325095905, 1553482745, 33354459)
  }

  /** The id string of a row: its numeral written with exactly 14 digits. */
  function IdOf(r: Row): (id: string)
    ensures |id| == 14 && AllDigits(id)
  {
    Decimal(r.stamp, 14)
  }

  /** `dirs` itself. */
  const Dirs: seq<Snapshot> := seq(Size, i requires 0 <= i < Size => Snapshot(IdOf(Raw(i)), Raw(i).time, Raw(i).votes))

  /** The capture times of consecutive rows strictly increase. */
  lemma TimesAscend()
    ensures forall i: nat :: i < 131 ==> Raw(i).time < Raw(i + 1).time
  {
  }

  /** The id numerals of consecutive rows strictly increase. */
  lemma StampsAscend()
    ensures forall i: nat :: i < 131 ==> Raw(i).stamp < Raw(i + 1).stamp
  {
  }

  /** Every id numeral has at most 14 digits. */
  lemma StampsBounded()
    ensures forall i: nat :: i < 132 ==> Raw(i).stamp < 100000000000000
  {
  }

  lemma {:induction false} StampsIncrease(i: nat, j: nat)
    requires i < j < Size
    ensures Raw(i).stamp < Raw(j).stamp
    decreases j - i
  {
    StampsAscend();
    if i + 1 < j {
      StampsIncrease(i + 1, j);
    }
  }

  /** The bound on 14-digit numerals. */
  lemma Pow10Of14()
    ensures Pow10(14) == 100000000000000
  {
  }

  /** `dirs` is non-empty, ordered by time, and its ids are unique 14-digit strings. */
  lemma DirsWellFormed()
    ensures WellFormed(Dirs)
    ensures forall i :: 0 <= i < |Dirs| ==> |Dirs[i].id| == 14 && AllDigits(Dirs[i].id)
  {
    TimesAscend();
    StampsBounded();
    Pow10Of14();
    forall i, j | 0 <= i < j < |Dirs| ensures Dirs[i].id != Dirs[j].id {
      StampsIncrease(i, j);
      DecimalInjective(Raw(i).stamp, Raw(j).stamp, 14);
    }
  }

  /** The first row's id is the string written in the source. */
  lemma {:induction false} FirstId()
    ensures Dirs[0].id == "20190324181931"
  {
    assert Decimal(2, 1) == "2";
    assert Decimal(20, 2) == "20";
    assert Decimal(201, 3) == "201";
    assert Decimal(2019, 4) == "2019";
    assert Decimal(20190, 5) == "20190";
    assert Decimal(201903, 6) == "201903";
    assert Decimal(2019032, 7) == "2019032";
    assert Decimal(20190324, 8) == "20190324";
    assert Decimal(201903241, 9) == "201903241";
    assert Decimal(2019032418, 10) == "2019032418";
    assert Decimal(20190324181, 11) == "20190324181";
    assert Decimal(201903241819, 12) == "201903241819";
    assert Decimal(2019032418193, 13) == "2019032418193";
    assert Decimal(20190324181931, 14) == "20190324181931";
  }

  /** The last row's id is the string written in the source. */
  lemma {:induction false} LastId()
    ensures Dirs[Size - 1].id == "20190325095905"
  {
    assert Decimal(2, 1) == "2";
    assert Decimal(20, 2) == "20";
    assert Decimal(201, 3) == "201";
    assert Decimal(2019, 4) == "2019";
    assert Decimal(20190, 5) == "20190";
    assert Decimal(201903, 6) == "201903";
    assert Decimal(2019032, 7) == "2019032";
    assert Decimal(20190325, 8) == "20190325";
    assert Decimal(201903250, 9) == "201903250";
    assert Decimal(2019032509, 10) == "2019032509";
    assert Decimal(20190325095, 11) == "20190325095";
    assert Decimal(201903250959, 12) == "201903250959";
    assert Decimal(2019032509590, 13) == "2019032509590";
    assert Decimal(20190325095905, 14) == "20190325095905";
  }
}
