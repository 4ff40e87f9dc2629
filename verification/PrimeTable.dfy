/** The rows of the prime table, in groups of ten; each divides every 64-bit number exactly. */
module PrimeTable {
  import opened Primes

  predicate RowOk(n: Number) {
    n.Plausible() && n.Exact()
  }

  ghost predicate AllOk(table: seq<Number>) {
    forall n | n in table :: RowOk(n)
  }

  ghost predicate Rising(table: seq<Number>) {
    forall i | 0 < i < |table| :: table[i - 1].value < table[i].value
  }

  /** Each prime is about 1.05 times the one before. */
  ghost predicate Even(table: seq<Number>) {
    forall i | 0 < i < |table| :: Next(table[i - 1].value, table[i].value)
  }

  predicate Next(a: nat, b: nat) {
    21 * a - 37 <= 20 * b <= 21 * a + (if b < TWO_32 then 3373 else 10709)
  }

  /** Exact rows in ascending order; that a group of the table is of this type is checked where it is written down. */
  type Rows = table: seq<Number> | AllOk(table) && Rising(table) && Even(table) witness []

  function Join(a: Rows, b: Rows, middle: nat): (c: Rows)
    requires a == [] || a[|a| - 1].value == middle
    requires b != [] && middle < b[0].value && Next(middle, b[0].value)
    ensures |c| == |a| + |b|
  {
    assert forall i | 0 < i < |a + b| :: i < |a| || i == |a| || (a + b)[i] == b[i - |a|];
    a + b
  }

  lemma {:induction false} RisingSorted(table: seq<Number>)
    requires Rising(table)
    ensures Sorted(table)
  {
    forall i, j | 0 <= i < j < |table| ensures table[i].value < table[j].value {
      InOrder(table, i, j);
    }
  }

  lemma {:induction false} InOrder(table: seq<Number>, i: nat, j: nat)
    requires Rising(table) && i < j < |table|
    ensures table[i].value < table[j].value
    decreases j
  {
    if i < j - 1 {
      InOrder(table, i, j - 1);
    }
  }

  /** The conditions on a row, with the power of two given. */
  predicate Fits(value: int, magic: int, power: int) {
    && 2 <= value < 0x1_0000_0000_0000_0000 && 0 <= magic < 0x1_0000_0000_0000_0000
    && var excess := value * magic - 0x1_0000_0000_0000_0000 * power;
       0 < excess <= 2 * power
       && (0x1_0000_0000_0000_0000 / value * value - 1) * excess < 0x1_0000_0000_0000_0000 * power
  }

  lemma Checked(n: Number)
    requires Fits(n.value, n.magic, Pow2(n.shift))
    ensures RowOk(n)
  {
    RowIsExact(n.value, n.magic, n.shift, Pow2(n.shift));
  }

  lemma Powers()
    ensures Pow2(1) == 0x2 && Pow2(2) == 0x4 && Pow2(3) == 0x8
    ensures Pow2(4) == 0x10 && Pow2(5) == 0x20 && Pow2(6) == 0x40
    ensures Pow2(7) == 0x80 && Pow2(8) == 0x100 && Pow2(9) == 0x200
    ensures Pow2(10) == 0x400 && Pow2(11) == 0x800 && Pow2(12) == 0x1000
    ensures Pow2(13) == 0x2000 && Pow2(14) == 0x4000 && Pow2(15) == 0x8000
    ensures Pow2(16) == 0x10000 && Pow2(17) == 0x20000 && Pow2(18) == 0x40000
    ensures Pow2(19) == 0x80000 && Pow2(20) == 0x100000 && Pow2(21) == 0x200000
    ensures Pow2(22) == 0x400000 && Pow2(23) == 0x800000 && Pow2(24) == 0x1000000
    ensures Pow2(25) == 0x2000000 && Pow2(26) == 0x4000000 && Pow2(27) == 0x8000000
    ensures Pow2(28) == 0x10000000 && Pow2(29) == 0x20000000 && Pow2(30) == 0x40000000
    ensures Pow2(31) == 0x80000000 && Pow2(32) == 0x100000000 && Pow2(33) == 0x200000000
    ensures Pow2(34) == 0x400000000 && Pow2(35) == 0x800000000 && Pow2(36) == 0x1000000000
    ensures Pow2(37) == 0x2000000000 && Pow2(38) == 0x4000000000 && Pow2(39) == 0x8000000000
    ensures Pow2(40) == 0x10000000000 && Pow2(41) == 0x20000000000 && Pow2(42) == 0x40000000000
    ensures Pow2(43) == 0x80000000000 && Pow2(44) == 0x100000000000 && Pow2(45) == 0x200000000000
    ensures Pow2(46) == 0x400000000000 && Pow2(47) == 0x800000000000 && Pow2(48) == 0x1000000000000
    ensures Pow2(49) == 0x2000000000000 && Pow2(50) == 0x4000000000000 && Pow2(51) == 0x8000000000000
    ensures Pow2(52) == 0x10000000000000 && Pow2(53) == 0x20000000000000 && Pow2(54) == 0x40000000000000
    ensures Pow2(55) == 0x80000000000000 && Pow2(56) == 0x100000000000000 && Pow2(57) == 0x200000000000000
    ensures Pow2(58) == 0x400000000000000 && Pow2(59) == 0x800000000000000 && Pow2(60) == 0x1000000000000000
    ensures Pow2(61) == 0x2000000000000000 && Pow2(62) == 0x4000000000000000 && Pow2(63) == 0x8000000000000000
  {
    assert Pow2(1) == 2 * Pow2(0);
    assert Pow2(2) == 2 * Pow2(1);
    assert Pow2(3) == 2 * Pow2(2);
    assert Pow2(4) == 2 * Pow2(3);
    assert Pow2(5) == 2 * Pow2(4);
    assert Pow2(6) == 2 * Pow2(5);
    assert Pow2(7) == 2 * Pow2(6);
    assert Pow2(8) == 2 * Pow2(7);
    assert Pow2(9) == 2 * Pow2(8);
    assert Pow2(10) == 2 * Pow2(9);
    assert Pow2(11) == 2 * Pow2(10);
    assert Pow2(12) == 2 * Pow2(11);
    assert Pow2(13) == 2 * Pow2(12);
    assert Pow2(14) == 2 * Pow2(13);
    assert Pow2(15) == 2 * Pow2(14);
    assert Pow2(16) == 2 * Pow2(15);
    assert Pow2(17) == 2 * Pow2(16);
    assert Pow2(18) == 2 * Pow2(17);
    assert Pow2(19) == 2 * Pow2(18);
    assert Pow2(20) == 2 * Pow2(19);
    assert Pow2(21) == 2 * Pow2(20);
    assert Pow2(22) == 2 * Pow2(21);
    assert Pow2(23) == 2 * Pow2(22);
    assert Pow2(24) == 2 * Pow2(23);
    assert Pow2(25) == 2 * Pow2(24);
    assert Pow2(26) == 2 * Pow2(25);
    assert Pow2(27) == 2 * Pow2(26);
    assert Pow2(28) == 2 * Pow2(27);
    assert Pow2(29) == 2 * Pow2(28);
    assert Pow2(30) == 2 * Pow2(29);
    assert Pow2(31) == 2 * Pow2(30);
    assert Pow2(32) == 2 * Pow2(31);
    assert Pow2(33) == 2 * Pow2(32);
    assert Pow2(34) == 2 * Pow2(33);
    assert Pow2(35) == 2 * Pow2(34);
    assert Pow2(36) == 2 * Pow2(35);
    assert Pow2(37) == 2 * Pow2(36);
    assert Pow2(38) == 2 * Pow2(37);
    assert Pow2(39) == 2 * Pow2(38);
    assert Pow2(40) == 2 * Pow2(39);
    assert Pow2(41) == 2 * Pow2(40);
    assert Pow2(42) == 2 * Pow2(41);
    assert Pow2(43) == 2 * Pow2(42);
    assert Pow2(44) == 2 * Pow2(43);
    assert Pow2(45) == 2 * Pow2(44);
    assert Pow2(46) == 2 * Pow2(45);
    assert Pow2(47) == 2 * Pow2(46);
    assert Pow2(48) == 2 * Pow2(47);
    assert Pow2(49) == 2 * Pow2(48);
    assert Pow2(50) == 2 * Pow2(49);
    assert Pow2(51) == 2 * Pow2(50);
    assert Pow2(52) == 2 * Pow2(51);
    assert Pow2(53) == 2 * Pow2(52);
    assert Pow2(54) == 2 * Pow2(53);
    assert Pow2(55) == 2 * Pow2(54);
    assert Pow2(56) == 2 * Pow2(55);
    assert Pow2(57) == 2 * Pow2(56);
    assert Pow2(58) == 2 * Pow2(57);
    assert Pow2(59) == 2 * Pow2(58);
    assert Pow2(60) == 2 * Pow2(59);
    assert Pow2(61) == 2 * Pow2(60);
    assert Pow2(62) == 2 * Pow2(61);
    assert Pow2(63) == 2 * Pow2(62);
  }



  function Rows0(): (t: Rows)
    ensures |t| == 10
  {
    hide RowOk, Pow2;
    Powers();
    var t := [
      Number(3, 12297829382473034411, 1),
      Number(5, 14757395258967641293, 2),
      Number(11, 3353953467947191203, 1),
      Number(13, 5675921253449092805, 2),
      Number(17, 17361641481138401521, 4),
      Number(19, 15534100272597517151, 4),
      Number(37, 15953940820505558155, 5),
      Number(41, 14397458789236723213, 5),
      Number(43, 13727809543225712831, 5),
      Number(59, 10005013734893316131, 5)
    ];
    Checked(t[0]); Checked(t[1]); Checked(t[2]); Checked(t[3]); Checked(t[4]);
    Checked(t[5]); Checked(t[6]); Checked(t[7]); Checked(t[8]); Checked(t[9]);
    t
  }

  function Rows1(): (t: Rows)
    ensures |t| == 10
  {
    hide RowOk, Pow2;
    Powers();
    var t := [
      Number(67, 17620770458468825425, 6),
      Number(73, 8086243977516515777, 5),
      Number(79, 7472098865300071541, 5),
      Number(83, 3555998857582564167, 4),
      Number(109, 10831115786398268839, 6),
      Number(113, 10447713457676206225, 6),
      Number(131, 281629680514649643, 1),
      Number(139, 4246732448623781667, 5),
      Number(149, 1980858424022502187, 4),
      Number(157, 3759845925851628355, 5)
    ];
    Checked(t[0]); Checked(t[1]); Checked(t[2]); Checked(t[3]); Checked(t[4]);
    Checked(t[5]); Checked(t[6]); Checked(t[7]); Checked(t[8]); Checked(t[9]);
    t
  }

  function Rows2(): (t: Rows)
    ensures |t| == 10
  {
    hide RowOk, Pow2;
    Powers();
    var t := [
      Number(163, 14485786757268850349, 7),
      Number(173, 13648458042975853219, 7),
      Number(191, 6181107961871263369, 6),
      Number(211, 5595220951267352149, 6),
      Number(227, 10401688288259130427, 7),
      Number(241, 1224680104478642431, 4),
      Number(257, 18374966859414961921, 8),
      Number(269, 17555265735574889271, 8),
      Number(283, 8343403679981705325, 7),
      Number(307, 15382301247132394833, 8)
    ];
    Checked(t[0]); Checked(t[1]); Checked(t[2]); Checked(t[3]); Checked(t[4]);
    Checked(t[5]); Checked(t[6]); Checked(t[7]); Checked(t[8]); Checked(t[9]);
    t
  }

  function Rows3(): (t: Rows)
    ensures |t| == 10
  {
    hide RowOk, Pow2;
    Powers();
    var t := [
      Number(331, 14266968226192281613, 8),
      Number(349, 13531136054067751329, 8),
      Number(373, 12660499954074115855, 8),
      Number(397, 185861401246443845, 2),
      Number(419, 5635282199128454909, 7),
      Number(439, 10757099049816959485, 8),
      Number(461, 5121872541073367911, 7),
      Number(499, 591478767894494641, 4),
      Number(523, 18058762840801702539, 9),
      Number(557, 16956432613535530391, 9)
    ];
    Checked(t[0]); Checked(t[1]); Checked(t[2]); Checked(t[3]); Checked(t[4]);
    Checked(t[5]); Checked(t[6]); Checked(t[7]); Checked(t[8]); Checked(t[9]);
    t
  }

  function Rows4(): (t: Rows)
    ensures |t| == 10
  {
    hide RowOk, Pow2;
    Powers();
    var t := [
      Number(587, 2011229336826935781, 6),
      Number(617, 7653754429286296943, 8),
      Number(647, 14597732559102458157, 9),
      Number(691, 13668209791229074425, 9),
      Number(727, 1623922449404967405, 6),
      Number(769, 12281837406683082481, 9),
      Number(809, 729661075845124415, 5),
      Number(877, 673085302575491051, 5),
      Number(941, 2509227674213414035, 7),
      Number(997, 4736576211504157687, 8)
    ];
    Checked(t[0]); Checked(t[1]); Checked(t[2]); Checked(t[3]); Checked(t[4]);
    Checked(t[5]); Checked(t[6]); Checked(t[7]); Checked(t[8]); Checked(t[9]);
    t
  }

  function Rows5(): (t: Rows)
    ensures |t| == 10
  {
    hide RowOk, Pow2;
    Powers();
    var t := [
      Number(1049, 18007117189207417403, 10),
      Number(1103, 4281383937325154319, 8),
      Number(1163, 8121008568993370961, 9),
      Number(1223, 15445188823776435695, 10),
      Number(1283, 7361444244535690123, 9),
      Number(1367, 6909095073693701849, 9),
      Number(1439, 13126800508324239649, 10),
      Number(1523, 12402801005567026169, 10),
      Number(1609, 2934969846407486149, 8),
      Number(1693, 5578696376691843135, 9)
    ];
    Checked(t[0]); Checked(t[1]); Checked(t[2]); Checked(t[3]); Checked(t[4]);
    Checked(t[5]); Checked(t[6]); Checked(t[7]); Checked(t[8]); Checked(t[9]);
    t
  }

  function Rows6(): (t: Rows)
    ensures |t| == 10
  {
    hide RowOk, Pow2;
    Powers();
    var t := [
      Number(1783, 5297102055939029965, 9),
      Number(1871, 10095919792345580361, 10),
      Number(1987, 9506525380713930979, 10),
      Number(2087, 1131376732838918355, 7),
      Number(2203, 1071803559434781029, 7),
      Number(2333, 2024160515589217837, 8),
      Number(2459, 15363534714500675767, 11),
      Number(2591, 14580830514456642883, 11),
      Number(2719, 6947210714041405243, 10),
      Number(2857, 826455457275051665, 7)
    ];
    Checked(t[0]); Checked(t[1]); Checked(t[2]); Checked(t[3]); Checked(t[4]);
    Checked(t[5]); Checked(t[6]); Checked(t[7]); Checked(t[8]); Checked(t[9]);
    t
  }

  function Rows7(): (t: Rows)
    ensures |t| == 10
  {
    hide RowOk, Pow2;
    Powers();
    var t := [
      Number(2999, 12597176346434532081, 11),
      Number(3163, 11944018926006058081, 11),
      Number(3323, 2842230805217962813, 9),
      Number(3491, 10821808038658596881, 11),
      Number(3671, 10291182746651365217, 11),
      Number(3863, 9779687254195485817, 11),
      Number(4091, 9234644796616270279, 11),
      Number(4297, 17583864027441080619, 12),
      Number(4513, 16742269826260652209, 12),
      Number(4751, 15903570559022168685, 12)
    ];
    Checked(t[0]); Checked(t[1]); Checked(t[2]); Checked(t[3]); Checked(t[4]);
    Checked(t[5]); Checked(t[6]); Checked(t[7]); Checked(t[8]); Checked(t[9]);
    t
  }

  function Rows8(): (t: Rows)
    ensures |t| == 10
  {
    hide RowOk, Pow2;
    Powers();
    var t := [
      Number(4987, 1893870656855682861, 9),
      Number(5237, 7213849887904747319, 11),
      Number(5501, 6867648039076015581, 11),
      Number(5791, 3261865987131511113, 10),
      Number(6079, 3107331128718305783, 10),
      Number(6397, 11811452825686153419, 12),
      Number(6733, 11222020455356352803, 12),
      Number(7079, 5336761105093538877, 11),
      Number(7433, 5082595434273800849, 11),
      Number(7877, 9592213244371502275, 12)
    ];
    Checked(t[0]); Checked(t[1]); Checked(t[2]); Checked(t[3]); Checked(t[4]);
    Checked(t[5]); Checked(t[6]); Checked(t[7]); Checked(t[8]); Checked(t[9]);
    t
  }

  function Rows9(): (t: Rows)
    ensures |t| == 10
  {
    hide RowOk, Pow2;
    Powers();
    var t := [
      Number(8269, 18274970063106620733, 13),
      Number(8681, 17407640531255459837, 13),
      Number(9127, 16556998734724295699, 13),
      Number(9587, 15762566752042207869, 13),
      Number(10067, 3752749762884390753, 11),
      Number(10589, 14271010241933010373, 13),
      Number(11117, 13593211068798115215, 13),
      Number(11677, 12941314331748620951, 13),
      Number(12263, 12322900387493162101, 13),
      Number(12893, 732547348618575229, 9)
    ];
    Checked(t[0]); Checked(t[1]); Checked(t[2]); Checked(t[3]); Checked(t[4]);
    Checked(t[5]); Checked(t[6]); Checked(t[7]); Checked(t[8]); Checked(t[9]);
    t
  }

  function Rows10(): (t: Rows)
    ensures |t| == 10
  {
    hide RowOk, Pow2;
    Powers();
    var t := [
      Number(13537, 2790790563858843297, 11),
      Number(14221, 5313118889382907209, 12),
      Number(14947, 5055052099144599145, 12),
      Number(15727, 4804340543391258563, 12),
      Number(16519, 4573997440881065647, 12),
      Number(17351, 17418676439609088449, 14),
      Number(18217, 2073828394519249147, 11),
      Number(19139, 3947848044616454539, 12),
      Number(20101, 15035642749298905213, 14),
      Number(21107, 111867306648733719, 7)
    ];
    Checked(t[0]); Checked(t[1]); Checked(t[2]); Checked(t[3]); Checked(t[4]);
    Checked(t[5]); Checked(t[6]); Checked(t[7]); Checked(t[8]); Checked(t[9]);
    t
  }

  function Rows11(): (t: Rows)
    ensures |t| == 10
  {
    hide RowOk, Pow2;
    Powers();
    var t := [
      Number(22189, 3405194633643441499, 12),
      Number(23297, 6486488708925125417, 13),
      Number(24473, 1543698437582526119, 11),
      Number(25717, 2938051239488055505, 12),
      Number(27011, 5594599513229004733, 13),
      Number(28387, 2661706546162480129, 12),
      Number(29819, 10135532878488792169, 14),
      Number(31321, 9649482931696219587, 14),
      Number(32887, 9189997716534110551, 14),
      Number(34537, 17501893905299087569, 15)
    ];
    Checked(t[0]); Checked(t[1]); Checked(t[2]); Checked(t[3]); Checked(t[4]);
    Checked(t[5]); Checked(t[6]); Checked(t[7]); Checked(t[8]); Checked(t[9]);
    t
  }

  function Rows12(): (t: Rows)
    ensures |t| == 10
  {
    hide RowOk, Pow2;
    Powers();
    var t := [
      Number(36263, 4167215273193851773, 13),
      Number(38083, 3968062585716163297, 13),
      Number(39989, 15115729570814838765, 15),
      Number(41999, 14392316717238853005, 15),
      Number(44101, 6853165572292176905, 14),
      Number(46307, 6526690455085781711, 14),
      Number(48623, 6215812576427972229, 14),
      Number(51059, 11838518376923061309, 15),
      Number(53611, 1409372399804411845, 12),
      Number(56333, 2682543579284409615, 13)
    ];
    Checked(t[0]); Checked(t[1]); Checked(t[2]); Checked(t[3]); Checked(t[4]);
    Checked(t[5]); Checked(t[6]); Checked(t[7]); Checked(t[8]); Checked(t[9]);
    t
  }

  function Rows13(): (t: Rows)
    ensures |t| == 10
  {
    hide RowOk, Pow2;
    Powers();
    var t := [
      Number(59149, 10219325936318696637, 15),
      Number(62119, 9730725056863674357, 15),
      Number(65239, 9265361360647995637, 15),
      Number(68501, 4412073617956778641, 14),
      Number(71933, 16806275556623930251, 16),
      Number(75533, 8002633415954808989, 15),
      Number(79309, 15243236197841722563, 16),
      Number(83273, 7258810296342326893, 15),
      Number(87481, 3454823960673258121, 14),
      Number(91867, 13159522131065879747, 16)
    ];
    Checked(t[0]); Checked(t[1]); Checked(t[2]); Checked(t[3]); Checked(t[4]);
    Checked(t[5]); Checked(t[6]); Checked(t[7]); Checked(t[8]); Checked(t[9]);
    t
  }

  function Rows14(): (t: Rows)
    ensures |t| == 10
  {
    hide RowOk, Pow2;
    Powers();
    var t := [
      Number(96461, 6266396883790491363, 15),
      Number(101287, 11935646426635492953, 16),
      Number(106357, 11366678447254333751, 16),
      Number(111697, 5411630659796723165, 15),
      Number(117281, 10307942630218272139, 16),
      Number(123191, 76667394255581093, 9),
      Number(129379, 9344065262636356555, 16),
      Number(135851, 556181873713953695, 12),
      Number(142657, 2118588326571127205, 14),
      Number(149791, 16141501420173831201, 17)
    ];
    Checked(t[0]); Checked(t[1]); Checked(t[2]); Checked(t[3]); Checked(t[4]);
    Checked(t[5]); Checked(t[6]); Checked(t[7]); Checked(t[8]); Checked(t[9]);
    t
  }

  function Rows15(): (t: Rows)
    ensures |t| == 10
  {
    hide RowOk, Pow2;
    Powers();
    var t := [
      Number(157279, 3843252499108683215, 15),
      Number(165161, 7319680915074558611, 16),
      Number(173431, 13941288692501677033, 17),
      Number(182101, 13277530816575737363, 17),
      Number(191227, 197560657558593513, 11),
      Number(200789, 6020876739336463525, 16),
      Number(210827, 11468415521869866523, 17),
      Number(221399, 10920788437297631649, 17),
      Number(232499, 10399406617788714573, 17),
      Number(244157, 9902856109918037777, 17)
    ];
    Checked(t[0]); Checked(t[1]); Checked(t[2]); Checked(t[3]); Checked(t[4]);
    Checked(t[5]); Checked(t[6]); Checked(t[7]); Checked(t[8]); Checked(t[9]);
    t
  }

  function Rows16(): (t: Rows)
    ensures |t| == 10
  {
    hide RowOk, Pow2;
    Powers();
    var t := [
      Number(256369, 9431138863237202429, 17),
      Number(269189, 8981985293712812743, 17),
      Number(282661, 8553891903125151151, 17),
      Number(296797, 2036620686217564825, 15),
      Number(311677, 7757555543813814781, 17),
      Number(327263, 14776199198988326511, 18),
      Number(343627, 14072535855618204329, 18),
      Number(360817, 13402093799511987237, 18),
      Number(378869, 6381761609498951747, 17),
      Number(397811, 6077890353030103113, 17)
    ];
    Checked(t[0]); Checked(t[1]); Checked(t[2]); Checked(t[3]); Checked(t[4]);
    Checked(t[5]); Checked(t[6]); Checked(t[7]); Checked(t[8]); Checked(t[9]);
    t
  }

  function Rows17(): (t: Rows)
    ensures |t| == 10
  {
    hide RowOk, Pow2;
    Powers();
    var t := [
      Number(417719, 1447056298150944983, 15),
      Number(438611, 5512519383301509423, 17),
      Number(460543, 5250001930827866995, 17),
      Number(483611, 2499789747575280907, 16),
      Number(507803, 9522793836307616731, 18),
      Number(533213, 18137979675883808905, 19),
      Number(559877, 17274162998153225437, 19),
      Number(587891, 2056377491090404811, 16),
      Number(617311, 7833496047306004103, 18),
      Number(648181, 3730210603564835053, 17)
    ];
    Checked(t[0]); Checked(t[1]); Checked(t[2]); Checked(t[3]); Checked(t[4]);
    Checked(t[5]); Checked(t[6]); Checked(t[7]); Checked(t[8]); Checked(t[9]);
    t
  }

  function Rows18(): (t: Rows)
    ensures |t| == 10
  {
    hide RowOk, Pow2;
    Powers();
    var t := [
      Number(680597, 14210180998325049035, 19),
      Number(714673, 13532631786729082249, 19),
      Number(750413, 12888111689052606229, 19),
      Number(787981, 12273654513138049519, 19),
      Number(827389, 11689068330515674487, 19),
      Number(868771, 5566142606577011317, 18),
      Number(912211, 10602159540848590291, 19),
      Number(957821, 1262162574859633663, 16),
      Number(1005761, 4808004365309965985, 18),
      Number(1056049, 2289525996643392825, 17)
    ];
    Checked(t[0]); Checked(t[1]); Checked(t[2]); Checked(t[3]); Checked(t[4]);
    Checked(t[5]); Checked(t[6]); Checked(t[7]); Checked(t[8]); Checked(t[9]);
    t
  }

  function Rows19(): (t: Rows)
    ensures |t| == 10
  {
    hide RowOk, Pow2;
    Powers();
    var t := [
      Number(1108867, 4360940742630555963, 18),
      Number(1164323, 16612927094830272009, 20),
      Number(1222561, 7910776277762036739, 19),
      Number(1283701, 3767001255322319371, 18),
      Number(1347893, 7175203489384567913, 19),
      Number(1415303, 13666906036258007505, 20),
      Number(1486081, 6507994218967225473, 19),
      Number(1560407, 6198002544795706119, 19),
      Number(1638431, 11805692832859038187, 20),
      Number(1720361, 11243461758220551847, 20)
    ];
    Checked(t[0]); Checked(t[1]); Checked(t[2]); Checked(t[3]); Checked(t[4]);
    Checked(t[5]); Checked(t[6]); Checked(t[7]); Checked(t[8]); Checked(t[9]);
    t
  }

  function Rows20(): (t: Rows)
    ensures |t| == 10
  {
    hide RowOk, Pow2;
    Powers();
    var t := [
      Number(1806379, 5354029556874295703, 19),
      Number(1896761, 10197812541397712625, 20),
      Number(1991603, 4856091578952749819, 19),
      Number(2091191, 4624831761860601637, 19),
      Number(2195749, 8809209574424976077, 20),
      Number(2305549, 16779355471372819919, 21),
      Number(2420827, 15980334913510190357, 21),
      Number(2541899, 3715620866816223, 9),
      Number(2668999, 14494432642225843319, 21),
      Number(2802451, 6902105733100798835, 20)
    ];
    Checked(t[0]); Checked(t[1]); Checked(t[2]); Checked(t[3]); Checked(t[4]);
    Checked(t[5]); Checked(t[6]); Checked(t[7]); Checked(t[8]); Checked(t[9]);
    t
  }

  function Rows21(): (t: Rows)
    ensures |t| == 10
  {
    hide RowOk, Pow2;
    Powers();
    var t := [
      Number(2942609, 3286677420247485615, 19),
      Number(3089753, 3130155244421490455, 19),
      Number(3244247, 11924377591369625553, 21),
      Number(3406489, 354889101246071593, 16),
      Number(3576847, 1351945799878640797, 18),
      Number(3755729, 643776917671444971, 17),
      Number(3943523, 9809915202134774817, 21),
      Number(4140757, 4671322928110504141, 20),
      Number(4347799, 2224437366335709953, 19),
      Number(4565189, 16948094034077508551, 22)
    ];
    Checked(t[0]); Checked(t[1]); Checked(t[2]); Checked(t[3]); Checked(t[4]);
    Checked(t[5]); Checked(t[6]); Checked(t[7]); Checked(t[8]); Checked(t[9]);
    t
  }

  function Rows22(): (t: Rows)
    ensures |t| == 10
  {
    hide RowOk, Pow2;
    Powers();
    var t := [
      Number(4793471, 4035241501165661959, 20),
      Number(5033143, 240193020467455261, 16),
      Number(5284819, 14640284266185136555, 22),
      Number(5549087, 1742882488041191893, 19),
      Number(5826577, 13279023422386122621, 22),
      Number(6117919, 6323330895304127693, 21),
      Number(6423821, 3011107114260199155, 20),
      Number(6745021, 5735434512015327097, 21),
      Number(7082311, 2731144271105020211, 20),
      Number(7436459, 5202156863591681685, 21)
    ];
    Checked(t[0]); Checked(t[1]); Checked(t[2]); Checked(t[3]); Checked(t[4]);
    Checked(t[5]); Checked(t[6]); Checked(t[7]); Checked(t[8]); Checked(t[9]);
    t
  }

  function Rows23(): (t: Rows)
    ensures |t| == 10
  {
    hide RowOk, Pow2;
    Powers();
    var t := [
      Number(7808329, 9908810509308235755, 22),
      Number(8198783, 4718459584510058821, 21),
      Number(8608727, 17975074004631873489, 23),
      Number(9039167, 2139888898372390597, 20),
      Number(9491137, 2037986925468894485, 20),
      Number(9965699, 15527511407947654687, 23),
      Number(10463987, 7394050896215397361, 22),
      Number(10987189, 7041951536042227651, 22),
      Number(11536549, 3353310095390582885, 21),
      Number(12113417, 6387235943032116139, 22)
    ];
    Checked(t[0]); Checked(t[1]); Checked(t[2]); Checked(t[3]); Checked(t[4]);
    Checked(t[5]); Checked(t[6]); Checked(t[7]); Checked(t[8]); Checked(t[9]);
    t
  }

  function Rows24(): (t: Rows)
    ensures |t| == 10
  {
    hide RowOk, Pow2;
    Powers();
    var t := [
      Number(12719107, 12166145383529876301, 23),
      Number(13355101, 11586771594664281039, 23),
      Number(14022871, 5517504400870283067, 22),
      Number(14724029, 10509521878194652725, 23),
      Number(15460229, 10009069394164377149, 23),
      Number(16233247, 9532443195786556711, 23),
      Number(17044913, 283703605788924631, 18),
      Number(17897161, 2161550998377236121, 21),
      Number(18792019, 4117240007863778085, 22),
      Number(19731653, 1960587195997625419, 21)
    ];
    Checked(t[0]); Checked(t[1]); Checked(t[2]); Checked(t[3]); Checked(t[4]);
    Checked(t[5]); Checked(t[6]); Checked(t[7]); Checked(t[8]); Checked(t[9]);
    t
  }

  function Rows25(): (t: Rows)
    ensures |t| == 10
  {
    hide RowOk, Pow2;
    Powers();
    var t := [
      Number(20718241, 3734450837565615111, 22),
      Number(21754153, 3556619853475162521, 22),
      Number(22841893, 211703262880117541, 18),
      Number(23984003, 403244052167481525, 19),
      Number(25183231, 6144664475764548813, 23),
      Number(26442397, 11704120841289277547, 24),
      Number(27764563, 5573381612765615449, 23),
      Number(29152847, 5307972319501849489, 23),
      Number(30610513, 5055207827149859735, 23),
      Number(32141063, 9628959994924407719, 24)
    ];
    Checked(t[0]); Checked(t[1]); Checked(t[2]); Checked(t[3]); Checked(t[4]);
    Checked(t[5]); Checked(t[6]); Checked(t[7]); Checked(t[8]); Checked(t[9]);
    t
  }

  function Rows26(): (t: Rows)
    ensures |t| == 10
  {
    hide RowOk, Pow2;
    Powers();
    var t := [
      Number(33748133, 18340867023449567935, 25),
      Number(35435539, 8733746361847214141, 24),
      Number(37207351, 16635691684761168229, 25),
      Number(39067739, 1980438449620446865, 22),
      Number(41021129, 15089053732350714615, 25),
      Number(43072187, 3592631711751078123, 23),
      Number(45225799, 3421553810705976347, 23),
      Number(47487101, 13034487399908664407, 25),
      Number(49861457, 1551724660900628459, 22),
      Number(52354573, 5911327169478491759, 24)
    ];
    Checked(t[0]); Checked(t[1]); Checked(t[2]); Checked(t[3]); Checked(t[4]);
    Checked(t[5]); Checked(t[6]); Checked(t[7]); Checked(t[8]); Checked(t[9]);
    t
  }

  function Rows27(): (t: Rows)
    ensures |t| == 10
  {
    hide RowOk, Pow2;
    Powers();
    var t := [
      Number(54972419, 11259646762910144767, 25),
      Number(57721051, 5361735527326851147, 24),
      Number(60607117, 5106413654708985229, 24),
      Number(63637523, 1215811816800856111, 22),
      Number(66819437, 2315830720194073685, 23),
      Number(70160413, 17644423491141368779, 26),
      Number(73668433, 16804212996974976717, 26),
      Number(77351861, 16004011064263602849, 26),
      Number(81219493, 15241907989814468245, 26),
      Number(85280491, 14516098872899081631, 26)
    ];
    Checked(t[0]); Checked(t[1]); Checked(t[2]); Checked(t[3]); Checked(t[4]);
    Checked(t[5]); Checked(t[6]); Checked(t[7]); Checked(t[8]); Checked(t[9]);
    t
  }

  function Rows28(): (t: Rows)
    ensures |t| == 10
  {
    hide RowOk, Pow2;
    Powers();
    var t := [
      Number(89544529, 6912426996435372813, 25),
      Number(94021813, 6583259776565786255, 25),
      Number(98722909, 12539541752009964323, 26),
      Number(103659103, 1492801890352770411, 23),
      Number(108842081, 11373726300633486371, 26),
      Number(114284237, 2708028840594570087, 24),
      Number(119998469, 10316298612821304203, 26),
      Number(125998403, 9825045475261938637, 26),
      Number(132298343, 9357184762966987991, 26),
      Number(138913259, 8911604609934176801, 26)
    ];
    Checked(t[0]); Checked(t[1]); Checked(t[2]); Checked(t[3]); Checked(t[4]);
    Checked(t[5]); Checked(t[6]); Checked(t[7]); Checked(t[8]); Checked(t[9]);
    t
  }

  function Rows29(): (t: Rows)
    ensures |t| == 10
  {
    hide RowOk, Pow2;
    Powers();
    var t := [
      Number(145858943, 8487241260793863527, 26),
      Number(153151891, 2020771717545068175, 24),
      Number(160809487, 15396355804373410817, 27),
      Number(168849973, 14663194992460914103, 27),
      Number(177292481, 6982473437694068227, 26),
      Number(186157109, 13299949122924768615, 27),
      Number(195464981, 12666617139828031651, 27),
      Number(205238239, 12063444369013322853, 27),
      Number(215500157, 11488994314610919517, 27),
      Number(226275163, 1367737429588527437, 24)
    ];
    Checked(t[0]); Checked(t[1]); Checked(t[2]); Checked(t[3]); Checked(t[4]);
    Checked(t[5]); Checked(t[6]); Checked(t[7]); Checked(t[8]); Checked(t[9]);
    t
  }

  function Rows30(): (t: Rows)
    ensures |t| == 10
  {
    hide RowOk, Pow2;
    Powers();
    var t := [
      Number(237588937, 10420855911194049199, 27),
      Number(249468431, 9924622801555041447, 27),
      Number(261941873, 2363005244460056745, 25),
      Number(275038969, 9001924663885576701, 27),
      Number(288790927, 1071657662643068661, 24),
      Number(303230491, 16330020575475442869, 28),
      Number(318392033, 1944049961962113975, 25),
      Number(334311667, 7405903900358824599, 27),
      Number(351027263, 14106483111374517653, 28),
      Number(368578633, 3358686392668291965, 26)
    ];
    Checked(t[0]); Checked(t[1]); Checked(t[2]); Checked(t[3]); Checked(t[4]);
    Checked(t[5]); Checked(t[6]); Checked(t[7]); Checked(t[8]); Checked(t[9]);
    t
  }

  function Rows31(): (t: Rows)
    ensures |t| == 10
  {
    hide RowOk, Pow2;
    Powers();
    var t := [
      Number(387007589, 6397497488274733935, 27),
      Number(406357967, 12185709544957736979, 28),
      Number(426675871, 11605437508186445115, 28),
      Number(448009669, 11052797517058769327, 28),
      Number(470410163, 10526473589690537999, 28),
      Number(493930721, 1253151491345868599, 25),
      Number(518627269, 2386955166611920429, 26),
      Number(544558643, 18186324726615425695, 29),
      Number(571786583, 17320309025654493539, 29),
      Number(600375911, 8247766218490936589, 28)
    ];
    Checked(t[0]); Checked(t[1]); Checked(t[2]); Checked(t[3]); Checked(t[4]);
    Checked(t[5]); Checked(t[6]); Checked(t[7]); Checked(t[8]); Checked(t[9]);
    t
  }

  function Rows32(): (t: Rows)
    ensures |t| == 10
  {
    hide RowOk, Pow2;
    Powers();
    var t := [
      Number(630394717, 15710030631939833023, 29),
      Number(661914481, 14961933298877385037, 29),
      Number(695010221, 3562364989407487505, 27),
      Number(729760741, 3392728519731045041, 27),
      Number(766248787, 12924679924202010123, 29),
      Number(804561257, 6154609253253566869, 28),
      Number(844789403, 11723064090427566833, 29),
      Number(887028911, 11164822466855358449, 29),
      Number(931380407, 166143182471598347, 23),
      Number(977949439, 10126822430012194321, 29)
    ];
    Checked(t[0]); Checked(t[1]); Checked(t[2]); Checked(t[3]); Checked(t[4]);
    Checked(t[5]); Checked(t[6]); Checked(t[7]); Checked(t[8]); Checked(t[9]);
    t
  }

  function Rows33(): (t: Rows)
    ensures |t| == 10
  {
    hide RowOk, Pow2;
    Powers();
    var t := [
      Number(1026846941, 2411148127061285709, 27),
      Number(1078189297, 18370652244163470303, 30),
      Number(1132098761, 17495859293291890105, 30),
      Number(1188703709, 16662722996993765079, 30),
      Number(1248138943, 991828711240989037, 26),
      Number(1310545897, 7556790141385671897, 29),
      Number(1376073217, 14393885720519829287, 30),
      Number(1444876883, 13708462542109952491, 30),
      Number(1517120861, 13055677459678727863, 30),
      Number(1592977037, 12433977495286446115, 30)
    ];
    Checked(t[0]); Checked(t[1]); Checked(t[2]); Checked(t[3]); Checked(t[4]);
    Checked(t[5]); Checked(t[6]); Checked(t[7]); Checked(t[8]); Checked(t[9]);
    t
  }

  function Rows34(): (t: Rows)
    ensures |t| == 10
  {
    hide RowOk, Pow2;
    Powers();
    var t := [
      Number(1672625909, 1480235398273243267, 27),
      Number(1756257211, 11277983944782268227, 30),
      Number(1844070071, 2685234273368086727, 28),
      Number(1936273601, 10229463758807960115, 30),
      Number(2033087339, 2435586539817373335, 28),
      Number(2134741709, 9278424900333497161, 30),
      Number(2241478829, 8836595006968091421, 30),
      Number(2353552771, 16831609533148712559, 31),
      Number(2471230409, 8015052160426083685, 30),
      Number(2594791931, 7633383005369799109, 30)
    ];
    Checked(t[0]); Checked(t[1]); Checked(t[2]); Checked(t[3]); Checked(t[4]);
    Checked(t[5]); Checked(t[6]); Checked(t[7]); Checked(t[8]); Checked(t[9]);
    t
  }

  function Rows35(): (t: Rows)
    ensures |t| == 10
  {
    hide RowOk, Pow2;
    Powers();
    var t := [
      Number(2724531541, 14539777081307853649, 31),
      Number(2860758139, 13847406642694924025, 31),
      Number(3003796087, 1648500768268535633, 28),
      Number(3153985903, 12560005807081176671, 31),
      Number(3311685211, 1495238780755457829, 28),
      Number(3477269557, 2848073798117412443, 29),
      Number(3651133121, 678112793075221469, 27),
      Number(3833689799, 1291643407985999417, 28),
      Number(4025374307, 9841092588146280131, 31),
      Number(4226643191, 2343117189397746397, 29)
    ];
    Checked(t[0]); Checked(t[1]); Checked(t[2]); Checked(t[3]); Checked(t[4]);
    Checked(t[5]); Checked(t[6]); Checked(t[7]); Checked(t[8]); Checked(t[9]);
    t
  }

  function Rows36(): (t: Rows)
    ensures |t| == 10
  {
    hide RowOk, Pow2;
    Powers();
    var t := [
      Number(4437975361, 17852321400993992043, 32),
      Number(4659874133, 17002210843677381703, 32),
      Number(4892867927, 16192581466804905563, 32),
      Number(5137511359, 7710753025924778067, 31),
      Number(5394386939, 7343574294000449121, 31),
      Number(5664106297, 1748470066589049079, 29),
      Number(5947311613, 3330419173811346145, 30),
      Number(6244677209, 6343655553571170791, 31),
      Number(6556911073, 377598544650989893, 27),
      Number(6884756651, 1438470641201903855, 29)
    ];
    Checked(t[0]); Checked(t[1]); Checked(t[2]); Checked(t[3]); Checked(t[4]);
    Checked(t[5]); Checked(t[6]); Checked(t[7]); Checked(t[8]); Checked(t[9]);
    t
  }

  function Rows37(): (t: Rows)
    ensures |t| == 10
  {
    hide RowOk, Pow2;
    Powers();
    var t := [
      Number(7228994671, 5479888014864490249, 31),
      Number(7590444419, 10437881913204526107, 32),
      Number(7969966657, 9940839896071391757, 32),
      Number(8368465003, 9467466552810095751, 32),
      Number(8786888267, 18033269595975923793, 33),
      Number(9226232699, 8587271218820614487, 32),
      Number(9687544343, 16356707068187576831, 33),
      Number(10171921577, 15577816229611762685, 33),
      Number(10680517669, 14836015438506801387, 33),
      Number(11214543667, 14129538368538654083, 33)
    ];
    Checked(t[0]); Checked(t[1]); Checked(t[2]); Checked(t[3]); Checked(t[4]);
    Checked(t[5]); Checked(t[6]); Checked(t[7]); Checked(t[8]); Checked(t[9]);
    t
  }

  function Rows38(): (t: Rows)
    ensures |t| == 10
  {
    hide RowOk, Pow2;
    Powers();
    var t := [
      Number(11775270853, 3364175801275912171, 31),
      Number(12364034467, 12815907740426770131, 33),
      Number(12982236217, 6102813197199147651, 32),
      Number(13631348041, 1453050759836151439, 30),
      Number(14312915467, 11070862913559934825, 33),
      Number(15028561283, 10543678935372956631, 33),
      Number(15779989387, 10041598960710928087, 33),
      Number(16568988859, 9563427580099906155, 33),
      Number(17397438323, 18216052511483149943, 34),
      Number(18267310249, 8674310715076566125, 33)
    ];
    Checked(t[0]); Checked(t[1]); Checked(t[2]); Checked(t[3]); Checked(t[4]);
    Checked(t[5]); Checked(t[6]); Checked(t[7]); Checked(t[8]); Checked(t[9]);
    t
  }

  function Rows39(): (t: Rows)
    ensures |t| == 10
  {
    hide RowOk, Pow2;
    Powers();
    var t := [
      Number(19180675771, 2065312073989917443, 31),
      Number(20139709561, 15735711038790255491, 34),
      Number(21146695051, 936649466065357335, 30),
      Number(22204029811, 3568188440956526943, 32),
      Number(23314231351, 6796549396930134083, 33),
      Number(24479942941, 12945808363232710297, 34),
      Number(25703940113, 12329341286349166121, 34),
      Number(26989137127, 11742229792890160463, 34),
      Number(28338593999, 11183075987052866009, 34),
      Number(29755523717, 10650548552637237737, 34)
    ];
    Checked(t[0]); Checked(t[1]); Checked(t[2]); Checked(t[3]); Checked(t[4]);
    Checked(t[5]); Checked(t[6]); Checked(t[7]); Checked(t[8]); Checked(t[9]);
    t
  }

  function Rows40(): (t: Rows)
    ensures |t| == 10
  {
    hide RowOk, Pow2;
    Powers();
    var t := [
      Number(31243299917, 10143379569346319199, 34),
      Number(32805464957, 301886296300453383, 29),
      Number(34445738207, 18400688535260071187, 35),
      Number(36168025123, 8762232634469334069, 34),
      Number(37976426413, 16689966907922255975, 35),
      Number(39875247739, 15895206576840941963, 35),
      Number(41869010171, 15138291961655333511, 35),
      Number(43962460741, 7208710447854895029, 34),
      Number(46160583811, 6865438516865931117, 34),
      Number(48468613051, 6538512866534744747, 34)
    ];
    Checked(t[0]); Checked(t[1]); Checked(t[2]); Checked(t[3]); Checked(t[4]);
    Checked(t[5]); Checked(t[6]); Checked(t[7]); Checked(t[8]); Checked(t[9]);
    t
  }

  function Rows41(): (t: Rows)
    ensures |t| == 10
  {
    hide RowOk, Pow2;
    Powers();
    var t := [
      Number(50892043747, 12454310211337850455, 35),
      Number(53436645961, 2965311953601575993, 33),
      Number(56108478299, 353013327558361135, 30),
      Number(58913902231, 10758501408188866449, 35),
      Number(61859597357, 10246191814929286119, 35),
      Number(64952577353, 1219784737465925721, 32),
      Number(68200206227, 2323399499718769013, 33),
      Number(71610216569, 2212761427356502081, 33),
      Number(75190727407, 16859134682479683775, 36),
      Number(78950263811, 16056318738375259177, 36)
    ];
    Checked(t[0]); Checked(t[1]); Checked(t[2]); Checked(t[3]); Checked(t[4]);
    Checked(t[5]); Checked(t[6]); Checked(t[7]); Checked(t[8]); Checked(t[9]);
    t
  }

  function Rows42(): (t: Rows)
    ensures |t| == 10
  {
    hide RowOk, Pow2;
    Powers();
    var t := [
      Number(82897777007, 15291732130780627285, 36),
      Number(87042665867, 14563554408652673137, 36),
      Number(91394799161, 6935025908832903385, 35),
      Number(95964539119, 13209573159688603261, 36),
      Number(100762766171, 3145136463594489011, 34),
      Number(105800904527, 5990736118445611451, 35),
      Number(111090949819, 11410925933153033577, 36),
      Number(116645497313, 10867548507480633553, 36),
      Number(122477772247, 2587511547956163001, 34),
      Number(128601660959, 9857186841718740025, 36)
    ];
    Checked(t[0]); Checked(t[1]); Checked(t[2]); Checked(t[3]); Checked(t[4]);
    Checked(t[5]); Checked(t[6]); Checked(t[7]); Checked(t[8]); Checked(t[9]);
    t
  }

  function Rows43(): (t: Rows)
    ensures |t| == 10
  {
    hide RowOk, Pow2;
    Powers();
    var t := [
      Number(135031744009, 9387796991970563815, 36),
      Number(141783331211, 17881518079748447215, 37),
      Number(148872497797, 17030017215896735325, 37),
      Number(156316122691, 8109532007354575905, 36),
      Number(164131928839, 3861681907947633321, 35),
      Number(172338525313, 14711169170397987639, 37),
      Number(180955451639, 7005318650234144005, 36),
      Number(190003224311, 3335866022340022861, 35),
      Number(199503385547, 794253814761447975, 33),
      Number(209478554867, 12102915270091234561, 37)
    ];
    Checked(t[0]); Checked(t[1]); Checked(t[2]); Checked(t[3]); Checked(t[4]);
    Checked(t[5]); Checked(t[6]); Checked(t[7]); Checked(t[8]); Checked(t[9]);
    t
  }

  function Rows44(): (t: Rows)
    ensures |t| == 10
  {
    hide RowOk, Pow2;
    Powers();
    var t := [
      Number(219952482619, 1440823246382769897, 34),
      Number(230950106813, 5488850460912081057, 36),
      Number(242497612171, 10454953258132132847, 37),
      Number(254622492793, 9957098340552254979, 37),
      Number(267353617439, 9482950800300724571, 37),
      Number(280721298331, 18062763427854137777, 38),
      Number(294757363253, 2150328979466685855, 35),
      Number(309495231443, 511983090303967127, 33),
      Number(324969993053, 7801647089437490025, 37),
      Number(341218492723, 7430140084800760217, 37)
    ];
    Checked(t[0]); Checked(t[1]); Checked(t[2]); Checked(t[3]); Checked(t[4]);
    Checked(t[5]); Checked(t[6]); Checked(t[7]); Checked(t[8]); Checked(t[9]);
    t
  }

  function Rows45(): (t: Rows)
    ensures |t| == 10
  {
    hide RowOk, Pow2;
    Powers();
    var t := [
      Number(358279417381, 7076323889854882177, 37),
      Number(376193388269, 13478712170473192985, 38),
      Number(395003057699, 3209217183311537233, 36),
      Number(414753210583, 12225589269786240019, 38),
      Number(435490871201, 5821709174900925211, 37),
      Number(457265414773, 11088969856664348349, 38),
      Number(480128685587, 5280461835678132219, 37),
      Number(504135119923, 5029011271509298283, 37),
      Number(529341875947, 2394767272021290201, 36),
      Number(555808969759, 18245845881586049375, 39)
    ];
    Checked(t[0]); Checked(t[1]); Checked(t[2]); Checked(t[3]); Checked(t[4]);
    Checked(t[5]); Checked(t[6]); Checked(t[7]); Checked(t[8]); Checked(t[9]);
    t
  }

  function Rows46(): (t: Rows)
    ensures |t| == 10
  {
    hide RowOk, Pow2;
    Powers();
    var t := [
      Number(583599418277, 17376996076806244003, 39),
      Number(612779389213, 16549520072550591999, 39),
      Number(643418358719, 7880723843516254105, 38),
      Number(675589276709, 1876362819734705443, 36),
      Number(709368740617, 14296097672707064803, 39),
      Number(744837177653, 13615331116769731263, 39),
      Number(782079036559, 3241745503896006575, 37),
      Number(821182988387, 6174753340753922271, 38),
      Number(862242137849, 2940358733546901847, 37),
      Number(905354244917, 5600683300908115055, 38)
    ];
    Checked(t[0]); Checked(t[1]); Checked(t[2]); Checked(t[3]); Checked(t[4]);
    Checked(t[5]); Checked(t[6]); Checked(t[7]); Checked(t[8]); Checked(t[9]);
    t
  }

  function Rows47(): (t: Rows)
    ensures |t| == 10
  {
    hide RowOk, Pow2;
    Powers();
    var t := [
      Number(950621957303, 5333984095316578539, 38),
      Number(998153055223, 10159969704806606005, 39),
      Number(1048060707989, 2419040405895140425, 37),
      Number(1100463743389, 9215392022453072055, 39),
      Number(1155486930613, 17553127660986700359, 40),
      Number(1213261277161, 16717264438795890829, 40),
      Number(1273924341023, 7960602113687645885, 39),
      Number(1337620558103, 3790762911198071633, 38),
      Number(1404501586093, 14441001565596421675, 40),
      Number(1474726665421, 13753334824159781815, 40)
    ];
    Checked(t[0]); Checked(t[1]); Checked(t[2]); Checked(t[3]); Checked(t[4]);
    Checked(t[5]); Checked(t[6]); Checked(t[7]); Checked(t[8]); Checked(t[9]);
    t
  }

  function Rows48(): (t: Rows)
    ensures |t| == 10
  {
    hide RowOk, Pow2;
    Powers();
    var t := [
      Number(1548462998851, 13098414116902856733, 40),
      Number(1625886148903, 6237340055248147143, 39),
      Number(1707180456391, 11880647723983982373, 40),
      Number(1792539479293, 2828725648437504227, 38),
      Number(1882166453477, 5388048853538744859, 39),
      Number(1976274776167, 10262950197132788655, 40),
      Number(2075088514987, 9774238282928733535, 40),
      Number(2178842940751, 9308798364631441885, 40),
      Number(2287785087839, 8865522251834443073, 40),
      Number(2402174342237, 16886709051070694853, 41)
    ];
    Checked(t[0]); Checked(t[1]); Checked(t[2]); Checked(t[3]); Checked(t[4]);
    Checked(t[5]); Checked(t[6]); Checked(t[7]); Checked(t[8]); Checked(t[9]);
    t
  }

  function Rows49(): (t: Rows)
    ensures |t| == 10
  {
    hide RowOk, Pow2;
    Powers();
    var t := [
      Number(2522283059347, 4020645012162638243, 39),
      Number(2648397212317, 59831026966646059, 33),
      Number(2780817072931, 14587374193782458005, 41),
      Number(2919857926577, 13892737327414481677, 41),
      Number(3065850822911, 13231178407039185457, 41),
      Number(3219143364077, 12601122292338221701, 41),
      Number(3380100532351, 1500133606199607175, 38),
      Number(3549105559033, 5714794690180439967, 40),
      Number(3726560837047, 2721330804802297305, 39),
      Number(3912888879007, 5183487247099864809, 40)
    ];
    Checked(t[0]); Checked(t[1]); Checked(t[2]); Checked(t[3]); Checked(t[4]);
    Checked(t[5]); Checked(t[6]); Checked(t[7]); Checked(t[8]); Checked(t[9]);
    t
  }

  function Rows50(): (t: Rows)
    ensures |t| == 10
  {
    hide RowOk, Pow2;
    Powers();
    var t := [
      Number(4108533323047, 9873309041879540653, 41),
      Number(4313959989413, 9403151467991011841, 41),
      Number(4529657988913, 17910764700819207529, 42),
      Number(4756140888377, 17057871143571528337, 42),
      Number(4993947932801, 8122795782644732113, 41),
      Number(5243645329459, 15471991966889383297, 42),
      Number(5505827595941, 1841903805579041879, 39),
      Number(5781118975739, 14033552804409441543, 42),
      Number(6070174924579, 6682644192517521899, 41),
      Number(6373683670811, 12728846080979664861, 42)
    ];
    Checked(t[0]); Checked(t[1]); Checked(t[2]); Checked(t[3]); Checked(t[4]);
    Checked(t[5]); Checked(t[6]); Checked(t[7]); Checked(t[8]); Checked(t[9]);
    t
  }

  function Rows51(): (t: Rows)
    ensures |t| == 10
  {
    hide RowOk, Pow2;
    Powers();
    var t := [
      Number(6692367854377, 12122710553267865813, 42),
      Number(7026986247119, 11545438622121836423, 42),
      Number(7378335559501, 5497827915276701915, 41),
      Number(7747252337609, 5236026585887956299, 41),
      Number(8134614954497, 9973383973110660139, 42),
      Number(8541345702271, 9498460926717399687, 42),
      Number(8968412987389, 9046153263535892081, 42),
      Number(9416833636757, 17230768121023400007, 43),
      Number(9887675318611, 16410255353328815421, 43),
      Number(10382059084633, 3907203655520063397, 41)
    ];
    Checked(t[0]); Checked(t[1]); Checked(t[2]); Checked(t[3]); Checked(t[4]);
    Checked(t[5]); Checked(t[6]); Checked(t[7]); Checked(t[8]); Checked(t[9]);
    t
  }

  function Rows52(): (t: Rows)
    ensures |t| == 10
  {
    hide RowOk, Pow2;
    Powers();
    var t := [
      Number(10901162038883, 14884585354337090951, 43),
      Number(11446220140841, 14175795575541981435, 43),
      Number(12018531147923, 13500757690947486301, 43),
      Number(12619457705359, 6428932233764215863, 42),
      Number(13250430590651, 12245585207147708807, 43),
      Number(13912952120191, 5831231051019596017, 42),
      Number(14608599726313, 11107106763761352371, 43),
      Number(15339029712647, 5289098458927649999, 42),
      Number(16105981198301, 10074473255086743393, 43),
      Number(16911280258291, 9594736433373422667, 43)
    ];
    Checked(t[0]); Checked(t[1]); Checked(t[2]); Checked(t[3]); Checked(t[4]);
    Checked(t[5]); Checked(t[6]); Checked(t[7]); Checked(t[8]); Checked(t[9]);
    t
  }

  function Rows53(): (t: Rows)
    ensures |t| == 10
  {
    hide RowOk, Pow2;
    Powers();
    var t := [
      Number(17756844271213, 4568922111128284349, 42),
      Number(18644686484807, 17405417566171854693, 44),
      Number(19576920809087, 16576588158225335937, 44),
      Number(20555766849589, 15787226817320866675, 44),
      Number(21583555192079, 15035454111726809437, 44),
      Number(22662732951713, 14319480106387498043, 44),
      Number(23795869599331, 3409400025325721667, 42),
      Number(24985663079317, 811761910791206579, 40),
      Number(26234946233311, 6184852653640651897, 43),
      Number(27546693545051, 5890335860594224949, 43)
    ];
    Checked(t[0]); Checked(t[1]); Checked(t[2]); Checked(t[3]); Checked(t[4]);
    Checked(t[5]); Checked(t[6]); Checked(t[7]); Checked(t[8]); Checked(t[9]);
    t
  }

  function Rows54(): (t: Rows)
    ensures |t| == 10
  {
    hide RowOk, Pow2;
    Powers();
    var t := [
      Number(28924028222329, 5609843676751468661, 43),
      Number(30370229633461, 10685416527140183503, 44),
      Number(31888741115167, 10176587168694421405, 44),
      Number(33483178170971, 4845993889847879495, 43),
      Number(35157337079519, 9230464552091343439, 44),
      Number(36915203933497, 8790918621038886521, 44),
      Number(38760964130257, 16744606897180142191, 45),
      Number(40699012336781, 15947244663976718855, 45),
      Number(42733962953639, 7593926030461736757, 44),
      Number(44870661101341, 14464621010396844739, 45)
    ];
    Checked(t[0]); Checked(t[1]); Checked(t[2]); Checked(t[3]); Checked(t[4]);
    Checked(t[5]); Checked(t[6]); Checked(t[7]); Checked(t[8]); Checked(t[9]);
    t
  }

  function Rows55(): (t: Rows)
    ensures |t| == 10
  {
    hide RowOk, Pow2;
    Powers();
    var t := [
      Number(47114194156493, 13775829533686441975, 45),
      Number(49469903864351, 13119837651121100035, 45),
      Number(51943399057603, 12495083477249903497, 45),
      Number(54540569010611, 5950039751057434971, 44),
      Number(57267597461141, 11333409049633318315, 45),
      Number(60130977334199, 10793722904412513581, 45),
      Number(63137526200921, 2569934024859631801, 43),
      Number(66294402511313, 4895112428278515971, 44),
      Number(69609122636917, 9324023672906322075, 45),
      Number(73089578768803, 17760045091240381233, 46)
    ];
    Checked(t[0]); Checked(t[1]); Checked(t[2]); Checked(t[3]); Checked(t[4]);
    Checked(t[5]); Checked(t[6]); Checked(t[7]); Checked(t[8]); Checked(t[9]);
    t
  }

  function Rows56(): (t: Rows)
    ensures |t| == 10
  {
    hide RowOk, Pow2;
    Powers();
    var t := [
      Number(76744057707277, 8457164329158356045, 45),
      Number(80581260592649, 8054442218245238749, 45),
      Number(84610323622289, 7670897350709066695, 45),
      Number(88840839803449, 14611233048962159455, 46),
      Number(93282881793631, 1739432505828650429, 43),
      Number(97947025883323, 13252819092026398845, 46),
      Number(102844377177559, 12621732468587997881, 46),
      Number(107986596036437, 3005174397282855247, 44),
      Number(113385925838287, 2862070854554389677, 44),
      Number(119055222130219, 10903127064967487137, 46)
    ];
    Checked(t[0]); Checked(t[1]); Checked(t[2]); Checked(t[3]); Checked(t[4]);
    Checked(t[5]); Checked(t[6]); Checked(t[7]); Checked(t[8]); Checked(t[9]);
    t
  }

  function Rows57(): (t: Rows)
    ensures |t| == 10
  {
    hide RowOk, Pow2;
    Powers();
    var t := [
      Number(125007983236757, 10383930538062026525, 46),
      Number(131258382398683, 9889457655290526595, 46),
      Number(137821301518801, 4709265550132063961, 45),
      Number(144712366594753, 4485014809649214363, 45),
      Number(151947984924497, 17085770703424864501, 47),
      Number(159545384170751, 16272162574687374111, 47),
      Number(167522653379297, 3874324422544417459, 45),
      Number(175898786048299, 3689832783374856379, 45),
      Number(184693725350723, 14056505841427335531, 47),
      Number(193928411618287, 836696776275316481, 43)
    ];
    Checked(t[0]); Checked(t[1]); Checked(t[2]); Checked(t[3]); Checked(t[4]);
    Checked(t[5]); Checked(t[6]); Checked(t[7]); Checked(t[8]); Checked(t[9]);
    t
  }

  function Rows58(): (t: Rows)
    ensures |t| == 10
  {
    hide RowOk, Pow2;
    Powers();
    var t := [
      Number(203624832199223, 12749665162289181271, 47),
      Number(213806073809197, 12142538249798490477, 47),
      Number(224496377499701, 5782161071331477379, 46),
      Number(235721196374689, 11013640135869342889, 47),
      Number(247507256193427, 5244590540890088057, 46),
      Number(259882619003297, 4994848134177218265, 46),
      Number(272876749953557, 4756998223024263429, 46),
      Number(286520587451237, 4530474498118312127, 46),
      Number(300846616823833, 17258950469020182321, 48),
      Number(315888947665051, 16437095684779754913, 48)
    ];
    Checked(t[0]); Checked(t[1]); Checked(t[2]); Checked(t[3]); Checked(t[4]);
    Checked(t[5]); Checked(t[6]); Checked(t[7]); Checked(t[8]); Checked(t[9]);
    t
  }

  function Rows59(): (t: Rows)
    ensures |t| == 10
  {
    hide RowOk, Pow2;
    Powers();
    var t := [
      Number(331683395048363, 15654376842644579785, 48),
      Number(348267564800807, 14908930326327064615, 48),
      Number(365680943040869, 7099490631583896161, 47),
      Number(383964990193007, 3380709824562927589, 46),
      Number(403163239702661, 6439447284881708537, 47),
      Number(423321401687831, 12265613875964088503, 48),
      Number(444487471772237, 11681537024727323577, 48),
      Number(466711845360847, 11125273356883209411, 48),
      Number(490047437628913, 1324437304390794345, 45),
      Number(514549809510377, 10090950890596168477, 48)
    ];
    Checked(t[0]); Checked(t[1]); Checked(t[2]); Checked(t[3]); Checked(t[4]);
    Checked(t[5]); Checked(t[6]); Checked(t[7]); Checked(t[8]); Checked(t[9]);
    t
  }

  function Rows60(): (t: Rows)
    ensures |t| == 10
  {
    hide RowOk, Pow2;
    Powers();
    var t := [
      Number(540277299986003, 4805214709806746285, 47),
      Number(567291164985341, 18305579846881621631, 49),
      Number(595655723234653, 8716942784228685827, 48),
      Number(625438509396409, 4150925135346838281, 47),
      Number(656710434866231, 3953262033663646175, 47),
      Number(689545956609611, 15060045842526680921, 49),
      Number(724023254440627, 14342900802395755517, 49),
      Number(760224417162697, 6829952763045250629, 48),
      Number(798235638020831, 13009433834371919813, 49),
      Number(838147419921883, 6194968492557979815, 48)
    ];
    Checked(t[0]); Checked(t[1]); Checked(t[2]); Checked(t[3]); Checked(t[4]);
    Checked(t[5]); Checked(t[6]); Checked(t[7]); Checked(t[8]); Checked(t[9]);
    t
  }

  function Rows61(): (t: Rows)
    ensures |t| == 10
  {
    hide RowOk, Pow2;
    Powers();
    var t := [
      Number(880054790918011, 5899969992912134795, 48),
      Number(924057530463983, 5619019040868265331, 48),
      Number(970260406987181, 10702893411177660935, 49),
      Number(1018773427336681, 5096615910083895315, 48),
      Number(1069712098703531, 4853919914365542211, 48),
      Number(1123197703638737, 4622780870824204707, 48),
      Number(1179357588820721, 8805296896807656935, 49),
      Number(1238325468261769, 16771994089157279929, 50),
      Number(1300241741674879, 15973327703959049479, 50),
      Number(1365253828758623, 15212693051389570375, 50)
    ];
    Checked(t[0]); Checked(t[1]); Checked(t[2]); Checked(t[3]); Checked(t[4]);
    Checked(t[5]); Checked(t[6]); Checked(t[7]); Checked(t[8]); Checked(t[9]);
    t
  }

  function Rows62(): (t: Rows)
    ensures |t| == 10
  {
    hide RowOk, Pow2;
    Powers();
    var t := [
      Number(1433516520196571, 905517443535082831, 46),
      Number(1505192346206447, 13798361044343684347, 50),
      Number(1580451963516779, 1642662029088523821, 47),
      Number(1659474561692683, 6257760110813178781, 49),
      Number(1742448289777331, 11919543068215483887, 50),
      Number(1829570704266313, 1418993222406515683, 47),
      Number(1921049239479793, 10811376932620146933, 50),
      Number(2017101701453837, 5148274729818978869, 49),
      Number(2117956786526611, 1225779697575899805, 47),
      Number(2223854625852991, 9339273886292362273, 50)
    ];
    Checked(t[0]); Checked(t[1]); Checked(t[2]); Checked(t[3]); Checked(t[4]);
    Checked(t[5]); Checked(t[6]); Checked(t[7]); Checked(t[8]); Checked(t[9]);
    t
  }

  function Rows63(): (t: Rows)
    ensures |t| == 10
  {
    hide RowOk, Pow2;
    Powers();
    var t := [
      Number(2335047357145673, 17789093116747109497, 51),
      Number(2451799725002977, 16941993444520916045, 51),
      Number(2574389711253163, 8067615925962224553, 50),
      Number(2703109196815823, 7683443739011637173, 50),
      Number(2838264656656643, 14635130931450588711, 51),
      Number(2980177889489539, 13938219934714547767, 51),
      Number(3129186783964027, 13274495175918570045, 51),
      Number(3285646123162259, 12642376358017567823, 51),
      Number(3449928429320413, 12040358436207064185, 51),
      Number(3622424850786461, 11467008034482831693, 51)
    ];
    Checked(t[0]); Checked(t[1]); Checked(t[2]); Checked(t[3]); Checked(t[4]);
    Checked(t[5]); Checked(t[6]); Checked(t[7]); Checked(t[8]); Checked(t[9]);
    t
  }

  function Rows64(): (t: Rows)
    ensures |t| == 10
  {
    hide RowOk, Pow2;
    Powers();
    var t := [
      Number(3803546093325871, 10920960032840542433, 51),
      Number(3993723397992173, 10400914316990970787, 51),
      Number(4193409567891821, 4952816341424225327, 50),
      Number(4403080046286421, 9433935888427076685, 51),
      Number(4623234048600743, 561543802882563973, 47),
      Number(4854395751030779, 17113715897373382279, 52),
      Number(5097115538582321, 4074694261279374295, 50),
      Number(5351971315511461, 7761322402436868687, 51),
      Number(5619569881287097, 7391735621368363567, 51),
      Number(5900548375351481, 7039748210826978143, 51)
    ];
    Checked(t[0]); Checked(t[1]); Checked(t[2]); Checked(t[3]); Checked(t[4]);
    Checked(t[5]); Checked(t[6]); Checked(t[7]); Checked(t[8]); Checked(t[9]);
    t
  }

  function Rows65(): (t: Rows)
    ensures |t| == 10
  {
    hide RowOk, Pow2;
    Powers();
    var t := [
      Number(6195575794119307, 13409044211098460693, 52),
      Number(6505354583825287, 99769674189720465, 45),
      Number(6830622313016639, 12162398377413386333, 52),
      Number(7172153428667531, 11583236549917413811, 52),
      Number(7530761100100921, 11031653857064183927, 52),
      Number(7907299155105991, 5253168503363881197, 51),
      Number(8302664112861337, 1250754405562821859, 49),
      Number(8717797318504493, 4764778687858320261, 51),
      Number(9153687184429741, 9075768929253920203, 52),
      Number(9611371543651247, 17287178912864575827, 53)
    ];
    Checked(t[0]); Checked(t[1]); Checked(t[2]); Checked(t[3]); Checked(t[4]);
    Checked(t[5]); Checked(t[6]); Checked(t[7]); Checked(t[8]); Checked(t[9]);
    t
  }

  function Rows66(): (t: Rows)
    ensures |t| == 10
  {
    hide RowOk, Pow2;
    Powers();
    var t := [
      Number(10091940120833861, 8231989958506898739, 52),
      Number(10596537126875629, 15679980873346362883, 53),
      Number(11126363983219531, 7466657558736282379, 52),
      Number(11682682182380519, 14222204873783381069, 53),
      Number(12266816291499617, 3386239255662689889, 51),
      Number(12880157106074683, 1612494883648889287, 50),
      Number(13524164961378517, 12285675303991446719, 53),
      Number(14200373209447571, 11700643146658415093, 53),
      Number(14910391869919981, 5571734831742090673, 52),
      Number(15655911463415981, 2653207062734328731, 51)
    ];
    Checked(t[0]); Checked(t[1]); Checked(t[2]); Checked(t[3]); Checked(t[4]);
    Checked(t[5]); Checked(t[6]); Checked(t[7]); Checked(t[8]); Checked(t[9]);
    t
  }

  function Rows67(): (t: Rows)
    ensures |t| == 10
  {
    hide RowOk, Pow2;
    Powers();
    var t := [
      Number(16438707036586829, 10107455477083126973, 53),
      Number(17260642388416249, 1203268509176557259, 50),
      Number(18123674507837099, 9167760069916607741, 53),
      Number(19029858233228981, 17462400133174466113, 54),
      Number(19981351144890479, 16630857269689926985, 54),
      Number(20980418702135003, 15838911685418978043, 54),
      Number(22029439637241899, 15084677795637022075, 54),
      Number(23130911619104053, 14366359805368555777, 54),
      Number(24287457200059267, 13682247433684332441, 54),
      Number(25501830060062243, 13030711841604119671, 54)
    ];
    Checked(t[0]); Checked(t[1]); Checked(t[2]); Checked(t[3]); Checked(t[4]);
    Checked(t[5]); Checked(t[6]); Checked(t[7]); Checked(t[8]); Checked(t[9]);
    t
  }

  function Rows68(): (t: Rows)
    ensures |t| == 10
  {
    hide RowOk, Pow2;
    Powers();
    var t := [
      Number(26776921563065419, 193909402404822747, 48),
      Number(28115767641218743, 11819239765627268945, 54),
      Number(29521556023279703, 2814104706101728523, 52),
      Number(30997633824443711, 670024930024220583, 50),
      Number(32547515515665947, 10209903695607154963, 54),
      Number(34174891291449269, 4861858902670070285, 53),
      Number(35883635856021739, 9260683624133465519, 54),
      Number(37677817648822853, 4409849344825456605, 53),
      Number(39561708531264013, 4199856518881385401, 53),
      Number(41539793957827267, 15999453405262400027, 55)
    ];
    Checked(t[0]); Checked(t[1]); Checked(t[2]); Checked(t[3]); Checked(t[4]);
    Checked(t[5]); Checked(t[6]); Checked(t[7]); Checked(t[8]); Checked(t[9]);
    t
  }

  function Rows69(): (t: Rows)
    ensures |t| == 10
  {
    hide RowOk, Pow2;
    Powers();
    var t := [
      Number(43616783655718643, 15237574671678471797, 55),
      Number(45797622838504627, 14511975877789004329, 55),
      Number(48087503980429867, 13820929407418096875, 55),
      Number(50491879179451373, 13162789911826755631, 55),
      Number(53016473138423957, 6267995196107977057, 54),
      Number(55667296795345217, 11939038468777085827, 55),
      Number(58450661635112503, 5685256413703371757, 54),
      Number(61373194716868207, 10829059835625456101, 55),
      Number(64441854452711651, 10313390319643286139, 55),
      Number(67663947175347401, 2455569123724585861, 53)
    ];
    Checked(t[0]); Checked(t[1]); Checked(t[2]); Checked(t[3]); Checked(t[4]);
    Checked(t[5]); Checked(t[6]); Checked(t[7]); Checked(t[8]); Checked(t[9]);
    t
  }

  function Rows70(): (t: Rows)
    ensures |t| == 10
  {
    hide RowOk, Pow2;
    Powers();
    var t := [
      Number(71047144534114849, 4677274521380158413, 54),
      Number(74599501760820593, 1113636790804799599, 52),
      Number(78329476848861697, 16969703478930263497, 56),
      Number(82245950691304817, 2020202795110744791, 53),
      Number(86358248225870107, 7696010648040928157, 55),
      Number(90676160637163627, 7329533950515168489, 55),
      Number(95209968669021809, 3490254262150080209, 54),
      Number(99970467102473027, 6648103356476334773, 55),
      Number(104968990457596879, 12663054012335851553, 56),
      Number(110217439980476921, 12060051440319836951, 56)
    ];
    Checked(t[0]); Checked(t[1]); Checked(t[2]); Checked(t[3]); Checked(t[4]);
    Checked(t[5]); Checked(t[6]); Checked(t[7]); Checked(t[8]); Checked(t[9]);
    t
  }

  function Rows71(): (t: Rows)
    ensures |t| == 10
  {
    hide RowOk, Pow2;
    Powers();
    var t := [
      Number(115728311979501007, 2871440819123764749, 54),
      Number(121514727578476087, 2734705542022632427, 54),
      Number(127590463957399943, 5208962937185964419, 55),
      Number(133969987155270011, 1240229270758562301, 53),
      Number(140668486513033511, 9449365872446188997, 56),
      Number(147701910838685293, 17998792137992727975, 57),
      Number(155087006380619567, 17141706798088311323, 57),
      Number(162841356699650569, 8162717522899194683, 56),
      Number(170983424534633129, 7774016688475422073, 56),
      Number(179532595761364817, 14807650835191277537, 57)
    ];
    Checked(t[0]); Checked(t[1]); Checked(t[2]); Checked(t[3]); Checked(t[4]);
    Checked(t[5]); Checked(t[6]); Checked(t[7]); Checked(t[8]); Checked(t[9]);
    t
  }

  function Rows72(): (t: Rows)
    ensures |t| == 10
  {
    hide RowOk, Pow2;
    Powers();
    var t := [
      Number(188509225549433093, 14102524604944071215, 57),
      Number(197934686826904793, 13430975814232445699, 57),
      Number(207831421168250129, 12791405537364228069, 57),
      Number(218222992226662673, 6091145493982964699, 56),
      Number(229134141837995873, 11602181893300881781, 57),
      Number(240590848929895999, 5524848520619459883, 56),
      Number(252620391376390847, 10523520991656112061, 57),
      Number(265251410945210549, 10022400944434386407, 57),
      Number(278513981492471381, 9545143756604167093, 57),
      Number(292439680567094981, 18181226203055554443, 58)
    ];
    Checked(t[0]); Checked(t[1]); Checked(t[2]); Checked(t[3]); Checked(t[4]);
    Checked(t[5]); Checked(t[6]); Checked(t[7]); Checked(t[8]); Checked(t[9]);
    t
  }

  function Rows73(): (t: Rows)
    ensures |t| == 10
  {
    hide RowOk, Pow2;
    Powers();
    var t := [
      Number(307061664595449749, 270553961354993353, 52),
      Number(322414747825222259, 16490908120685307981, 58),
      Number(338535485216483417, 7852813390802526565, 57),
      Number(355462259477307673, 7478869896002404461, 57),
      Number(373235372451173171, 14245466468576004133, 58),
      Number(391897141073731841, 13567110922453336873, 58),
      Number(411491998127418553, 12921058021384126589, 58),
      Number(432066598033789489, 6152884772087679209, 57),
      Number(453669927935478967, 11719780518262246021, 58),
      Number(476353424332252979, 2790423932919582013, 56)
    ];
    Checked(t[0]); Checked(t[1]); Checked(t[2]); Checked(t[3]); Checked(t[4]);
    Checked(t[5]); Checked(t[6]); Checked(t[7]); Checked(t[8]); Checked(t[9]);
    t
  }

  function Rows74(): (t: Rows)
    ensures |t| == 10
  {
    hide RowOk, Pow2;
    Powers();
    var t := [
      Number(500171095548865693, 5315093205561107905, 57),
      Number(525179650326309179, 10123987058211630223, 58),
      Number(551438632842624641, 9641892436392028731, 58),
      Number(579010564484755961, 18365509402651480507, 59),
      Number(607961092708993897, 17490961335858548895, 59),
      Number(638359147344443641, 16658058415103378617, 59),
      Number(670277104711665961, 495775548068552833, 54),
      Number(703790959947249319, 15109350036374942195, 59),
      Number(738980507944611817, 3597464294374986081, 57),
      Number(775929533341842413, 13704625883333280217, 59)
    ];
    Checked(t[0]); Checked(t[1]); Checked(t[2]); Checked(t[3]); Checked(t[4]);
    Checked(t[5]); Checked(t[6]); Checked(t[7]); Checked(t[8]); Checked(t[9]);
    t
  }

  function Rows75(): (t: Rows)
    ensures |t| == 10
  {
    hide RowOk, Pow2;
    Powers();
    var t := [
      Number(814726010008934533, 13052024650793600217, 59),
      Number(855462310509381313, 6215249833711237811, 58),
      Number(898235426034850433, 184977673622358257, 53),
      Number(943147197336593023, 11274829630315169133, 59),
      Number(990304557203422691, 10737932981252541849, 59),
      Number(1039819785063593969, 10226602839288133683, 59),
      Number(1091810774316773677, 9739621751702984375, 59),
      Number(1146401313032612359, 9275830239717127991, 59),
      Number(1203721378684243091, 8834124037825835345, 59),
      Number(1263907447618455529, 8413451464596031775, 59)
    ];
    Checked(t[0]); Checked(t[1]); Checked(t[2]); Checked(t[3]); Checked(t[4]);
    Checked(t[5]); Checked(t[6]); Checked(t[7]); Checked(t[8]); Checked(t[9]);
    t
  }

  function Rows76(): (t: Rows)
    ensures |t| == 10
  {
    hide RowOk, Pow2;
    Powers();
    var t := [
      Number(1327102819999378337, 16025621837325774429, 60),
      Number(1393457960999347253, 15262496987929308989, 60),
      Number(1463130859049314661, 908481963567220745, 56),
      Number(1536287402001780431, 6921767341464538843, 59),
      Number(1613101772101869463, 1648039843205842571, 57),
      Number(1693756860706962959, 6278247021736543043, 59),
      Number(1778444703742311217, 11958565755688652675, 60),
      Number(1867366938929426969, 5694555121756500691, 59),
      Number(1960735285875898321, 10846771660488572725, 60),
      Number(2058772050169693399, 5165129362137415177, 59)
    ];
    Checked(t[0]); Checked(t[1]); Checked(t[2]); Checked(t[3]); Checked(t[4]);
    Checked(t[5]); Checked(t[6]); Checked(t[7]); Checked(t[8]); Checked(t[9]);
    t
  }

  function Rows77(): (t: Rows)
    ensures |t| == 10
  {
    hide RowOk, Pow2;
    Powers();
    var t := [
      Number(2161710652678178227, 2459585410541626095, 58),
      Number(2269796185312087163, 9369849183015718355, 60),
      Number(2383285994577691523, 17847331777172796853, 61),
      Number(2502450294306576181, 8498729417701331557, 60),
      Number(2627572809021905011, 4047014008429205471, 59),
      Number(2758951449473000293, 7708598111293724619, 60),
      Number(2896899021946650319, 14683044021511856359, 61),
      Number(3041743973043982909, 6991925724529455239, 60),
      Number(3193831171696182079, 13317953761008486067, 61),
      Number(3353522730280991201, 12683765486674748567, 61)
    ];
    Checked(t[0]); Checked(t[1]); Checked(t[2]); Checked(t[3]); Checked(t[4]);
    Checked(t[5]); Checked(t[6]); Checked(t[7]); Checked(t[8]); Checked(t[9]);
    t
  }

  function Rows78(): (t: Rows)
    ensures |t| == 10
  {
    hide RowOk, Pow2;
    Powers();
    var t := [
      Number(3521198866795040881, 12079776653975950605, 61),
      Number(3697258810134792971, 11504549194262809957, 61),
      Number(3882121750641532621, 1369589189793191661, 58),
      Number(4076227838173609267, 5217482627783587261, 60),
      Number(4280039230082289733, 38820555266246929, 53),
      Number(4494041191586404219, 2366205273371241387, 59),
      Number(4718743251165724471, 9014115327128538539, 61),
      Number(4954680413724010873, 8584871740122417347, 61),
      Number(5202414434410211531, 16352136647852223159, 62),
      Number(5462535156130722121, 7786731737072487199, 61)
    ];
    Checked(t[0]); Checked(t[1]); Checked(t[2]); Checked(t[3]); Checked(t[4]);
    Checked(t[5]); Checked(t[6]); Checked(t[7]); Checked(t[8]); Checked(t[9]);
    t
  }

  function Rows79(): (t: Rows)
    ensures |t| == 10
  {
    hide RowOk, Pow2;
    Powers();
    var t := [
      Number(5735661913937258341, 14831869975376165799, 62),
      Number(6022445009634121283, 1765698806592400683, 59),
      Number(6323567260115827453, 6726471644161526299, 61),
      Number(6639745623121618859, 12812326941260050029, 62),
      Number(6971732904277699861, 12202216134533380877, 62),
      Number(7320319549491584971, 11621158223365124459, 62),
      Number(7686335526966164273, 11067769736538213693, 62),
      Number(8070652303314472717, 5270366541208673037, 61),
      Number(8474184918480196373, 627424588239127741, 58),
      Number(8897894164404206201, 2390188907577629487, 60)
    ];
    Checked(t[0]); Checked(t[1]); Checked(t[2]); Checked(t[3]); Checked(t[4]);
    Checked(t[5]); Checked(t[6]); Checked(t[7]); Checked(t[8]); Checked(t[9]);
    t
  }

  function Rows80(): (t: Rows)
    ensures |t| == 10
  {
    hide RowOk, Pow2;
    Powers();
    var t := [
      Number(9342788872624416551, 9105481552676683721, 62),
      Number(9809928316255637389, 17343774386050826117, 63),
      Number(10300424732068419343, 16517880367667453309, 63),
      Number(10815445968671840317, 7865657317936882523, 62),
      Number(11356218267105432353, 7491102207558935723, 62),
      Number(11924029180460704009, 7134383054818033999, 62),
      Number(12520230639483739223, 6794650528398127611, 62),
      Number(13146242171457926281, 3235547870665775029, 61),
      Number(13803554280030822631, 12325896650155333411, 63),
      Number(14493731994032363789, 11738949190624127037, 63)
    ];
    Checked(t[0]); Checked(t[1]); Checked(t[2]); Checked(t[3]); Checked(t[4]);
    Checked(t[5]); Checked(t[6]); Checked(t[7]); Checked(t[8]); Checked(t[9]);
    t
  }

  function Rows81(): (t: Rows)
    ensures |t| == 4
  {
    hide RowOk, Pow2;
    Powers();
    var t := [
      Number(15218418593733982013, 1397493951264777025, 60),
      Number(15979339523420681189, 1330946620252168589, 60),
      Number(16778306499591715409, 10140545678111760581, 63),
      Number(17617221824571301183, 9657662550582629123, 63)
    ];
    Checked(t[0]); Checked(t[1]); Checked(t[2]); Checked(t[3]);
    t
  }

  // ----- the whole table

  function Part0(): (t: Rows)
    ensures |t| == 90 && t[0].value == 3 && t[|t| - 1].value == 7877
  {
    var t := Join(Rows0(), Rows1(), 59);
    var t := Join(t, Rows2(), 157);
    var t := Join(t, Rows3(), 307);
    var t := Join(t, Rows4(), 557);
    var t := Join(t, Rows5(), 997);
    var t := Join(t, Rows6(), 1693);
    var t := Join(t, Rows7(), 2857);
    Join(t, Rows8(), 4751)
  }

  function Part1(): (t: Rows)
    ensures |t| == 90 && t[0].value == 8269 && t[|t| - 1].value == 648181
  {
    var t := Join(Rows9(), Rows10(), 12893);
    var t := Join(t, Rows11(), 21107);
    var t := Join(t, Rows12(), 34537);
    var t := Join(t, Rows13(), 56333);
    var t := Join(t, Rows14(), 91867);
    var t := Join(t, Rows15(), 149791);
    var t := Join(t, Rows16(), 244157);
    Join(t, Rows17(), 397811)
  }

  function Part2(): (t: Rows)
    ensures |t| == 90 && t[0].value == 680597 && t[|t| - 1].value == 52354573
  {
    var t := Join(Rows18(), Rows19(), 1056049);
    var t := Join(t, Rows20(), 1720361);
    var t := Join(t, Rows21(), 2802451);
    var t := Join(t, Rows22(), 4565189);
    var t := Join(t, Rows23(), 7436459);
    var t := Join(t, Rows24(), 12113417);
    var t := Join(t, Rows25(), 19731653);
    Join(t, Rows26(), 32141063)
  }

  function Part3(): (t: Rows)
    ensures |t| == 90 && t[0].value == 54972419 && t[|t| - 1].value == 4226643191
  {
    var t := Join(Rows27(), Rows28(), 85280491);
    var t := Join(t, Rows29(), 138913259);
    var t := Join(t, Rows30(), 226275163);
    var t := Join(t, Rows31(), 368578633);
    var t := Join(t, Rows32(), 600375911);
    var t := Join(t, Rows33(), 977949439);
    var t := Join(t, Rows34(), 1592977037);
    Join(t, Rows35(), 2594791931)
  }

  function Part4(): (t: Rows)
    ensures |t| == 90 && t[0].value == 4437975361 && t[|t| - 1].value == 341218492723
  {
    var t := Join(Rows36(), Rows37(), 6884756651);
    var t := Join(t, Rows38(), 11214543667);
    var t := Join(t, Rows39(), 18267310249);
    var t := Join(t, Rows40(), 29755523717);
    var t := Join(t, Rows41(), 48468613051);
    var t := Join(t, Rows42(), 78950263811);
    var t := Join(t, Rows43(), 128601660959);
    Join(t, Rows44(), 209478554867)
  }

  function Part5(): (t: Rows)
    ensures |t| == 90 && t[0].value == 358279417381 && t[|t| - 1].value == 27546693545051
  {
    var t := Join(Rows45(), Rows46(), 555808969759);
    var t := Join(t, Rows47(), 905354244917);
    var t := Join(t, Rows48(), 1474726665421);
    var t := Join(t, Rows49(), 2402174342237);
    var t := Join(t, Rows50(), 3912888879007);
    var t := Join(t, Rows51(), 6373683670811);
    var t := Join(t, Rows52(), 10382059084633);
    Join(t, Rows53(), 16911280258291)
  }

  function Part6(): (t: Rows)
    ensures |t| == 90 && t[0].value == 28924028222329 && t[|t| - 1].value == 2223854625852991
  {
    var t := Join(Rows54(), Rows55(), 44870661101341);
    var t := Join(t, Rows56(), 73089578768803);
    var t := Join(t, Rows57(), 119055222130219);
    var t := Join(t, Rows58(), 193928411618287);
    var t := Join(t, Rows59(), 315888947665051);
    var t := Join(t, Rows60(), 514549809510377);
    var t := Join(t, Rows61(), 838147419921883);
    Join(t, Rows62(), 1365253828758623)
  }

  function Part7(): (t: Rows)
    ensures |t| == 90 && t[0].value == 2335047357145673 && t[|t| - 1].value == 179532595761364817
  {
    var t := Join(Rows63(), Rows64(), 3622424850786461);
    var t := Join(t, Rows65(), 5900548375351481);
    var t := Join(t, Rows66(), 9611371543651247);
    var t := Join(t, Rows67(), 15655911463415981);
    var t := Join(t, Rows68(), 25501830060062243);
    var t := Join(t, Rows69(), 41539793957827267);
    var t := Join(t, Rows70(), 67663947175347401);
    Join(t, Rows71(), 110217439980476921)
  }

  function Part8(): (t: Rows)
    ensures |t| == 90 && t[0].value == 188509225549433093 && t[|t| - 1].value == 14493731994032363789
  {
    var t := Join(Rows72(), Rows73(), 292439680567094981);
    var t := Join(t, Rows74(), 476353424332252979);
    var t := Join(t, Rows75(), 775929533341842413);
    var t := Join(t, Rows76(), 1263907447618455529);
    var t := Join(t, Rows77(), 2058772050169693399);
    var t := Join(t, Rows78(), 3353522730280991201);
    var t := Join(t, Rows79(), 5462535156130722121);
    Join(t, Rows80(), 8897894164404206201)
  }

  function Part9(): (t: Rows)
    ensures |t| == 4 && t[0].value == 15218418593733982013 && t[|t| - 1].value == 17617221824571301183
  {
    Rows81()
  }

  /** The 360 rows whose primes fit 32 bits. */
  function Small(): (t: Rows)
    ensures |t| == 360 && t[0].value == 3 && t[|t| - 1].value == LARGEST_SMALL
  {
    hide Part0, Part1, Part2, Part3;
    var t := Join(Part0(), Part1(), 7877);
    var t := Join(t, Part2(), 648181);
    Join(t, Part3(), 52354573)
  }

  function Middle(): (t: Rows)
    ensures |t| == 270 && t[0].value == 4437975361 && t[|t| - 1].value == 2223854625852991
  {
    hide Part4, Part5, Part6;
    var t := Join(Part4(), Part5(), 341218492723);
    Join(t, Part6(), 27546693545051)
  }

  function Upper(): (t: Rows)
    ensures |t| == 184 && t[0].value == 2335047357145673 && t[|t| - 1].value == 17617221824571301183
  {
    hide Part7, Part8, Part9;
    var t := Join(Part7(), Part8(), 179532595761364817);
    Join(t, Part9(), 14493731994032363789)
  }

  /** The other 454 rows. */
  function Large(): (t: Rows)
    ensures |t| == 454 && t[0].value == 4437975361 && t[|t| - 1].value == 17617221824571301183
  {
    hide Middle, Upper;
    Join(Middle(), Upper(), 2223854625852991)
  }

  function Table(): (t: Rows)
    ensures |t| == 814
  {
    hide Small, Large;
    Join(Small(), Large(), LARGEST_SMALL)
  }

  const LARGEST_SMALL: nat := 4226643191
  const TWO_32: nat := 0x1_0000_0000

  /** The 814 rows ascend, each prime about 1.05 times the one before, and every row is exact. */
  lemma TableOk()
    ensures |Table()| == 814 && AllOk(Table()) && Sorted(Table()) && Even(Table())
  {
    hide Join, AllOk, Sorted, Small, Large, Rising, Even;
    RisingSorted(Table());
  }

  lemma TableEnds()
    ensures Table()[0].value == 3 && Table()[813].value == 17617221824571301183
  {
    hide AllOk, Small, Large, Rising, Even;
  }

  /** The row picked for a request is less than a twentieth above it, and 169 at most. */
  lemma PickedNear(requested: nat, n: Number)
    requires 3 < requested <= LARGEST_SMALL && Picked(Table(), requested, n)
    ensures 20 * requested <= 20 * n.value < 21 * requested + 3373
  {
    hide AllOk, Sorted, Small, Large, Table;
    TableOk();
    FitsWord(requested, n);
    var i :| 0 <= i < |Table()| && Table()[i] == n;
    LastLarge(requested, n);
    TableEnds();
    assert i > 0;
    assert Next(Table()[i - 1].value, n.value);
    Before(requested, i, n);
  }

  lemma Before(requested: nat, i: nat, n: Number)
    requires Picked(Table(), requested, n) && 0 < i < |Table()| && Table()[i] == n && n.value >= requested
    ensures Table()[i - 1].value < requested
  {
    hide AllOk, Small, Large, Table, Next;
    TableOk();
    assert Table()[i - 1] in Table();
  }

  lemma LastLarge(requested: nat, n: Number)
    requires requested <= LARGEST_SMALL && Picked(Table(), requested, n)
    ensures n.value >= requested
  {
    hide Small, Large;
    assert Large()[0] in Table();
  }

  lemma {:induction false} Bounds(table: seq<Number>, n: Number)
    requires Rising(table) && n in table
    ensures table[0].value <= n.value <= table[|table| - 1].value
  {
    var i :| 0 <= i < |table| && table[i] == n;
    if i > 0 {
      InOrder(table, 0, i);
    }
    if i < |table| - 1 {
      InOrder(table, i, |table| - 1);
    }
  }

  /** A picked prime fits 32 bits exactly up to a certain request. */
  lemma FitsWord(requested: nat, n: Number)
    requires Picked(Table(), requested, n)
    ensures n.value < TWO_32 <==> requested <= LARGEST_SMALL
  {
    hide AllOk, Rising, Small, Large;
    var last, first := Small()[|Small()| - 1], Large()[0];
    assert last in Table() && first in Table();
    if n in Small() {
      Bounds(Small(), n);
    } else {
      Bounds(Large(), n);
    }
  }
}
