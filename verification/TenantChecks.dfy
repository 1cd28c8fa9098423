module TenantChecks {
  import opened SchemaModel
  import opened Undo
  import opened Forward
  import opened History
  import opened TenantNames
  import opened TenantRevisions

  function Bases0001(): seq<Base> {
    [Base(0, [0, 3], [], [], []),
     Base(1, [3, 7], [], [], []),
     Base(2, [7, 9], [], [], []),
     Base(3, [9], [], [], [])]
  }

  function Rev0001(): Revision {
    Revision(UP_0001, DOWN_0001, Base(3, [9], [], [], []), true)
  }

  function Bases0002(): seq<Base> {
    [Base(3, [9, 10, 11, 11, 11], [], [(OtpCodes(), OtpCodesPurpose()), (Users(), UsersRole())], []),
     Base(3, [11], [], [], [])]
  }

  function Rev0002(): Revision {
    Revision(UP_0002, DOWN_0002, Base(3, [11], [], [], []), false)
  }

  function Bases0003(): seq<Base> {
    [Base(3, [11, 14, 15, 16], [], [], []),
     Base(4, [16], [], [], [])]
  }

  function Rev0003(): Revision {
    Revision(UP_0003, DOWN_0003, Base(4, [16], [], [], []), true)
  }

  function Bases0004(): seq<Base> {
    [Base(4, [16, 22, 23, 24, 25], [], [], []),
     Base(5, [25], [], [], [])]
  }

  function Rev0004(): Revision {
    Revision(UP_0004, DOWN_0004, Base(5, [25], [], [], []), true)
  }

  function Bases0005(): seq<Base> {
    [Base(5, [25, 29, 30, 31, 32, 33], [], [], []),
     Base(6, [33, 36, 37], [], [], []),
     Base(7, [37, 41, 42, 43], [], [], []),
     Base(8, [43, 46, 47, 48], [], [], []),
     Base(9, [48], [], [], [])]
  }

  function Rev0005(): Revision {
    Revision(UP_0005, DOWN_0005, Base(9, [48], [], [], []), true)
  }

  function Bases0006(): seq<Base> {
    [Base(9, [48, 53, 54, 55, 56, 57, 58], [], [], []),
     Base(10, [58, 61, 62], [], [], []),
     Base(11, [62, 65, 66, 67], [], [], []),
     Base(12, [67, 70, 71], [], [], []),
     Base(13, [71, 73, 74, 75], [], [], []),
     Base(14, [75], [], [], [])]
  }

  function Rev0006(): Revision {
    Revision(UP_0006, DOWN_0006, Base(14, [75], [], [], []), true)
  }

  function Bases0007(): seq<Base> {
    [Base(14, [75, 80, 81, 82, 83, 84, 85], [], [], []),
     Base(15, [85, 88, 89], [], [], []),
     Base(16, [89, 92, 93], [], [], []),
     Base(17, [93, 96, 97], [], [], []),
     Base(18, [97], [], [], [])]
  }

  function Rev0007(): Revision {
    Revision(UP_0007, DOWN_0007, Base(18, [97], [], [], []), true)
  }

  function Bases0008(): seq<Base> {
    [Base(18, [97, 101, 102, 103, 104, 105], [], [], []),
     Base(19, [105, 109, 110, 111, 112, 113], [], [], []),
     Base(20, [113, 115, 116, 117], [], [], []),
     Base(21, [117, 119, 120, 121], [], [], []),
     Base(22, [121], [], [], [])]
  }

  function Rev0008(): Revision {
    Revision(UP_0008, DOWN_0008, Base(22, [121], [], [], []), true)
  }

  function Bases0009(): seq<Base> {
    [Base(22, [121, 125, 126, 127, 128, 129], [], [], []),
     Base(23, [129, 133, 134, 135, 136, 137, 138], [], [], []),
     Base(24, [138, 142, 143, 144], [], [], []),
     Base(25, [144, 151, 152, 153, 154, 155, 156], [], [], []),
     Base(26, [156], [], [], [])]
  }

  function Rev0009(): Revision {
    Revision(UP_0009, DOWN_0009, Base(26, [156], [], [], []), true)
  }

  function Bases0010(): seq<Base> {
    [Base(26, [156, 161, 162, 163, 164, 165, 166], [], [], []),
     Base(27, [166, 170, 171, 172, 173, 174], [], [], []),
     Base(28, [174, 182, 183, 184, 185, 186, 187, 188, 189, 190], [], [], []),
     Base(29, [190], [], [], [])]
  }

  function Rev0010(): Revision {
    Revision(UP_0010, DOWN_0010, Base(29, [190], [], [], []), true)
  }

  function Bases0011(): seq<Base> {
    [Base(29, [190, 195, 196, 197, 198, 199, 200], [], [], []),
     Base(30, [200, 204, 205, 206, 207, 208], [], [], []),
     Base(31, [208, 210, 211, 212], [], [], []),
     Base(32, [212], [], [], [])]
  }

  function Rev0011(): Revision {
    Revision(UP_0011, DOWN_0011, Base(32, [212], [], [], []), true)
  }

  function Bases0012(): seq<Base> {
    [Base(32, [212, 219, 220, 221, 222, 223, 224, 225, 226], [], [], []),
     Base(33, [226, 229, 230, 231, 232, 233], [], [], []),
     Base(34, [233, 239, 240, 241, 242, 243, 244, 245], [], [], []),
     Base(35, [245], [], [], [])]
  }

  function Rev0012(): Revision {
    Revision(UP_0012, DOWN_0012, Base(35, [245], [], [], []), true)
  }

  function Bases0013(): seq<Base> {
    [Base(35, [245, 249, 250, 251, 252, 253], [], [], []),
     Base(36, [253, 258, 259, 260, 261, 262, 263], [], [], []),
     Base(37, [263, 268, 269, 270, 271, 272, 273], [], [], []),
     Base(38, [273], [], [], [])]
  }

  function Rev0013(): Revision {
    Revision(UP_0013, DOWN_0013, Base(38, [273], [], [], []), true)
  }

  function Bases0014(): seq<Base> {
    [Base(38, [273, 274], [], [], []),
     Base(38, [274], [], [], [])]
  }

  function Rev0014(): Revision {
    Revision(UP_0014, DOWN_0014, Base(38, [274], [], [], []), true)
  }

  function Bases0015(): seq<Base> {
    [Base(38, [274, 276], [], [], []),
     Base(39, [276, 279], [], [], []),
     Base(40, [279], [], [], [])]
  }

  function Rev0015(): Revision {
    Revision(UP_0015, DOWN_0015, Base(40, [279], [], [], []), true)
  }

  function Bases0016(): seq<Base> {
    [Base(40, [279, 279], [], [], [Tenantrole()]),
     Base(40, [279, 283, 284, 285], [], [], []),
     Base(41, [285], [], [], [])]
  }

  function Rev0016(): Revision {
    Revision(UP_0016, DOWN_0016, Base(41, [285], [], [], []), false)
  }

  function Bases0017(): seq<Base> {
    [Base(41, [285, 286], [], [], []),
     Base(41, [286], [], [], [])]
  }

  function Rev0017(): Revision {
    Revision(UP_0017, DOWN_0017, Base(41, [286], [], [], []), true)
  }

  function Bases0018(): seq<Base> {
    [Base(41, [286, 290], [], [], []),
     Base(42, [290, 293, 294], [], [], []),
     Base(43, [294, 297, 298], [], [], []),
     Base(44, [298, 301, 302], [], [], []),
     Base(45, [302, 305, 306], [], [], []),
     Base(46, [306], [], [], [])]
  }

  function Rev0018(): Revision {
    Revision(UP_0018, DOWN_0018, Base(46, [306], [], [], []), true)
  }

  function Bases0019(): seq<Base> {
    [Base(46, [306, 309, 310], [], [], []),
     Base(47, [310], [], [], [])]
  }

  function Rev0019(): Revision {
    Revision(UP_0019, DOWN_0019, Base(47, [310], [], [], []), true)
  }

  function Bases0020(): seq<Base> {
    [Base(47, [310, 310], [], [], []),
     Base(48, [310, 310], [AcademicDepartments()], [], []),
     Base(49, [310], [AcademicDepartments(), AcademicPrograms()], [], [])]
  }

  function Rev0020(): Revision {
    Revision(UP_0020, DOWN_0020, Base(49, [310], [AcademicDepartments(), AcademicPrograms()], [], []), true)
  }

  function Bases0021(): seq<Base> {
    [Base(49, [310, 311, 312], [AcademicDepartments(), AcademicPrograms()], [], []),
     Base(49, [312], [AcademicDepartments(), AcademicPrograms()], [], [])]
  }

  function Rev0021(): Revision {
    Revision(UP_0021, DOWN_0021, Base(49, [312], [AcademicDepartments(), AcademicPrograms()], [], []), true)
  }

  function Bases0022(): seq<Base> {
    [Base(49, [312, 316, 317, 318, 319], [AcademicDepartments(), AcademicPrograms()], [], []),
     Base(50, [319], [AcademicDepartments(), AcademicPrograms()], [], [])]
  }

  function Rev0022(): Revision {
    Revision(UP_0022, DOWN_0022, Base(50, [319], [AcademicDepartments(), AcademicPrograms()], [], []), true)
  }

  function Bases0023(): seq<Base> {
    [Base(50, [319, 319, 319], [AcademicDepartments(), AcademicPrograms()], [], []),
     Base(50, [319], [AcademicDepartments(), AcademicPrograms()], [], [])]
  }

  function Rev0023(): Revision {
    Revision(UP_0023, DOWN_0023, Base(50, [319], [AcademicDepartments(), AcademicPrograms()], [], []), false)
  }

  function Bases0024(): seq<Base> {
    [Base(50, [319, 320, 321, 322, 323, 324, 325, 326, 327], [AcademicDepartments(), AcademicPrograms()], [], []),
     Base(50, [327, 328, 329, 330, 331], [AcademicDepartments(), AcademicPrograms()], [], []),
     Base(50, [331, 332, 333], [AcademicDepartments(), AcademicPrograms()], [], []),
     Base(50, [333, 339, 340, 341, 342, 343, 344, 345], [AcademicDepartments(), AcademicPrograms()], [], []),
     Base(51, [345, 350, 351, 352, 353, 354, 355], [AcademicDepartments(), AcademicPrograms()], [], []),
     Base(52, [355], [AcademicDepartments(), AcademicPrograms()], [], [])]
  }

  function Rev0024(): Revision {
    Revision(UP_0024, DOWN_0024, Base(52, [355], [AcademicDepartments(), AcademicPrograms()], [], []), true)
  }

  function Bases0025(): seq<Base> {
    [Base(52, [355, 359, 360, 361, 362, 363], [AcademicDepartments(), AcademicPrograms()], [], []),
     Base(53, [363, 364, 365, 366], [AcademicDepartments(), AcademicPrograms()], [], []),
     Base(53, [366, 367, 368, 369, 370, 371, 372, 373], [AcademicDepartments(), AcademicPrograms()], [], []),
     Base(53, [373, 374, 375, 376, 377, 378, 379], [AcademicDepartments(), AcademicPrograms()], [], []),
     Base(53, [379, 380], [AcademicDepartments(), AcademicPrograms()], [], []),
     Base(53, [380], [AcademicDepartments(), AcademicPrograms()], [], [])]
  }

  function Rev0025(): Revision {
    Revision(UP_0025, DOWN_0025, Base(53, [380], [AcademicDepartments(), AcademicPrograms()], [], []), true)
  }

  function Bases0026(): seq<Base> {
    [Base(53, [380, 381], [AcademicDepartments(), AcademicPrograms()], [], []),
     Base(53, [381], [AcademicDepartments(), AcademicPrograms()], [], [])]
  }

  function Rev0026(): Revision {
    Revision(UP_0026, DOWN_0026, Base(53, [381], [AcademicDepartments(), AcademicPrograms()], [], []), true)
  }

  function Bases0027(): seq<Base> {
    [Base(53, [381, 382, 383], [AcademicDepartments(), AcademicPrograms()], [], []),
     Base(53, [383], [AcademicDepartments(), AcademicPrograms()], [], [])]
  }

  function Rev0027(): Revision {
    Revision(UP_0027, DOWN_0027, Base(53, [383], [AcademicDepartments(), AcademicPrograms()], [], []), false)
  }

  function Bases0028(): seq<Base> {
    [Base(53, [383, 386, 387, 388, 389], [AcademicDepartments(), AcademicPrograms()], [], []),
     Base(54, [389, 390, 391], [AcademicDepartments(), AcademicPrograms()], [], []),
     Base(54, [391], [AcademicDepartments(), AcademicPrograms()], [], [])]
  }

  function Rev0028(): Revision {
    Revision(UP_0028, DOWN_0028, Base(54, [391], [AcademicDepartments(), AcademicPrograms()], [], []), true)
  }

  function Bases0029(): seq<Base> {
    [Base(54, [391, 394, 395, 396, 397], [AcademicDepartments(), AcademicPrograms()], [], []),
     Base(55, [397], [AcademicDepartments(), AcademicPrograms()], [], [])]
  }

  function Rev0029(): Revision {
    Revision(UP_0029, DOWN_0029, Base(55, [397], [AcademicDepartments(), AcademicPrograms()], [], []), true)
  }

  function Bases0030(): seq<Base> {
    [Base(55, [397, 400, 401, 402, 403], [AcademicDepartments(), AcademicPrograms()], [], []),
     Base(56, [403], [AcademicDepartments(), AcademicPrograms()], [], [])]
  }

  function Rev0030(): Revision {
    Revision(UP_0030, DOWN_0030, Base(56, [403], [AcademicDepartments(), AcademicPrograms()], [], []), true)
  }

  function Bases0031(): seq<Base> {
    [Base(56, [403, 410, 411, 412, 413, 414, 415, 416, 417, 418],
          [AcademicDepartments(), AcademicPrograms()], [], []),
     Base(57, [418, 421, 422, 423, 424, 425], [AcademicDepartments(), AcademicPrograms()], [], []),
     Base(58, [425], [AcademicDepartments(), AcademicPrograms()], [], [])]
  }

  function Rev0031(): Revision {
    Revision(UP_0031, DOWN_0031, Base(58, [425], [AcademicDepartments(), AcademicPrograms()], [], []), true)
  }

  function Bases0032(): seq<Base> {
    [Base(58, [425, 431, 432, 433, 434, 435, 436, 437], [AcademicDepartments(), AcademicPrograms()], [], []),
     Base(59, [437, 439, 440, 441, 442], [AcademicDepartments(), AcademicPrograms()], [], []),
     Base(60, [442], [AcademicDepartments(), AcademicPrograms()], [], [])]
  }

  function Rev0032(): Revision {
    Revision(UP_0032, DOWN_0032, Base(60, [442], [AcademicDepartments(), AcademicPrograms()], [], []), true)
  }

  function Bases0033(): seq<Base> {
    [Base(60, [442, 445, 446, 447, 448], [AcademicDepartments(), AcademicPrograms()], [], []),
     Base(61, [448, 454, 455, 456, 457, 458, 459, 460, 461], [AcademicDepartments(), AcademicPrograms()], [], []),
     Base(62, [461], [AcademicDepartments(), AcademicPrograms()], [], [])]
  }

  function Rev0033(): Revision {
    Revision(UP_0033, DOWN_0033, Base(62, [461], [AcademicDepartments(), AcademicPrograms()], [], []), true)
  }

  function Bases0034(): seq<Base> {
    [Base(62, [461, 465, 466, 467], [AcademicDepartments(), AcademicPrograms()], [], []),
     Base(63, [467, 471, 472, 473, 474, 475], [AcademicDepartments(), AcademicPrograms()], [], []),
     Base(64, [475, 481, 482, 483, 484, 485], [AcademicDepartments(), AcademicPrograms()], [], []),
     Base(65, [485, 489, 490, 491, 492, 492], [AcademicDepartments(), AcademicPrograms()], [], []),
     Base(66, [492], [AcademicDepartments(), AcademicPrograms()], [], [])]
  }

  function Rev0034(): Revision {
    Revision(UP_0034, DOWN_0034, Base(66, [492], [AcademicDepartments(), AcademicPrograms()], [], []), true)
  }

  function Bases0035(): seq<Base> {
    [Base(66, [492, 495, 496, 497], [AcademicDepartments(), AcademicPrograms()], [], []),
     Base(67, [497, 500, 501], [AcademicDepartments(), AcademicPrograms()], [], []),
     Base(68, [501, 508, 509, 510, 511, 512], [AcademicDepartments(), AcademicPrograms()], [], []),
     Base(69, [512, 517, 518, 519, 520], [AcademicDepartments(), AcademicPrograms()], [], []),
     Base(70, [520, 527, 528, 529, 530, 531], [AcademicDepartments(), AcademicPrograms()], [], []),
     Base(71, [531, 536, 537, 538, 539], [AcademicDepartments(), AcademicPrograms()], [], []),
     Base(72, [539, 543, 544, 545, 546, 546], [AcademicDepartments(), AcademicPrograms()], [], []),
     Base(73, [546], [AcademicDepartments(), AcademicPrograms()], [], [])]
  }

  function Rev0035(): Revision {
    Revision(UP_0035, DOWN_0035, Base(73, [546], [AcademicDepartments(), AcademicPrograms()], [], []), true)
  }

  lemma Undone0001()
    ensures |UP_0001| == |DOWN_0001| == 3 && BlocksUndone(UP_0001, 3, DOWN_0001)
  {
    var up, down := UP_0001, DOWN_0001;
    assert UndoesFrom(up[0], 1, down[2], 0, 0, 1);
    assert UndoesFrom(up[1], 1, down[1], 0, 0, 1);
    assert UndoesFrom(up[2], 1, down[0], 0, 0, 1);
  }

  lemma Certified0001()
    ensures Rev0001().Forwards(Base(0, [0], [], [], []))
    ensures Rev0001().Restores() && Rev0001().SparesOlderEnums(Base(0, [0], [], [], []))
  {
    Undone0001();
    var up, bs := UP_0001, Bases0001();
    Passed(up[0], 0, 1, bs[0]);
    Passed(up[1], 0, 1, bs[1]);
    Passed(up[2], 0, 1, bs[2]);
    assert BlocksCertified(UP_0001, 3, Bases0001());
    ForwardsByCheck(Rev0001(), Bases0001(), Base(0, [0], [], [], []));
    RestoresByCheck(Rev0001(), Bases0001(), Base(0, [0], [], [], []));
  }

  lemma Certified0002()
    ensures Rev0002().Forwards(Base(3, [9], [], [(OtpCodes(), OtpCodesPurpose()), (Users(), UsersRole())], []))
  {
    var up, bs := UP_0002, Bases0002();
    Passed(up[0], 0, 4, bs[0]);
    assert BlocksCertified(UP_0002, 1, Bases0002());
    ForwardsByCheck(Rev0002(), Bases0002(),
        Base(3, [9], [], [(OtpCodes(), OtpCodesPurpose()), (Users(), UsersRole())], []));
  }

  lemma Undone0003()
    ensures |UP_0003| == |DOWN_0003| == 1 && BlocksUndone(UP_0003, 1, DOWN_0003)
  {
    var up, down := UP_0003, DOWN_0003;
    assert UndoesFrom(up[0], 3, down[0], 0, 0, 3);
  }

  lemma Certified0003()
    ensures Rev0003().Forwards(Base(3, [11], [], [], []))
    ensures Rev0003().Restores() && Rev0003().SparesOlderEnums(Base(3, [11], [], [], []))
  {
    Undone0003();
    var up, bs := UP_0003, Bases0003();
    Passed(up[0], 0, 3, bs[0]);
    assert BlocksCertified(UP_0003, 1, Bases0003());
    ForwardsByCheck(Rev0003(), Bases0003(), Base(3, [11], [], [], []));
    RestoresByCheck(Rev0003(), Bases0003(), Base(3, [11], [], [], []));
  }

  lemma Undone0004()
    ensures |UP_0004| == |DOWN_0004| == 1 && BlocksUndone(UP_0004, 1, DOWN_0004)
  {
    var up, down := UP_0004, DOWN_0004;
    assert UndoesFrom(up[0], 4, down[0], 0, 0, 4);
  }

  lemma Certified0004()
    ensures Rev0004().Forwards(Base(4, [16], [], [], []))
    ensures Rev0004().Restores() && Rev0004().SparesOlderEnums(Base(4, [16], [], [], []))
  {
    Undone0004();
    var up, bs := UP_0004, Bases0004();
    Passed(up[0], 0, 4, bs[0]);
    assert BlocksCertified(UP_0004, 1, Bases0004());
    ForwardsByCheck(Rev0004(), Bases0004(), Base(4, [16], [], [], []));
    RestoresByCheck(Rev0004(), Bases0004(), Base(4, [16], [], [], []));
  }

  lemma Undone0005()
    ensures |UP_0005| == |DOWN_0005| == 4 && BlocksUndone(UP_0005, 4, DOWN_0005)
  {
    var up, down := UP_0005, DOWN_0005;
    assert UndoesFrom(up[0], 5, down[3], 0, 0, 5);
    assert UndoesFrom(up[1], 2, down[2], 0, 0, 2);
    assert UndoesFrom(up[2], 3, down[1], 0, 0, 3);
    assert UndoesFrom(up[3], 3, down[0], 0, 0, 3);
  }

  lemma Blocks0005a()
    ensures |UP_0005| == 4 == |Bases0005()| - 1
    ensures BlockCertified(UP_0005[0], Bases0005()[0], Bases0005()[1])
    ensures BlockCertified(UP_0005[1], Bases0005()[1], Bases0005()[2])
    ensures BlockCertified(UP_0005[2], Bases0005()[2], Bases0005()[3])
  {
    var up, bs := UP_0005, Bases0005();
    Passed(up[0], 0, 5, bs[0]);
    Passed(up[1], 0, 2, bs[1]);
    Passed(up[2], 0, 3, bs[2]);
  }

  lemma Blocks0005b()
    ensures |UP_0005| == 4 == |Bases0005()| - 1
    ensures BlockCertified(UP_0005[3], Bases0005()[3], Bases0005()[4])
  {
    var up, bs := UP_0005, Bases0005();
    Passed(up[3], 0, 3, bs[3]);
  }

  lemma Certified0005()
    ensures Rev0005().Forwards(Base(5, [25], [], [], []))
    ensures Rev0005().Restores() && Rev0005().SparesOlderEnums(Base(5, [25], [], [], []))
  {
    Undone0005();
    Blocks0005a();
    Blocks0005b();
    assert BlocksCertified(UP_0005, 4, Bases0005());
    ForwardsByCheck(Rev0005(), Bases0005(), Base(5, [25], [], [], []));
    RestoresByCheck(Rev0005(), Bases0005(), Base(5, [25], [], [], []));
  }

  lemma Undone0006()
    ensures |UP_0006| == |DOWN_0006| == 5 && BlocksUndone(UP_0006, 5, DOWN_0006)
  {
    var up, down := UP_0006, DOWN_0006;
    assert UndoesFrom(up[0], 6, down[4], 0, 0, 6);
    assert UndoesFrom(up[1], 2, down[3], 0, 0, 2);
    assert UndoesFrom(up[2], 3, down[2], 0, 0, 3);
    assert UndoesFrom(up[3], 2, down[1], 0, 0, 2);
    assert UndoesFrom(up[4], 3, down[0], 0, 0, 3);
  }

  lemma Blocks0006a()
    ensures |UP_0006| == 5 == |Bases0006()| - 1
    ensures BlockCertified(UP_0006[0], Bases0006()[0], Bases0006()[1])
    ensures BlockCertified(UP_0006[1], Bases0006()[1], Bases0006()[2])
  {
    var up, bs := UP_0006, Bases0006();
    Passed(up[0], 0, 6, bs[0]);
    Passed(up[1], 0, 2, bs[1]);
  }

  lemma Blocks0006b()
    ensures |UP_0006| == 5 == |Bases0006()| - 1
    ensures BlockCertified(UP_0006[2], Bases0006()[2], Bases0006()[3])
    ensures BlockCertified(UP_0006[3], Bases0006()[3], Bases0006()[4])
    ensures BlockCertified(UP_0006[4], Bases0006()[4], Bases0006()[5])
  {
    var up, bs := UP_0006, Bases0006();
    Passed(up[2], 0, 3, bs[2]);
    Passed(up[3], 0, 2, bs[3]);
    Passed(up[4], 0, 3, bs[4]);
  }

  lemma Certified0006()
    ensures Rev0006().Forwards(Base(9, [48], [], [], []))
    ensures Rev0006().Restores() && Rev0006().SparesOlderEnums(Base(9, [48], [], [], []))
  {
    Undone0006();
    Blocks0006a();
    Blocks0006b();
    assert BlocksCertified(UP_0006, 5, Bases0006());
    ForwardsByCheck(Rev0006(), Bases0006(), Base(9, [48], [], [], []));
    RestoresByCheck(Rev0006(), Bases0006(), Base(9, [48], [], [], []));
  }

  lemma Undone0007()
    ensures |UP_0007| == |DOWN_0007| == 4 && BlocksUndone(UP_0007, 4, DOWN_0007)
  {
    var up, down := UP_0007, DOWN_0007;
    assert UndoesFrom(up[0], 6, down[3], 0, 0, 6);
    assert UndoesFrom(up[1], 2, down[2], 0, 0, 2);
    assert UndoesFrom(up[2], 2, down[1], 0, 0, 2);
    assert UndoesFrom(up[3], 2, down[0], 0, 0, 2);
  }

  lemma Blocks0007a()
    ensures |UP_0007| == 4 == |Bases0007()| - 1
    ensures BlockCertified(UP_0007[0], Bases0007()[0], Bases0007()[1])
    ensures BlockCertified(UP_0007[1], Bases0007()[1], Bases0007()[2])
    ensures BlockCertified(UP_0007[2], Bases0007()[2], Bases0007()[3])
  {
    var up, bs := UP_0007, Bases0007();
    Passed(up[0], 0, 6, bs[0]);
    Passed(up[1], 0, 2, bs[1]);
    Passed(up[2], 0, 2, bs[2]);
  }

  lemma Blocks0007b()
    ensures |UP_0007| == 4 == |Bases0007()| - 1
    ensures BlockCertified(UP_0007[3], Bases0007()[3], Bases0007()[4])
  {
    var up, bs := UP_0007, Bases0007();
    Passed(up[3], 0, 2, bs[3]);
  }

  lemma Certified0007()
    ensures Rev0007().Forwards(Base(14, [75], [], [], []))
    ensures Rev0007().Restores() && Rev0007().SparesOlderEnums(Base(14, [75], [], [], []))
  {
    Undone0007();
    Blocks0007a();
    Blocks0007b();
    assert BlocksCertified(UP_0007, 4, Bases0007());
    ForwardsByCheck(Rev0007(), Bases0007(), Base(14, [75], [], [], []));
    RestoresByCheck(Rev0007(), Bases0007(), Base(14, [75], [], [], []));
  }

  lemma Undone0008()
    ensures |UP_0008| == |DOWN_0008| == 4 && BlocksUndone(UP_0008, 4, DOWN_0008)
  {
    var up, down := UP_0008, DOWN_0008;
    assert UndoesFrom(up[0], 5, down[3], 0, 0, 5);
    assert UndoesFrom(up[1], 5, down[2], 0, 0, 5);
    assert UndoesFrom(up[2], 3, down[1], 0, 0, 3);
    assert UndoesFrom(up[3], 3, down[0], 0, 0, 3);
  }

  lemma Blocks0008a()
    ensures |UP_0008| == 4 == |Bases0008()| - 1
    ensures BlockCertified(UP_0008[0], Bases0008()[0], Bases0008()[1])
    ensures BlockCertified(UP_0008[1], Bases0008()[1], Bases0008()[2])
  {
    var up, bs := UP_0008, Bases0008();
    Passed(up[0], 0, 5, bs[0]);
    Passed(up[1], 0, 5, bs[1]);
  }

  lemma Blocks0008b()
    ensures |UP_0008| == 4 == |Bases0008()| - 1
    ensures BlockCertified(UP_0008[2], Bases0008()[2], Bases0008()[3])
    ensures BlockCertified(UP_0008[3], Bases0008()[3], Bases0008()[4])
  {
    var up, bs := UP_0008, Bases0008();
    Passed(up[2], 0, 3, bs[2]);
    Passed(up[3], 0, 3, bs[3]);
  }

  lemma Certified0008()
    ensures Rev0008().Forwards(Base(18, [97], [], [], []))
    ensures Rev0008().Restores() && Rev0008().SparesOlderEnums(Base(18, [97], [], [], []))
  {
    Undone0008();
    Blocks0008a();
    Blocks0008b();
    assert BlocksCertified(UP_0008, 4, Bases0008());
    ForwardsByCheck(Rev0008(), Bases0008(), Base(18, [97], [], [], []));
    RestoresByCheck(Rev0008(), Bases0008(), Base(18, [97], [], [], []));
  }

  lemma Undone0009()
    ensures |UP_0009| == |DOWN_0009| == 4 && BlocksUndone(UP_0009, 4, DOWN_0009)
  {
    var up, down := UP_0009, DOWN_0009;
    assert UndoesFrom(up[0], 5, down[3], 0, 0, 5);
    assert UndoesFrom(up[1], 6, down[2], 0, 0, 6);
    assert UndoesFrom(up[2], 3, down[1], 0, 0, 3);
    assert UndoesFrom(up[3], 6, down[0], 0, 0, 6);
  }

  lemma Blocks0009a()
    ensures |UP_0009| == 4 == |Bases0009()| - 1
    ensures BlockCertified(UP_0009[0], Bases0009()[0], Bases0009()[1])
  {
    var up, bs := UP_0009, Bases0009();
    Passed(up[0], 0, 5, bs[0]);
  }

  lemma Blocks0009b()
    ensures |UP_0009| == 4 == |Bases0009()| - 1
    ensures BlockCertified(UP_0009[1], Bases0009()[1], Bases0009()[2])
    ensures BlockCertified(UP_0009[2], Bases0009()[2], Bases0009()[3])
  {
    var up, bs := UP_0009, Bases0009();
    Passed(up[1], 0, 6, bs[1]);
    Passed(up[2], 0, 3, bs[2]);
  }

  lemma Blocks0009c()
    ensures |UP_0009| == 4 == |Bases0009()| - 1
    ensures BlockCertified(UP_0009[3], Bases0009()[3], Bases0009()[4])
  {
    var up, bs := UP_0009, Bases0009();
    Passed(up[3], 0, 6, bs[3]);
  }

  lemma Certified0009()
    ensures Rev0009().Forwards(Base(22, [121], [], [], []))
    ensures Rev0009().Restores() && Rev0009().SparesOlderEnums(Base(22, [121], [], [], []))
  {
    Undone0009();
    Blocks0009a();
    Blocks0009b();
    Blocks0009c();
    assert BlocksCertified(UP_0009, 4, Bases0009());
    ForwardsByCheck(Rev0009(), Bases0009(), Base(22, [121], [], [], []));
    RestoresByCheck(Rev0009(), Bases0009(), Base(22, [121], [], [], []));
  }

  lemma Undone0010Last()
    ensures |UP_0010| == |DOWN_0010| == 3 && UndoesFrom(UP_0010[2], 9, DOWN_0010[0], 0, 0, 1)
  {}

  lemma Undone0010()
    ensures |UP_0010| == |DOWN_0010| == 3 && BlocksUndone(UP_0010, 3, DOWN_0010)
  {
    var up, down := UP_0010, DOWN_0010;
    assert UndoesFrom(up[0], 6, down[2], 0, 0, 1);
    assert UndoesFrom(up[1], 5, down[1], 0, 0, 1);
    Undone0010Last();
  }

  lemma Blocks0010a()
    ensures |UP_0010| == 3 == |Bases0010()| - 1
    ensures BlockCertified(UP_0010[0], Bases0010()[0], Bases0010()[1])
  {
    var up, bs := UP_0010, Bases0010();
    Passed(up[0], 0, 6, bs[0]);
  }

  lemma Blocks0010b()
    ensures |UP_0010| == 3 == |Bases0010()| - 1
    ensures BlockCertified(UP_0010[1], Bases0010()[1], Bases0010()[2])
  {
    var up, bs := UP_0010, Bases0010();
    Passed(up[1], 0, 5, bs[1]);
  }

  lemma Blocks0010c()
    ensures |UP_0010| == 3 == |Bases0010()| - 1
    ensures BlockCertified(UP_0010[2], Bases0010()[2], Bases0010()[3])
  {
    var up, bs := UP_0010, Bases0010();
    Passed(up[2], 0, 9, bs[2]);
  }

  lemma Certified0010()
    ensures Rev0010().Forwards(Base(26, [156], [], [], []))
    ensures Rev0010().Restores() && Rev0010().SparesOlderEnums(Base(26, [156], [], [], []))
  {
    Undone0010();
    Blocks0010a();
    Blocks0010b();
    Blocks0010c();
    assert BlocksCertified(UP_0010, 3, Bases0010());
    ForwardsByCheck(Rev0010(), Bases0010(), Base(26, [156], [], [], []));
    RestoresByCheck(Rev0010(), Bases0010(), Base(26, [156], [], [], []));
  }

  lemma Undone0011()
    ensures |UP_0011| == |DOWN_0011| == 3 && BlocksUndone(UP_0011, 3, DOWN_0011)
  {
    var up, down := UP_0011, DOWN_0011;
    assert UndoesFrom(up[0], 6, down[2], 0, 0, 1);
    assert UndoesFrom(up[1], 5, down[1], 0, 0, 1);
    assert UndoesFrom(up[2], 3, down[0], 0, 0, 1);
  }

  lemma Blocks0011a()
    ensures |UP_0011| == 3 == |Bases0011()| - 1
    ensures BlockCertified(UP_0011[0], Bases0011()[0], Bases0011()[1])
  {
    var up, bs := UP_0011, Bases0011();
    Passed(up[0], 0, 6, bs[0]);
  }

  lemma Blocks0011b()
    ensures |UP_0011| == 3 == |Bases0011()| - 1
    ensures BlockCertified(UP_0011[1], Bases0011()[1], Bases0011()[2])
    ensures BlockCertified(UP_0011[2], Bases0011()[2], Bases0011()[3])
  {
    var up, bs := UP_0011, Bases0011();
    Passed(up[1], 0, 5, bs[1]);
    Passed(up[2], 0, 3, bs[2]);
  }

  lemma Certified0011()
    ensures Rev0011().Forwards(Base(29, [190], [], [], []))
    ensures Rev0011().Restores() && Rev0011().SparesOlderEnums(Base(29, [190], [], [], []))
  {
    Undone0011();
    Blocks0011a();
    Blocks0011b();
    assert BlocksCertified(UP_0011, 3, Bases0011());
    ForwardsByCheck(Rev0011(), Bases0011(), Base(29, [190], [], [], []));
    RestoresByCheck(Rev0011(), Bases0011(), Base(29, [190], [], [], []));
  }

  lemma Undone0012()
    ensures |UP_0012| == |DOWN_0012| == 3 && BlocksUndone(UP_0012, 3, DOWN_0012)
  {
    var up, down := UP_0012, DOWN_0012;
    assert UndoesFrom(up[0], 8, down[2], 0, 0, 1);
    assert UndoesFrom(up[1], 5, down[1], 0, 0, 1);
    assert UndoesFrom(up[2], 7, down[0], 0, 0, 1);
  }

  lemma Blocks0012a()
    ensures |UP_0012| == 3 == |Bases0012()| - 1
    ensures BlockCertified(UP_0012[0], Bases0012()[0], Bases0012()[1])
  {
    var up, bs := UP_0012, Bases0012();
    Passed(up[0], 0, 8, bs[0]);
  }

  lemma Blocks0012b()
    ensures |UP_0012| == 3 == |Bases0012()| - 1
    ensures BlockCertified(UP_0012[1], Bases0012()[1], Bases0012()[2])
  {
    var up, bs := UP_0012, Bases0012();
    Passed(up[1], 0, 5, bs[1]);
  }

  lemma Blocks0012c()
    ensures |UP_0012| == 3 == |Bases0012()| - 1
    ensures BlockCertified(UP_0012[2], Bases0012()[2], Bases0012()[3])
  {
    var up, bs := UP_0012, Bases0012();
    Passed(up[2], 0, 7, bs[2]);
  }

  lemma Certified0012()
    ensures Rev0012().Forwards(Base(32, [212], [], [], []))
    ensures Rev0012().Restores() && Rev0012().SparesOlderEnums(Base(32, [212], [], [], []))
  {
    Undone0012();
    Blocks0012a();
    Blocks0012b();
    Blocks0012c();
    assert BlocksCertified(UP_0012, 3, Bases0012());
    ForwardsByCheck(Rev0012(), Bases0012(), Base(32, [212], [], [], []));
    RestoresByCheck(Rev0012(), Bases0012(), Base(32, [212], [], [], []));
  }

  lemma Undone0013()
    ensures |UP_0013| == |DOWN_0013| == 3 && BlocksUndone(UP_0013, 3, DOWN_0013)
  {
    var up, down := UP_0013, DOWN_0013;
    assert UndoesFrom(up[0], 5, down[2], 0, 0, 1);
    assert UndoesFrom(up[1], 6, down[1], 0, 0, 1);
    assert UndoesFrom(up[2], 6, down[0], 0, 0, 1);
  }

  lemma Blocks0013a()
    ensures |UP_0013| == 3 == |Bases0013()| - 1
    ensures BlockCertified(UP_0013[0], Bases0013()[0], Bases0013()[1])
  {
    var up, bs := UP_0013, Bases0013();
    Passed(up[0], 0, 5, bs[0]);
  }

  lemma Blocks0013b()
    ensures |UP_0013| == 3 == |Bases0013()| - 1
    ensures BlockCertified(UP_0013[1], Bases0013()[1], Bases0013()[2])
  {
    var up, bs := UP_0013, Bases0013();
    Passed(up[1], 0, 6, bs[1]);
  }

  lemma Blocks0013c()
    ensures |UP_0013| == 3 == |Bases0013()| - 1
    ensures BlockCertified(UP_0013[2], Bases0013()[2], Bases0013()[3])
  {
    var up, bs := UP_0013, Bases0013();
    Passed(up[2], 0, 6, bs[2]);
  }

  lemma Certified0013()
    ensures Rev0013().Forwards(Base(35, [245], [], [], []))
    ensures Rev0013().Restores() && Rev0013().SparesOlderEnums(Base(35, [245], [], [], []))
  {
    Undone0013();
    Blocks0013a();
    Blocks0013b();
    Blocks0013c();
    assert BlocksCertified(UP_0013, 3, Bases0013());
    ForwardsByCheck(Rev0013(), Bases0013(), Base(35, [245], [], [], []));
    RestoresByCheck(Rev0013(), Bases0013(), Base(35, [245], [], [], []));
  }

  lemma Undone0014()
    ensures |UP_0014| == |DOWN_0014| == 1 && BlocksUndone(UP_0014, 1, DOWN_0014)
  {
    var up, down := UP_0014, DOWN_0014;
    assert UndoesFrom(up[0], 1, down[0], 0, 0, 1);
  }

  lemma Certified0014()
    ensures Rev0014().Forwards(Base(38, [273], [], [], []))
    ensures Rev0014().Restores() && Rev0014().SparesOlderEnums(Base(38, [273], [], [], []))
  {
    Undone0014();
    var up, bs := UP_0014, Bases0014();
    Passed(up[0], 0, 1, bs[0]);
    assert BlocksCertified(UP_0014, 1, Bases0014());
    ForwardsByCheck(Rev0014(), Bases0014(), Base(38, [273], [], [], []));
    RestoresByCheck(Rev0014(), Bases0014(), Base(38, [273], [], [], []));
  }

  lemma Undone0015()
    ensures |UP_0015| == |DOWN_0015| == 2 && BlocksUndone(UP_0015, 2, DOWN_0015)
  {
    var up, down := UP_0015, DOWN_0015;
    assert UndoesFrom(up[0], 1, down[1], 0, 0, 1);
    assert UndoesFrom(up[1], 1, down[0], 0, 0, 1);
  }

  lemma Certified0015()
    ensures Rev0015().Forwards(Base(38, [274], [], [], []))
    ensures Rev0015().Restores() && Rev0015().SparesOlderEnums(Base(38, [274], [], [], []))
  {
    Undone0015();
    var up, bs := UP_0015, Bases0015();
    Passed(up[0], 0, 1, bs[0]);
    Passed(up[1], 0, 1, bs[1]);
    assert BlocksCertified(UP_0015, 2, Bases0015());
    ForwardsByCheck(Rev0015(), Bases0015(), Base(38, [274], [], [], []));
    RestoresByCheck(Rev0015(), Bases0015(), Base(38, [274], [], [], []));
  }

  lemma Certified0016()
    ensures Rev0016().Forwards(Base(40, [279], [], [], [Tenantrole()]))
  {
    var up, bs := UP_0016, Bases0016();
    Passed(up[0], 0, 1, bs[0]);
    Passed(up[1], 0, 3, bs[1]);
    assert BlocksCertified(UP_0016, 2, Bases0016());
    ForwardsByCheck(Rev0016(), Bases0016(), Base(40, [279], [], [], [Tenantrole()]));
  }

  lemma Undone0017()
    ensures |UP_0017| == |DOWN_0017| == 1 && BlocksUndone(UP_0017, 1, DOWN_0017)
  {
    var up, down := UP_0017, DOWN_0017;
    assert UndoesFrom(up[0], 1, down[0], 0, 0, 1);
  }

  lemma Certified0017()
    ensures Rev0017().Forwards(Base(41, [285], [], [], []))
    ensures Rev0017().Restores() && Rev0017().SparesOlderEnums(Base(41, [285], [], [], []))
  {
    Undone0017();
    var up, bs := UP_0017, Bases0017();
    Passed(up[0], 0, 1, bs[0]);
    assert BlocksCertified(UP_0017, 1, Bases0017());
    ForwardsByCheck(Rev0017(), Bases0017(), Base(41, [285], [], [], []));
    RestoresByCheck(Rev0017(), Bases0017(), Base(41, [285], [], [], []));
  }

  lemma Undone0018()
    ensures |UP_0018| == |DOWN_0018| == 5 && BlocksUndone(UP_0018, 5, DOWN_0018)
  {
    var up, down := UP_0018, DOWN_0018;
    assert UndoesFrom(up[0], 1, down[4], 0, 0, 1);
    assert UndoesFrom(up[1], 2, down[3], 0, 0, 1);
    assert UndoesFrom(up[2], 2, down[2], 0, 0, 1);
    assert UndoesFrom(up[3], 2, down[1], 0, 0, 1);
    assert UndoesFrom(up[4], 2, down[0], 0, 0, 1);
  }

  lemma Blocks0018a()
    ensures |UP_0018| == 5 == |Bases0018()| - 1
    ensures BlockCertified(UP_0018[0], Bases0018()[0], Bases0018()[1])
    ensures BlockCertified(UP_0018[1], Bases0018()[1], Bases0018()[2])
    ensures BlockCertified(UP_0018[2], Bases0018()[2], Bases0018()[3])
    ensures BlockCertified(UP_0018[3], Bases0018()[3], Bases0018()[4])
  {
    var up, bs := UP_0018, Bases0018();
    Passed(up[0], 0, 1, bs[0]);
    Passed(up[1], 0, 2, bs[1]);
    Passed(up[2], 0, 2, bs[2]);
    Passed(up[3], 0, 2, bs[3]);
  }

  lemma Blocks0018b()
    ensures |UP_0018| == 5 == |Bases0018()| - 1
    ensures BlockCertified(UP_0018[4], Bases0018()[4], Bases0018()[5])
  {
    var up, bs := UP_0018, Bases0018();
    Passed(up[4], 0, 2, bs[4]);
  }

  lemma Certified0018()
    ensures Rev0018().Forwards(Base(41, [286], [], [], []))
    ensures Rev0018().Restores() && Rev0018().SparesOlderEnums(Base(41, [286], [], [], []))
  {
    Undone0018();
    Blocks0018a();
    Blocks0018b();
    assert BlocksCertified(UP_0018, 5, Bases0018());
    ForwardsByCheck(Rev0018(), Bases0018(), Base(41, [286], [], [], []));
    RestoresByCheck(Rev0018(), Bases0018(), Base(41, [286], [], [], []));
  }

  lemma Undone0019()
    ensures |UP_0019| == |DOWN_0019| == 1 && BlocksUndone(UP_0019, 1, DOWN_0019)
  {
    var up, down := UP_0019, DOWN_0019;
    assert UndoesFrom(up[0], 2, down[0], 0, 0, 2);
  }

  lemma Certified0019()
    ensures Rev0019().Forwards(Base(46, [306], [], [], []))
    ensures Rev0019().Restores() && Rev0019().SparesOlderEnums(Base(46, [306], [], [], []))
  {
    Undone0019();
    var up, bs := UP_0019, Bases0019();
    Passed(up[0], 0, 2, bs[0]);
    assert BlocksCertified(UP_0019, 1, Bases0019());
    ForwardsByCheck(Rev0019(), Bases0019(), Base(46, [306], [], [], []));
    RestoresByCheck(Rev0019(), Bases0019(), Base(46, [306], [], [], []));
  }

  lemma Undone0020()
    ensures |UP_0020| == |DOWN_0020| == 2 && BlocksUndone(UP_0020, 2, DOWN_0020)
  {
    var up, down := UP_0020, DOWN_0020;
    assert UndoesFrom(up[0], 1, down[1], 0, 0, 1);
    assert UndoesFrom(up[1], 1, down[0], 0, 0, 1);
  }

  lemma Certified0020()
    ensures Rev0020().Forwards(Base(47, [310], [], [], []))
    ensures Rev0020().Restores() && Rev0020().SparesOlderEnums(Base(47, [310], [], [], []))
  {
    Undone0020();
    var up, bs := UP_0020, Bases0020();
    Passed(up[0], 0, 1, bs[0]);
    Passed(up[1], 0, 1, bs[1]);
    assert BlocksCertified(UP_0020, 2, Bases0020());
    ForwardsByCheck(Rev0020(), Bases0020(), Base(47, [310], [], [], []));
    RestoresByCheck(Rev0020(), Bases0020(), Base(47, [310], [], [], []));
  }

  lemma Undone0021()
    ensures |UP_0021| == |DOWN_0021| == 1 && BlocksUndone(UP_0021, 1, DOWN_0021)
  {
    var up, down := UP_0021, DOWN_0021;
    assert UndoesFrom(up[0], 2, down[0], 0, 0, 2);
  }

  lemma Certified0021()
    ensures Rev0021().Forwards(Base(49, [310], [AcademicDepartments(), AcademicPrograms()], [], []))
    ensures Rev0021().Restores()
        && Rev0021().SparesOlderEnums(Base(49, [310], [AcademicDepartments(), AcademicPrograms()], [], []))
  {
    Undone0021();
    var up, bs := UP_0021, Bases0021();
    Passed(up[0], 0, 2, bs[0]);
    assert BlocksCertified(UP_0021, 1, Bases0021());
    ForwardsByCheck(Rev0021(), Bases0021(), Base(49, [310], [AcademicDepartments(), AcademicPrograms()], [], []));
    RestoresByCheck(Rev0021(), Bases0021(), Base(49, [310], [AcademicDepartments(), AcademicPrograms()], [], []));
  }

  lemma Undone0022()
    ensures |UP_0022| == |DOWN_0022| == 1 && BlocksUndone(UP_0022, 1, DOWN_0022)
  {
    var up, down := UP_0022, DOWN_0022;
    assert UndoesFrom(up[0], 4, down[0], 0, 0, 4);
  }

  lemma Certified0022()
    ensures Rev0022().Forwards(Base(49, [312], [AcademicDepartments(), AcademicPrograms()], [], []))
    ensures Rev0022().Restores()
        && Rev0022().SparesOlderEnums(Base(49, [312], [AcademicDepartments(), AcademicPrograms()], [], []))
  {
    Undone0022();
    var up, bs := UP_0022, Bases0022();
    Passed(up[0], 0, 4, bs[0]);
    assert BlocksCertified(UP_0022, 1, Bases0022());
    ForwardsByCheck(Rev0022(), Bases0022(), Base(49, [312], [AcademicDepartments(), AcademicPrograms()], [], []));
    RestoresByCheck(Rev0022(), Bases0022(), Base(49, [312], [AcademicDepartments(), AcademicPrograms()], [], []));
  }

  lemma Certified0023()
    ensures Rev0023().Forwards(Base(50, [319], [AcademicDepartments(), AcademicPrograms()], [], []))
  {
    var up, bs := UP_0023, Bases0023();
    Passed(up[0], 0, 2, bs[0]);
    assert BlocksCertified(UP_0023, 1, Bases0023());
    ForwardsByCheck(Rev0023(), Bases0023(), Base(50, [319], [AcademicDepartments(), AcademicPrograms()], [], []));
  }

  lemma Undone0024()
    ensures |UP_0024| == |DOWN_0024| == 5 && BlocksUndone(UP_0024, 5, DOWN_0024)
  {
    var up, down := UP_0024, DOWN_0024;
    assert UndoesFrom(up[0], 8, down[4], 0, 0, 8);
    assert UndoesFrom(up[1], 4, down[3], 0, 0, 4);
    assert UndoesFrom(up[2], 2, down[2], 0, 0, 2);
    assert UndoesFrom(up[3], 7, down[1], 0, 0, 1);
    assert UndoesFrom(up[4], 6, down[0], 0, 0, 1);
  }

  lemma Blocks0024a()
    ensures |UP_0024| == 5 == |Bases0024()| - 1
    ensures BlockCertified(UP_0024[0], Bases0024()[0], Bases0024()[1])
  {
    var up, bs := UP_0024, Bases0024();
    Passed(up[0], 0, 6, bs[0]); Passed(up[0], 6, 8, bs[0]);
  }

  lemma Blocks0024b()
    ensures |UP_0024| == 5 == |Bases0024()| - 1
    ensures BlockCertified(UP_0024[1], Bases0024()[1], Bases0024()[2])
    ensures BlockCertified(UP_0024[2], Bases0024()[2], Bases0024()[3])
  {
    var up, bs := UP_0024, Bases0024();
    Passed(up[1], 0, 4, bs[1]);
    Passed(up[2], 0, 2, bs[2]);
  }

  lemma Blocks0024c()
    ensures |UP_0024| == 5 == |Bases0024()| - 1
    ensures BlockCertified(UP_0024[3], Bases0024()[3], Bases0024()[4])
  {
    var up, bs := UP_0024, Bases0024();
    Passed(up[3], 0, 7, bs[3]);
  }

  lemma Blocks0024d()
    ensures |UP_0024| == 5 == |Bases0024()| - 1
    ensures BlockCertified(UP_0024[4], Bases0024()[4], Bases0024()[5])
  {
    var up, bs := UP_0024, Bases0024();
    Passed(up[4], 0, 6, bs[4]);
  }

  lemma Certified0024()
    ensures Rev0024().Forwards(Base(50, [319], [AcademicDepartments(), AcademicPrograms()], [], []))
    ensures Rev0024().Restores()
        && Rev0024().SparesOlderEnums(Base(50, [319], [AcademicDepartments(), AcademicPrograms()], [], []))
  {
    Undone0024();
    Blocks0024a();
    Blocks0024b();
    Blocks0024c();
    Blocks0024d();
    assert BlocksCertified(UP_0024, 5, Bases0024());
    ForwardsByCheck(Rev0024(), Bases0024(), Base(50, [319], [AcademicDepartments(), AcademicPrograms()], [], []));
    RestoresByCheck(Rev0024(), Bases0024(), Base(50, [319], [AcademicDepartments(), AcademicPrograms()], [], []));
  }

  lemma Undone0025()
    ensures |UP_0025| == |DOWN_0025| == 5 && BlocksUndone(UP_0025, 5, DOWN_0025)
  {
    var up, down := UP_0025, DOWN_0025;
    assert UndoesFrom(up[0], 5, down[4], 0, 0, 1);
    assert UndoesFrom(up[1], 3, down[3], 0, 0, 3);
    assert UndoesFrom(up[2], 7, down[2], 0, 0, 7);
    assert UndoesFrom(up[3], 6, down[1], 0, 0, 6);
    assert UndoesFrom(up[4], 1, down[0], 0, 0, 1);
  }

  lemma Blocks0025a()
    ensures |UP_0025| == 5 == |Bases0025()| - 1
    ensures BlockCertified(UP_0025[0], Bases0025()[0], Bases0025()[1])
    ensures BlockCertified(UP_0025[1], Bases0025()[1], Bases0025()[2])
  {
    var up, bs := UP_0025, Bases0025();
    Passed(up[0], 0, 5, bs[0]);
    Passed(up[1], 0, 3, bs[1]);
  }

  lemma Blocks0025b()
    ensures |UP_0025| == 5 == |Bases0025()| - 1
    ensures BlockCertified(UP_0025[2], Bases0025()[2], Bases0025()[3])
  {
    var up, bs := UP_0025, Bases0025();
    Passed(up[2], 0, 7, bs[2]);
  }

  lemma Blocks0025c()
    ensures |UP_0025| == 5 == |Bases0025()| - 1
    ensures BlockCertified(UP_0025[3], Bases0025()[3], Bases0025()[4])
    ensures BlockCertified(UP_0025[4], Bases0025()[4], Bases0025()[5])
  {
    var up, bs := UP_0025, Bases0025();
    Passed(up[3], 0, 6, bs[3]);
    Passed(up[4], 0, 1, bs[4]);
  }

  lemma Certified0025()
    ensures Rev0025().Forwards(Base(52, [355], [AcademicDepartments(), AcademicPrograms()], [], []))
    ensures Rev0025().Restores()
        && Rev0025().SparesOlderEnums(Base(52, [355], [AcademicDepartments(), AcademicPrograms()], [], []))
  {
    Undone0025();
    Blocks0025a();
    Blocks0025b();
    Blocks0025c();
    assert BlocksCertified(UP_0025, 5, Bases0025());
    ForwardsByCheck(Rev0025(), Bases0025(), Base(52, [355], [AcademicDepartments(), AcademicPrograms()], [], []));
    RestoresByCheck(Rev0025(), Bases0025(), Base(52, [355], [AcademicDepartments(), AcademicPrograms()], [], []));
  }

  lemma Undone0026()
    ensures |UP_0026| == |DOWN_0026| == 1 && BlocksUndone(UP_0026, 1, DOWN_0026)
  {
    var up, down := UP_0026, DOWN_0026;
    assert UndoesFrom(up[0], 1, down[0], 0, 0, 1);
  }

  lemma Certified0026()
    ensures Rev0026().Forwards(Base(53, [380], [AcademicDepartments(), AcademicPrograms()], [], []))
    ensures Rev0026().Restores()
        && Rev0026().SparesOlderEnums(Base(53, [380], [AcademicDepartments(), AcademicPrograms()], [], []))
  {
    Undone0026();
    var up, bs := UP_0026, Bases0026();
    Passed(up[0], 0, 1, bs[0]);
    assert BlocksCertified(UP_0026, 1, Bases0026());
    ForwardsByCheck(Rev0026(), Bases0026(), Base(53, [380], [AcademicDepartments(), AcademicPrograms()], [], []));
    RestoresByCheck(Rev0026(), Bases0026(), Base(53, [380], [AcademicDepartments(), AcademicPrograms()], [], []));
  }

  lemma Certified0027()
    ensures Rev0027().Forwards(Base(53, [381], [AcademicDepartments(), AcademicPrograms()], [], []))
  {
    var up, bs := UP_0027, Bases0027();
    Passed(up[0], 0, 2, bs[0]);
    assert BlocksCertified(UP_0027, 1, Bases0027());
    ForwardsByCheck(Rev0027(), Bases0027(), Base(53, [381], [AcademicDepartments(), AcademicPrograms()], [], []));
  }

  lemma Undone0028()
    ensures |UP_0028| == |DOWN_0028| == 2 && BlocksUndone(UP_0028, 2, DOWN_0028)
  {
    var up, down := UP_0028, DOWN_0028;
    assert UndoesFrom(up[0], 4, down[1], 0, 0, 4);
    assert UndoesFrom(up[1], 2, down[0], 0, 0, 2);
  }

  lemma Certified0028()
    ensures Rev0028().Forwards(Base(53, [383], [AcademicDepartments(), AcademicPrograms()], [], []))
    ensures Rev0028().Restores()
        && Rev0028().SparesOlderEnums(Base(53, [383], [AcademicDepartments(), AcademicPrograms()], [], []))
  {
    Undone0028();
    var up, bs := UP_0028, Bases0028();
    Passed(up[0], 0, 4, bs[0]);
    Passed(up[1], 0, 2, bs[1]);
    assert BlocksCertified(UP_0028, 2, Bases0028());
    ForwardsByCheck(Rev0028(), Bases0028(), Base(53, [383], [AcademicDepartments(), AcademicPrograms()], [], []));
    RestoresByCheck(Rev0028(), Bases0028(), Base(53, [383], [AcademicDepartments(), AcademicPrograms()], [], []));
  }

  lemma Undone0029()
    ensures |UP_0029| == |DOWN_0029| == 1 && BlocksUndone(UP_0029, 1, DOWN_0029)
  {
    var up, down := UP_0029, DOWN_0029;
    assert UndoesFrom(up[0], 4, down[0], 0, 0, 4);
  }

  lemma Certified0029()
    ensures Rev0029().Forwards(Base(54, [391], [AcademicDepartments(), AcademicPrograms()], [], []))
    ensures Rev0029().Restores()
        && Rev0029().SparesOlderEnums(Base(54, [391], [AcademicDepartments(), AcademicPrograms()], [], []))
  {
    Undone0029();
    var up, bs := UP_0029, Bases0029();
    Passed(up[0], 0, 4, bs[0]);
    assert BlocksCertified(UP_0029, 1, Bases0029());
    ForwardsByCheck(Rev0029(), Bases0029(), Base(54, [391], [AcademicDepartments(), AcademicPrograms()], [], []));
    RestoresByCheck(Rev0029(), Bases0029(), Base(54, [391], [AcademicDepartments(), AcademicPrograms()], [], []));
  }

  lemma Undone0030()
    ensures |UP_0030| == |DOWN_0030| == 1 && BlocksUndone(UP_0030, 1, DOWN_0030)
  {
    var up, down := UP_0030, DOWN_0030;
    assert UndoesFrom(up[0], 4, down[0], 0, 0, 4);
  }

  lemma Certified0030()
    ensures Rev0030().Forwards(Base(55, [397], [AcademicDepartments(), AcademicPrograms()], [], []))
    ensures Rev0030().Restores()
        && Rev0030().SparesOlderEnums(Base(55, [397], [AcademicDepartments(), AcademicPrograms()], [], []))
  {
    Undone0030();
    var up, bs := UP_0030, Bases0030();
    Passed(up[0], 0, 4, bs[0]);
    assert BlocksCertified(UP_0030, 1, Bases0030());
    ForwardsByCheck(Rev0030(), Bases0030(), Base(55, [397], [AcademicDepartments(), AcademicPrograms()], [], []));
    RestoresByCheck(Rev0030(), Bases0030(), Base(55, [397], [AcademicDepartments(), AcademicPrograms()], [], []));
  }

  lemma Undone0031()
    ensures |UP_0031| == |DOWN_0031| == 2 && BlocksUndone(UP_0031, 2, DOWN_0031)
  {
    var up, down := UP_0031, DOWN_0031;
    assert UndoesFrom(up[0], 9, down[1], 0, 5, 4) && UndoesFrom(up[0], 5, down[1], 4, 0, 9);
    Rejoined(up[0], 9, down[1], 0, 5, 4, 0, 9);
    assert UndoesFrom(up[1], 5, down[0], 0, 0, 5);
  }

  lemma Blocks0031a()
    ensures |UP_0031| == 2 == |Bases0031()| - 1
    ensures BlockCertified(UP_0031[0], Bases0031()[0], Bases0031()[1])
  {
    var up, bs := UP_0031, Bases0031();
    Passed(up[0], 0, 9, bs[0]);
  }

  lemma Blocks0031b()
    ensures |UP_0031| == 2 == |Bases0031()| - 1
    ensures BlockCertified(UP_0031[1], Bases0031()[1], Bases0031()[2])
  {
    var up, bs := UP_0031, Bases0031();
    Passed(up[1], 0, 5, bs[1]);
  }

  lemma Certified0031()
    ensures Rev0031().Forwards(Base(56, [403], [AcademicDepartments(), AcademicPrograms()], [], []))
    ensures Rev0031().Restores()
        && Rev0031().SparesOlderEnums(Base(56, [403], [AcademicDepartments(), AcademicPrograms()], [], []))
  {
    Undone0031();
    Blocks0031a();
    Blocks0031b();
    assert BlocksCertified(UP_0031, 2, Bases0031());
    ForwardsByCheck(Rev0031(), Bases0031(), Base(56, [403], [AcademicDepartments(), AcademicPrograms()], [], []));
    RestoresByCheck(Rev0031(), Bases0031(), Base(56, [403], [AcademicDepartments(), AcademicPrograms()], [], []));
  }

  lemma Undone0032()
    ensures |UP_0032| == |DOWN_0032| == 2 && BlocksUndone(UP_0032, 2, DOWN_0032)
  {
    var up, down := UP_0032, DOWN_0032;
    assert UndoesFrom(up[0], 7, down[1], 0, 0, 7);
    assert UndoesFrom(up[1], 4, down[0], 0, 0, 4);
  }

  lemma Blocks0032a()
    ensures |UP_0032| == 2 == |Bases0032()| - 1
    ensures BlockCertified(UP_0032[0], Bases0032()[0], Bases0032()[1])
  {
    var up, bs := UP_0032, Bases0032();
    Passed(up[0], 0, 7, bs[0]);
  }

  lemma Blocks0032b()
    ensures |UP_0032| == 2 == |Bases0032()| - 1
    ensures BlockCertified(UP_0032[1], Bases0032()[1], Bases0032()[2])
  {
    var up, bs := UP_0032, Bases0032();
    Passed(up[1], 0, 4, bs[1]);
  }

  lemma Certified0032()
    ensures Rev0032().Forwards(Base(58, [425], [AcademicDepartments(), AcademicPrograms()], [], []))
    ensures Rev0032().Restores()
        && Rev0032().SparesOlderEnums(Base(58, [425], [AcademicDepartments(), AcademicPrograms()], [], []))
  {
    Undone0032();
    Blocks0032a();
    Blocks0032b();
    assert BlocksCertified(UP_0032, 2, Bases0032());
    ForwardsByCheck(Rev0032(), Bases0032(), Base(58, [425], [AcademicDepartments(), AcademicPrograms()], [], []));
    RestoresByCheck(Rev0032(), Bases0032(), Base(58, [425], [AcademicDepartments(), AcademicPrograms()], [], []));
  }

  lemma Undone0033()
    ensures |UP_0033| == |DOWN_0033| == 2 && BlocksUndone(UP_0033, 2, DOWN_0033)
  {
    var up, down := UP_0033, DOWN_0033;
    assert UndoesFrom(up[0], 4, down[1], 0, 0, 4);
    assert UndoesFrom(up[1], 8, down[0], 0, 0, 8);
  }

  lemma Blocks0033a()
    ensures |UP_0033| == 2 == |Bases0033()| - 1
    ensures BlockCertified(UP_0033[0], Bases0033()[0], Bases0033()[1])
  {
    var up, bs := UP_0033, Bases0033();
    Passed(up[0], 0, 4, bs[0]);
  }

  lemma Blocks0033b()
    ensures |UP_0033| == 2 == |Bases0033()| - 1
    ensures BlockCertified(UP_0033[1], Bases0033()[1], Bases0033()[2])
  {
    var up, bs := UP_0033, Bases0033();
    Passed(up[1], 0, 8, bs[1]);
  }

  lemma Certified0033()
    ensures Rev0033().Forwards(Base(60, [442], [AcademicDepartments(), AcademicPrograms()], [], []))
    ensures Rev0033().Restores()
        && Rev0033().SparesOlderEnums(Base(60, [442], [AcademicDepartments(), AcademicPrograms()], [], []))
  {
    Undone0033();
    Blocks0033a();
    Blocks0033b();
    assert BlocksCertified(UP_0033, 2, Bases0033());
    ForwardsByCheck(Rev0033(), Bases0033(), Base(60, [442], [AcademicDepartments(), AcademicPrograms()], [], []));
    RestoresByCheck(Rev0033(), Bases0033(), Base(60, [442], [AcademicDepartments(), AcademicPrograms()], [], []));
  }

  lemma Undone0034()
    ensures |UP_0034| == |DOWN_0034| == 4 && BlocksUndone(UP_0034, 4, DOWN_0034)
  {
    var up, down := UP_0034, DOWN_0034;
    assert UndoesFrom(up[0], 3, down[3], 0, 0, 1);
    assert UndoesFrom(up[1], 5, down[2], 0, 0, 1);
    assert UndoesFrom(up[2], 5, down[1], 0, 0, 1);
    assert UndoesFrom(up[3], 5, down[0], 0, 0, 1);
  }

  lemma Blocks0034a()
    ensures |UP_0034| == 4 == |Bases0034()| - 1
    ensures BlockCertified(UP_0034[0], Bases0034()[0], Bases0034()[1])
    ensures BlockCertified(UP_0034[1], Bases0034()[1], Bases0034()[2])
  {
    var up, bs := UP_0034, Bases0034();
    Passed(up[0], 0, 3, bs[0]);
    Passed(up[1], 0, 5, bs[1]);
  }

  lemma Blocks0034b()
    ensures |UP_0034| == 4 == |Bases0034()| - 1
    ensures BlockCertified(UP_0034[2], Bases0034()[2], Bases0034()[3])
    ensures BlockCertified(UP_0034[3], Bases0034()[3], Bases0034()[4])
  {
    var up, bs := UP_0034, Bases0034();
    Passed(up[2], 0, 5, bs[2]);
    Passed(up[3], 0, 5, bs[3]);
  }

  lemma Certified0034()
    ensures Rev0034().Forwards(Base(62, [461], [AcademicDepartments(), AcademicPrograms()], [], []))
    ensures Rev0034().Restores()
        && Rev0034().SparesOlderEnums(Base(62, [461], [AcademicDepartments(), AcademicPrograms()], [], []))
  {
    Undone0034();
    Blocks0034a();
    Blocks0034b();
    assert BlocksCertified(UP_0034, 4, Bases0034());
    ForwardsByCheck(Rev0034(), Bases0034(), Base(62, [461], [AcademicDepartments(), AcademicPrograms()], [], []));
    RestoresByCheck(Rev0034(), Bases0034(), Base(62, [461], [AcademicDepartments(), AcademicPrograms()], [], []));
  }

  lemma Undone0035()
    ensures |UP_0035| == |DOWN_0035| == 7 && BlocksUndone(UP_0035, 7, DOWN_0035)
  {
    var up, down := UP_0035, DOWN_0035;
    assert UndoesFrom(up[0], 3, down[6], 0, 0, 1);
    assert UndoesFrom(up[1], 2, down[5], 0, 0, 1);
    assert UndoesFrom(up[2], 5, down[4], 0, 0, 1);
    assert UndoesFrom(up[3], 4, down[3], 0, 0, 1);
    assert UndoesFrom(up[4], 5, down[2], 0, 0, 1);
    assert UndoesFrom(up[5], 4, down[1], 0, 0, 1);
    assert UndoesFrom(up[6], 5, down[0], 0, 0, 1);
  }

  lemma Blocks0035a()
    ensures |UP_0035| == 7 == |Bases0035()| - 1
    ensures BlockCertified(UP_0035[0], Bases0035()[0], Bases0035()[1])
    ensures BlockCertified(UP_0035[1], Bases0035()[1], Bases0035()[2])
    ensures BlockCertified(UP_0035[2], Bases0035()[2], Bases0035()[3])
  {
    var up, bs := UP_0035, Bases0035();
    Passed(up[0], 0, 3, bs[0]);
    Passed(up[1], 0, 2, bs[1]);
    Passed(up[2], 0, 5, bs[2]);
  }

  lemma Blocks0035b()
    ensures |UP_0035| == 7 == |Bases0035()| - 1
    ensures BlockCertified(UP_0035[3], Bases0035()[3], Bases0035()[4])
    ensures BlockCertified(UP_0035[4], Bases0035()[4], Bases0035()[5])
  {
    var up, bs := UP_0035, Bases0035();
    Passed(up[3], 0, 4, bs[3]);
    Passed(up[4], 0, 5, bs[4]);
  }

  lemma Blocks0035c()
    ensures |UP_0035| == 7 == |Bases0035()| - 1
    ensures BlockCertified(UP_0035[5], Bases0035()[5], Bases0035()[6])
    ensures BlockCertified(UP_0035[6], Bases0035()[6], Bases0035()[7])
  {
    var up, bs := UP_0035, Bases0035();
    Passed(up[5], 0, 4, bs[5]);
    Passed(up[6], 0, 5, bs[6]);
  }

  lemma Certified0035()
    ensures Rev0035().Forwards(Base(66, [492], [AcademicDepartments(), AcademicPrograms()], [], []))
    ensures Rev0035().Restores()
        && Rev0035().SparesOlderEnums(Base(66, [492], [AcademicDepartments(), AcademicPrograms()], [], []))
  {
    Undone0035();
    Blocks0035a();
    Blocks0035b();
    Blocks0035c();
    assert BlocksCertified(UP_0035, 7, Bases0035());
    ForwardsByCheck(Rev0035(), Bases0035(), Base(66, [492], [AcademicDepartments(), AcademicPrograms()], [], []));
    RestoresByCheck(Rev0035(), Bases0035(), Base(66, [492], [AcademicDepartments(), AcademicPrograms()], [], []));
  }
}
